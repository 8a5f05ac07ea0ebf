/** What holds of the tables in every reachable state, and why every request keeps it. */
module Invariant {
  import opened Prelude
  import opened Domain
  import opened Tables
  import opened Requests

  // ----- The invariant -----

  predicate HasRole(members: map<Uuid, Membership>, user: Option<Uuid>, t: Uuid, role: Role) {
    user.Some? ==> user.value in members && members[user.value] == Membership(t, role)
  }

  /** Owner, decider and payer are members of the report's tenant, in the roles the routes demand. */
  predicate PeopleOk(users: map<Uuid, string>, members: map<Uuid, Membership>, row: Report) {
    && row.owner in users && row.owner in members && members[row.owner].tenant == row.tenant
    && HasRole(members, row.approvedBy, row.tenant, Approver)
    && HasRole(members, row.rejectedBy, row.tenant, Approver)
    && HasRole(members, row.paidBy, row.tenant, Accounting)
  }

  /** The items under report `r` of tenant `t`, which is live or not. */
  predicate ItemsOk(items: map<Uuid, Item>, r: Uuid, t: Uuid, live: bool) {
    forall k :: k in items && items[k].report == r ==>
      items[k].tenant == t && 0 < items[k].amount <= MAX_INT32 && (items[k].deletedAt.None? ==> live)
  }

  predicate AttachmentOk(items: map<Uuid, Item>, r: Uuid, t: Uuid, id: Uuid, att: Attachment) {
    && att.tenant == t
    && att.item in items && items[att.item].report == r
    && (att.deletedAt.None? ==> items[att.item].deletedAt.None?)
    && att.key == Key(t, r, id)
    && AllowedMime(att.mime) && 0 < att.fileSize <= MAX_FILE_SIZE
  }

  predicate AttachmentsOk(items: map<Uuid, Item>, atts: map<Uuid, Attachment>, r: Uuid, t: Uuid) {
    forall k :: k in atts && atts[k].report == r ==> AttachmentOk(items, r, t, k, atts[k])
  }

  /** The stored total is the sum of the live items, and fits the column. */
  ghost predicate TotalOk(items: map<Uuid, Item>, r: Uuid, t: Uuid, total: int) {
    total == LiveTotal(items, t, r) && 0 <= total <= MAX_INT32
  }

  /** A resubmission refers to a live, rejected report of the same tenant and owner. */
  predicate ReferenceOk(reports: map<Uuid, Report>, row: Report) {
    row.reference.Some? ==>
      && row.reference.value in reports
      && var source := reports[row.reference.value];
         && source.deletedAt.None? && source.status == Rejected
         && source.tenant == row.tenant && source.owner == row.owner
  }

  /** Everything that concerns one report and the rows under it. */
  ghost predicate ReportOk(db: Db, r: Uuid)
    requires r in db.reports
  {
    var row := db.reports[r];
    && FieldsMatchStatus(row)
    && PeopleOk(db.users, db.members, row)
    && row.periodStart <= row.periodEnd
    && ItemsOk(db.items, r, row.tenant, row.deletedAt.None?)
    && AttachmentsOk(db.items, db.attachments, r, row.tenant)
    && (row.deletedAt.None? ==> TotalOk(db.items, r, row.tenant, row.total))
    && (row.status != Draft ==> row.deletedAt.None? && LiveItems(db.items, row.tenant, r) != map[])
    && ReferenceOk(db.reports, row)
  }

  /** Every item and attachment hangs under some report. */
  predicate Rooted(db: Db) {
    && (forall k :: k in db.items ==> db.items[k].report in db.reports)
    && (forall k :: k in db.attachments ==> db.attachments[k].report in db.reports)
  }

  ghost predicate Inv(db: Db) {
    && (forall r :: r in db.reports ==> ReportOk(db, r))
    && Rooted(db)
  }

  // ----- What one request may touch -----

  predicate SameItemsBut(before: map<Uuid, Item>, after: map<Uuid, Item>, r: Uuid) {
    && (forall k :: k in before ==> k in after && after[k].report == before[k].report)
    && (forall k :: k in after && after[k].report != r ==> k in before && after[k] == before[k])
    && (forall k :: k in before && before[k].report != r ==> after[k] == before[k])
  }

  predicate SameAttachmentsBut(before: map<Uuid, Attachment>, after: map<Uuid, Attachment>, r: Uuid) {
    && (forall k :: k in before ==> k in after && after[k].report == before[k].report)
    && (forall k :: k in after && after[k].report != r ==> k in before && after[k] == before[k])
    && (forall k :: k in before && before[k].report != r ==> after[k] == before[k])
  }

  predicate SameReportsBut(before: map<Uuid, Report>, after: map<Uuid, Report>, r: Uuid) {
    && after.Keys == before.Keys + {r}
    && (forall q :: q in before && q != r ==> after[q] == before[q])
  }

  /** What never changes once a report has left draft. */
  predicate SameContents(before: Report, after: Report) {
    && after.title == before.title
    && after.periodStart == before.periodStart && after.periodEnd == before.periodEnd
    && after.total == before.total
    && after.deletedAt == before.deletedAt
  }

  /** One request's whole effect is confined to report `r` of the actor's tenant and to the rows under it. */
  predicate Touches(db: Db, a: Actor, db': Db, r: Uuid) {
    && db'.users == db.users && db'.members == db.members && db'.categories == db.categories
    && SameReportsBut(db.reports, db'.reports, r)
    && SameItemsBut(db.items, db'.items, r)
    && SameAttachmentsBut(db.attachments, db'.attachments, r)
    && db'.reports[r].tenant == a.tenant
    && (if r in db.reports then AdvancesRow(db, a, db', r) else db'.reports[r].status == Draft)
  }

  /**
   A report already there keeps its identity, moves along at most one edge of the life cycle, is not in
   a final state, and changes in content only while it is the actor's own draft.
   */
  predicate AdvancesRow(db: Db, a: Actor, db': Db, r: Uuid)
    requires r in db.reports && r in db'.reports
  {
    var row, row' := db.reports[r], db'.reports[r];
    && row.deletedAt.None?
    && !Final(row.status)
    && row'.tenant == row.tenant && row'.owner == row.owner
    && row'.reference == row.reference && row'.createdAt == row.createdAt
    && (row'.status == row.status || Edge(row.status, row'.status))
    && (row.status != Draft || row'.status != Draft ==>
          && SameContents(row, row')
          && db'.items == db.items && db'.attachments == db.attachments)
    && (row.status == Draft ==> row.owner == a.user)
  }

  /** The report a request works on. */
  function Target(req: Request, env: Env): Uuid {
    if req.CreateReport? then env.newId else req.report
  }

  /** The actor's claims were issued from the memberships table, whose rows never change. */
  predicate Authenticated(db: Db, a: Actor) {
    a.user in db.users && a.user in db.members && db.members[a.user] == Membership(a.tenant, a.role)
  }

  // ----- Frame: reports a request does not touch stay as good as they were -----

  lemma OtherItems(before: map<Uuid, Item>, after: map<Uuid, Item>, r: Uuid, q: Uuid, t: Uuid, live: bool)
    requires SameItemsBut(before, after, r) && q != r
    ensures LiveItems(after, t, q) == LiveItems(before, t, q)
    ensures ItemsOk(before, q, t, live) ==> ItemsOk(after, q, t, live)
  {
  }

  lemma OtherAttachments(db: Db, db': Db, r: Uuid, q: Uuid, t: Uuid)
    requires SameItemsBut(db.items, db'.items, r) && SameAttachmentsBut(db.attachments, db'.attachments, r) && q != r
    ensures LiveAttachments(db'.attachments, t, q) == LiveAttachments(db.attachments, t, q)
    ensures AttachmentsOk(db.items, db.attachments, q, t) ==> AttachmentsOk(db'.items, db'.attachments, q, t)
  {
  }

  lemma UntouchedReport(db: Db, a: Actor, db': Db, r: Uuid, q: Uuid)
    requires Inv(db) && Touches(db, a, db', r)
    requires q in db.reports && q != r
    ensures ReportOk(db', q)
    ensures LiveItems(db'.items, db.reports[q].tenant, q) == LiveItems(db.items, db.reports[q].tenant, q)
    ensures LiveAttachments(db'.attachments, db.reports[q].tenant, q)
         == LiveAttachments(db.attachments, db.reports[q].tenant, q)
  {
    var row := db.reports[q];
    assert ReportOk(db, q);
    OtherItems(db.items, db'.items, r, q, row.tenant, row.deletedAt.None?);
    OtherAttachments(db, db', r, q, row.tenant);
  }

  lemma TouchKeepsInv(db: Db, a: Actor, db': Db, r: Uuid)
    requires Inv(db) && Touches(db, a, db', r)
    requires ReportOk(db', r)
    ensures Inv(db')
  {
    forall q | q in db'.reports ensures ReportOk(db', q) {
      if q != r { UntouchedReport(db, a, db', r, q); }
    }
    forall k | k in db'.items ensures db'.items[k].report in db'.reports {
      if db'.items[k].report != r { assert k in db.items; }
    }
  }

  // ----- One lemma per kind of request -----

  /** The row after a transition, as the statement stores it. */
  function Decided(row: Report, next: Report, stamp: Time): Report {
    next.(total := row.total, updatedAt := stamp)
  }

  lemma StatusKeepsReport(db: Db, r: Uuid, next: Report, stamp: Time)
    requires r in db.reports && ReportOk(db, r)
    requires DiffersInDecision(db.reports[r], next) && next.status != Draft
    requires FieldsMatchStatus(next) && PeopleOk(db.users, db.members, next)
    requires db.reports[r].deletedAt.None? && LiveItems(db.items, db.reports[r].tenant, r) != map[]
    requires db.reports[r].reference != Some(r)
    ensures ReportOk(db.(reports := db.reports[r := Decided(db.reports[r], next, stamp)]), r)
  {
  }

  /** A live report that is not rejected does not refer to itself. */
  lemma NoSelfReference(db: Db, r: Uuid)
    requires r in db.reports && ReportOk(db, r) && db.reports[r].status != Rejected
    ensures db.reports[r].reference != Some(r)
  {
  }

  /** Approval, rejection, payment and submission change the report row alone. */
  lemma StatusKeeps(db: Db, a: Actor, r: Uuid, next: Report, stamp: Time)
    requires Inv(db) && Authenticated(db, a)
    requires FindReport(db, a.tenant, r).Ok?
    requires Edge(db.reports[r].status, next.status) && DiffersInDecision(db.reports[r], next)
    requires FieldsMatchStatus(next) && PeopleOk(db.users, db.members, next)
    requires LiveItems(db.items, a.tenant, r) != map[]
    requires db.reports[r].status == Draft ==> db.reports[r].owner == a.user
    ensures var db' := StoreStatus(db, r, db.reports[r], next, stamp).db;
            Touches(db, a, db', r) && ReportOk(db', r)
  {
    assert ReportOk(db, r);
    NoSelfReference(db, r);
    StatusKeepsReport(db, r, next, stamp);
    StatusTouches(db, a, r, next, stamp);
  }

  lemma StatusTouches(db: Db, a: Actor, r: Uuid, next: Report, stamp: Time)
    requires FindReport(db, a.tenant, r).Ok?
    requires Edge(db.reports[r].status, next.status) && DiffersInDecision(db.reports[r], next)
    requires db.reports[r].status == Draft ==> db.reports[r].owner == a.user
    ensures Touches(db, a, StoreStatus(db, r, db.reports[r], next, stamp).db, r)
  {
  }

  lemma SubmitKeeps(db: Db, a: Actor, r: Uuid, version: Time, env: Env)
    requires Inv(db) && Authenticated(db, a) && ServeSubmitReport(db, a, r, version, env).Ok?
    ensures var db' := ServeSubmitReport(db, a, r, version, env).value.db;
            Touches(db, a, db', r) && ReportOk(db', r)
  {
    assert ReportOk(db, r);
    var row, items := db.reports[r], LiveItems(db.items, a.tenant, r);
    var next := ToSubmitted(row, a.user, |items|, Sum(AmountColumn(items)), HasApprover(db, a.tenant), env.clock);
    StatusKeeps(db, a, r, next.value, env.stamp);
  }

  lemma ApproveKeeps(db: Db, a: Actor, r: Uuid, comment: Option<string>, version: Time, env: Env)
    requires Inv(db) && Authenticated(db, a) && a.role == Approver
    requires ServeApproveReport(db, a, r, comment, version, env).Ok?
    ensures var db' := ServeApproveReport(db, a, r, comment, version, env).value.db;
            Touches(db, a, db', r) && ReportOk(db', r)
  {
    assert ReportOk(db, r);
    StatusKeeps(db, a, r, ToApproved(db.reports[r], a.user, comment, env.clock).value, env.stamp);
  }

  lemma RejectKeeps(db: Db, a: Actor, r: Uuid, reason: string, version: Time, env: Env)
    requires Inv(db) && Authenticated(db, a) && a.role == Approver
    requires ServeRejectReport(db, a, r, reason, version, env).Ok?
    ensures var db' := ServeRejectReport(db, a, r, reason, version, env).value.db;
            Touches(db, a, db', r) && ReportOk(db', r)
  {
    assert ReportOk(db, r);
    StatusKeeps(db, a, r, ToRejected(db.reports[r], a.user, reason, env.clock).value, env.stamp);
  }

  lemma PayKeeps(db: Db, a: Actor, r: Uuid, version: Time, env: Env)
    requires Inv(db) && Authenticated(db, a) && a.role == Accounting && ServePayReport(db, a, r, version, env).Ok?
    ensures var db' := ServePayReport(db, a, r, version, env).value.db;
            Touches(db, a, db', r) && ReportOk(db', r)
  {
    assert ReportOk(db, r);
    StatusKeeps(db, a, r, ToPaid(db.reports[r], a.user, env.clock).value, env.stamp);
  }

  lemma UpdateReportKeeps(db: Db, a: Actor, r: Uuid, title: string, start: Date, end: Date, version: Time, env: Env)
    requires Inv(db) && Authenticated(db, a) && ServeUpdateReport(db, a, r, title, start, end, version, env).Ok?
    ensures var db' := ServeUpdateReport(db, a, r, title, start, end, version, env).value.db;
            Touches(db, a, db', r) && ReportOk(db', r)
  {
    assert ReportOk(db, r);
    NoSelfReference(db, r);
    RewordedReportOk(db, r, title, start, end, env.stamp);
  }

  lemma RewordedReportOk(db: Db, r: Uuid, title: string, start: Date, end: Date, stamp: Time)
    requires r in db.reports && ReportOk(db, r) && start <= end && db.reports[r].reference != Some(r)
    ensures var row' := db.reports[r].(title := title, periodStart := start, periodEnd := end, updatedAt := stamp);
            ReportOk(db.(reports := db.reports[r := row']), r)
  {
  }

  /** An edit of the actor's own draft: what has to be checked of the rows under it. */
  lemma EditKeeps(db: Db, a: Actor, r: Uuid, row': Report, items: map<Uuid, Item>, atts: map<Uuid, Attachment>)
    requires Editable(db, a, r).Ok? && ReportOk(db, r)
    requires row' == db.reports[r].(total := row'.total, updatedAt := row'.updatedAt, deletedAt := row'.deletedAt)
    requires SameItemsBut(db.items, items, r) && ItemsOk(items, r, a.tenant, row'.deletedAt.None?)
    requires SameAttachmentsBut(db.attachments, atts, r) && AttachmentsOk(items, atts, r, a.tenant)
    requires row'.deletedAt.None? ==> TotalOk(items, r, a.tenant, row'.total)
    ensures var db' := db.(reports := db.reports[r := row'], items := items, attachments := atts);
            Touches(db, a, db', r) && ReportOk(db', r)
  {
    NoSelfReference(db, r);
    EditedReportOk(db, r, row', items, atts);
  }

  lemma EditedReportOk(db: Db, r: Uuid, row': Report, items: map<Uuid, Item>, atts: map<Uuid, Attachment>)
    requires r in db.reports && ReportOk(db, r) && db.reports[r].status == Draft && db.reports[r].reference != Some(r)
    requires row' == db.reports[r].(total := row'.total, updatedAt := row'.updatedAt, deletedAt := row'.deletedAt)
    requires ItemsOk(items, r, row'.tenant, row'.deletedAt.None?) && AttachmentsOk(items, atts, r, row'.tenant)
    requires row'.deletedAt.None? ==> TotalOk(items, r, row'.tenant, row'.total)
    ensures ReportOk(db.(reports := db.reports[r := row'], items := items, attachments := atts), r)
  {
  }

  /** Erasing a report's items and attachments leaves none of them live. */
  lemma ErasedReportOk(items: map<Uuid, Item>, atts: map<Uuid, Attachment>, t: Uuid, r: Uuid, stamp: Time)
    requires ItemsOk(items, r, t, true) && AttachmentsOk(items, atts, r, t)
    ensures var items', atts' := EraseItems(items, t, r, stamp), EraseAttachments(atts, t, r, stamp);
            && SameItemsBut(items, items', r) && ItemsOk(items', r, t, false)
            && SameAttachmentsBut(atts, atts', r) && AttachmentsOk(items', atts', r, t)
  {
    var items', atts' := EraseItems(items, t, r, stamp), EraseAttachments(atts, t, r, stamp);
    forall k | k in atts' && atts'[k].report == r ensures AttachmentOk(items', r, t, k, atts'[k]) {
      assert AttachmentOk(items, r, t, k, atts[k]);
    }
  }

  lemma DeleteReportKeeps(db: Db, a: Actor, r: Uuid, env: Env)
    requires Inv(db) && Authenticated(db, a) && ServeDeleteReport(db, a, r, env).Ok?
    ensures var db' := ServeDeleteReport(db, a, r, env).value.db;
            Touches(db, a, db', r) && ReportOk(db', r)
  {
    assert ReportOk(db, r);
    ErasedReportOk(db.items, db.attachments, a.tenant, r, env.stamp);
    EditKeeps(db, a, r, db.reports[r].(deletedAt := Some(env.stamp), updatedAt := env.stamp),
              EraseItems(db.items, a.tenant, r, env.stamp), EraseAttachments(db.attachments, a.tenant, r, env.stamp));
  }

  lemma StoredItemOk(items: map<Uuid, Item>, atts: map<Uuid, Attachment>, t: Uuid, r: Uuid, i: Uuid, item: Item)
    requires ItemsOk(items, r, t, true) && AttachmentsOk(items, atts, r, t)
    requires ItemOf(item, t, r) && 0 < item.amount <= MAX_INT32
    requires i in items ==> items[i].report == r
    ensures SameItemsBut(items, items[i := item], r) && ItemsOk(items[i := item], r, t, true)
    ensures AttachmentsOk(items[i := item], atts, r, t)
  {
    forall k | k in atts && atts[k].report == r ensures AttachmentOk(items[i := item], r, t, k, atts[k]) {
      assert AttachmentOk(items, r, t, k, atts[k]);
    }
  }

  /** An item row stored under an editable report keeps the total in step. */
  lemma StoreItemKeeps(db: Db, a: Actor, i: Uuid, item: Item, stamp: Time)
    requires Inv(db) && Authenticated(db, a) && Editable(db, a, item.report).Ok?
    requires item.tenant == a.tenant && item.deletedAt.None? && item.amount <= MAX_INT32
    requires i in db.items ==> db.items[i].report == item.report
    requires StoreItem(db, a.tenant, i, item, stamp).Ok?
    ensures var db' := StoreItem(db, a.tenant, i, item, stamp).value.db;
            Touches(db, a, db', item.report) && ReportOk(db', item.report)
  {
    var r, items := item.report, db.items[i := item];
    assert ReportOk(db, r);
    StoredItemOk(db.items, db.attachments, a.tenant, r, i, item);
    EditKeeps(db, a, r, db.reports[r].(total := LiveTotal(items, a.tenant, r), updatedAt := stamp), items,
              db.attachments);
  }

  lemma CreateItemKeeps(db: Db, a: Actor, r: Uuid, date: Date, amount: int, category: Uuid, description: string,
                        env: Env)
    requires Inv(db) && Authenticated(db, a) && env.newId !in db.items
    requires ServeCreateItem(db, a, r, date, amount, category, description, env).Ok?
    ensures var db' := ServeCreateItem(db, a, r, date, amount, category, description, env).value.db;
            Touches(db, a, db', r) && ReportOk(db', r)
  {
    StoreItemKeeps(db, a, env.newId,
                   Item(r, a.tenant, date, ToInt32(amount), category, description, env.stamp, env.stamp, None),
                   env.stamp);
  }

  lemma UpdateItemKeeps(db: Db, a: Actor, r: Uuid, i: Uuid, date: Date, amount: int, category: Uuid,
                        description: string,
                        version: Time, env: Env)
    requires Inv(db) && Authenticated(db, a)
    requires ServeUpdateItem(db, a, r, i, date, amount, category, description, version, env).Ok?
    ensures var db' := ServeUpdateItem(db, a, r, i, date, amount, category, description, version, env).value.db;
            Touches(db, a, db', r) && ReportOk(db', r)
  {
    StoreItemKeeps(db, a, i,
                   db.items[i].(date := date, amount := ToInt32(amount), category := category,
                                description := description,
                                updatedAt := env.stamp), env.stamp);
  }

  /** Erasing an item takes its attachments with it. */
  lemma ErasedItemOk(items: map<Uuid, Item>, atts: map<Uuid, Attachment>, t: Uuid, r: Uuid, i: Uuid, stamp: Time,
                     live: bool)
    requires ItemsOk(items, r, t, live) && AttachmentsOk(items, atts, r, t)
    requires i in LiveItems(items, t, r)
    ensures var items', atts' := EraseItem(items, t, r, i, stamp), EraseAttachmentsOfItem(atts, t, r, i, stamp);
            && SameItemsBut(items, items', r) && ItemsOk(items', r, t, live)
            && SameAttachmentsBut(atts, atts', r) && AttachmentsOk(items', atts', r, t)
  {
    var items', atts' := EraseItem(items, t, r, i, stamp), EraseAttachmentsOfItem(atts, t, r, i, stamp);
    forall k | k in atts' && atts'[k].report == r ensures AttachmentOk(items', r, t, k, atts'[k]) {
      assert AttachmentOk(items, r, t, k, atts[k]);
    }
  }

  lemma ErasedAttachmentOk(items: map<Uuid, Item>, atts: map<Uuid, Attachment>, t: Uuid, r: Uuid, i: Uuid, att: Uuid,
                           stamp: Time)
    requires AttachmentsOk(items, atts, r, t)
    ensures var atts' := EraseAttachment(atts, t, r, i, att, stamp);
            SameAttachmentsBut(atts, atts', r) && AttachmentsOk(items, atts', r, t)
  {
    var atts' := EraseAttachment(atts, t, r, i, att, stamp);
    forall k | k in atts' && atts'[k].report == r ensures AttachmentOk(items, r, t, k, atts'[k]) {
      assert AttachmentOk(items, r, t, k, atts[k]);
    }
  }

  lemma DeleteItemKeeps(db: Db, a: Actor, r: Uuid, i: Uuid, env: Env)
    requires Inv(db) && Authenticated(db, a) && ServeDeleteItem(db, a, r, i, env).Ok?
    ensures var db' := ServeDeleteItem(db, a, r, i, env).value.db;
            Touches(db, a, db', r) && ReportOk(db', r)
  {
    var items := EraseItem(db.items, a.tenant, r, i, env.stamp);
    assert ReportOk(db, r);
    ErasedItemOk(db.items, db.attachments, a.tenant, r, i, env.stamp, true);
    EditKeeps(db, a, r, db.reports[r].(total := LiveTotal(items, a.tenant, r), updatedAt := env.stamp),
              items, EraseAttachmentsOfItem(db.attachments, a.tenant, r, i, env.stamp));
  }

  /** A change of the attachments alone. */
  lemma AttachmentsKeep(db: Db, a: Actor, r: Uuid, atts: map<Uuid, Attachment>)
    requires Editable(db, a, r).Ok? && ReportOk(db, r)
    requires SameAttachmentsBut(db.attachments, atts, r) && AttachmentsOk(db.items, atts, r, a.tenant)
    ensures var db' := db.(attachments := atts); Touches(db, a, db', r) && ReportOk(db', r)
  {
    EditKeeps(db, a, r, db.reports[r], db.items, atts);
    assert db.reports[r := db.reports[r]] == db.reports;
  }

  lemma InsertedAttachmentOk(items: map<Uuid, Item>, atts: map<Uuid, Attachment>, t: Uuid, r: Uuid, id: Uuid,
                             att: Attachment)
    requires AttachmentsOk(items, atts, r, t) && id !in atts
    requires att.report == r && AttachmentOk(items, r, t, id, att)
    ensures SameAttachmentsBut(atts, atts[id := att], r) && AttachmentsOk(items, atts[id := att], r, t)
  {
  }

  lemma UploadKeeps(db: Db, a: Actor, r: Uuid, i: Uuid, fileName: string, mime: Mime, content: seq<Byte>, env: Env)
    requires Inv(db) && Authenticated(db, a) && env.newId !in db.attachments
    requires ServeUploadAttachment(db, a, r, i, fileName, mime, content, env).Ok?
    ensures var db' := ServeUploadAttachment(db, a, r, i, fileName, mime, content, env).value.db;
            Touches(db, a, db', r) && ReportOk(db', r)
  {
    var att := ServeUploadAttachment(db, a, r, i, fileName, mime, content, env).value.response.attachment;
    assert ReportOk(db, r);
    InsertedAttachmentOk(db.items, db.attachments, a.tenant, r, env.newId, att);
    AttachmentsKeep(db, a, r, db.attachments[env.newId := att]);
  }

  lemma DeleteAttachmentKeeps(db: Db, a: Actor, r: Uuid, i: Uuid, att: Uuid, env: Env)
    requires Inv(db) && Authenticated(db, a)
    requires ServeDeleteAttachment(db, a, r, i, att, env).Ok?
    ensures var db' := ServeDeleteAttachment(db, a, r, i, att, env).value.db;
            Touches(db, a, db', r) && ReportOk(db', r)
  {
    assert ReportOk(db, r);
    ErasedAttachmentOk(db.items, db.attachments, a.tenant, r, i, att, env.stamp);
    AttachmentsKeep(db, a, r, EraseAttachment(db.attachments, a.tenant, r, i, att, env.stamp));
  }

  /** The copies carry the source's sum, so the new draft starts with the right total. */
  lemma CopiesTotal(source: map<Uuid, Item>, names: Names, t: Uuid, r: Uuid, stamp: Time)
    requires names.Valid() && source.Keys <= names.copy.Keys
    ensures Sum(AmountColumn(Copies(source, names, t, r, stamp))) == Sum(AmountColumn(source))
  {
    SumRename(AmountColumn(source), names.copy, AmountColumn(Copies(source, names, t, r, stamp)));
  }

  lemma CopyRows(items: map<Uuid, Item>, source: map<Uuid, Item>, names: Names, t: Uuid, r: Uuid, stamp: Time)
    requires names.Valid() && source.Keys <= names.copy.Keys
    requires forall k :: k in source ==> names.copy[k] !in items && 0 < source[k].amount <= MAX_INT32
    ensures var copies := Copies(source, names, t, r, stamp);
            forall k :: k in copies ==> k !in items && ItemOf(copies[k], t, r) && 0 < copies[k].amount <= MAX_INT32
  {
  }

  /** Rows inserted under a new report are exactly its live items. */
  lemma InsertedItemsOk(items: map<Uuid, Item>, added: map<Uuid, Item>, t: Uuid, r: Uuid)
    requires forall k :: k in added ==> k !in items && ItemOf(added[k], t, r) && 0 < added[k].amount <= MAX_INT32
    requires forall k :: k in items ==> items[k].report != r
    ensures SameItemsBut(items, items + added, r) && ItemsOk(items + added, r, t, true)
    ensures LiveItems(items + added, t, r) == added
  {
  }

  /** What is known of the rows a resubmission copies. */
  lemma SourceRows(db: Db, a: Actor, reference: Option<Uuid>)
    requires Inv(db) && CheckReference(db, a, reference).Ok?
    ensures var source := if reference.None? then map[] else LiveItems(db.items, a.tenant, reference.value);
            && (forall k :: k in source ==> k in db.items && 0 < source[k].amount <= MAX_INT32)
            && 0 <= Sum(AmountColumn(source)) <= MAX_INT32
  {
    if reference.Some? {
      assert ReportOk(db, reference.value);
    } else {
      var none: map<Uuid, Item> := map[];
      assert AmountColumn(none) == map[];
    }
  }

  lemma NewReportOk(db: Db, a: Actor, r: Uuid, row: Report, items: map<Uuid, Item>)
    requires Authenticated(db, a) && r !in db.reports
    requires forall k :: k in db.attachments ==> db.attachments[k].report != r
    requires row == NewReport(a, row.title, row.periodStart, row.periodEnd, row.reference, row.total, row.createdAt)
    requires row.periodStart <= row.periodEnd && CheckReference(db, a, row.reference).Ok?
    requires ItemsOk(items, r, a.tenant, true) && TotalOk(items, r, a.tenant, row.total)
    ensures ReportOk(db.(reports := db.reports[r := row], items := items), r)
  {
  }

  lemma NewReportKeeps(db: Db, a: Actor, r: Uuid, row: Report, added: map<Uuid, Item>)
    requires Rooted(db) && Authenticated(db, a) && r !in db.reports
    requires row == NewReport(a, row.title, row.periodStart, row.periodEnd, row.reference, row.total, row.createdAt)
    requires row.periodStart <= row.periodEnd && CheckReference(db, a, row.reference).Ok?
    requires var items := db.items + added;
             && SameItemsBut(db.items, items, r) && ItemsOk(items, r, a.tenant, true)
             && TotalOk(items, r, a.tenant, row.total)
    ensures var db' := db.(reports := db.reports[r := row], items := db.items + added);
            Touches(db, a, db', r) && ReportOk(db', r)
  {
    NewReportOk(db, a, r, row, db.items + added);
  }

  /** The copies under the new report: their total, and that they are its only items. */
  lemma CopiedItemsOk(db: Db, a: Actor, reference: Option<Uuid>, env: Env)
    requires Inv(db) && Fresh(db, env) && CheckReference(db, a, reference).Ok?
    ensures var source := if reference.None? then map[] else LiveItems(db.items, a.tenant, reference.value);
            var items := db.items + Copies(source, env.names, a.tenant, env.newId, env.stamp);
            && SameItemsBut(db.items, items, env.newId) && ItemsOk(items, env.newId, a.tenant, true)
            && TotalOk(items, env.newId, a.tenant, Sum(AmountColumn(source)))
  {
    var source := if reference.None? then map[] else LiveItems(db.items, a.tenant, reference.value);
    SourceRows(db, a, reference);
    CopiesTotal(source, env.names, a.tenant, env.newId, env.stamp);
    CopyRows(db.items, source, env.names, a.tenant, env.newId, env.stamp);
    InsertedItemsOk(db.items, Copies(source, env.names, a.tenant, env.newId, env.stamp), a.tenant, env.newId);
  }

  lemma CreateReportKeeps(db: Db, a: Actor, title: string, start: Date, end: Date, reference: Option<Uuid>, env: Env)
    requires Inv(db) && Authenticated(db, a) && Fresh(db, env)
    requires ServeCreateReport(db, a, title, start, end, reference, env).Ok?
    ensures var db' := ServeCreateReport(db, a, title, start, end, reference, env).value.db;
            Touches(db, a, db', env.newId) && ReportOk(db', env.newId)
  {
    var source := if reference.None? then map[] else LiveItems(db.items, a.tenant, reference.value);
    CopiedItemsOk(db, a, reference, env);
    NewReportKeeps(db, a, env.newId, NewReport(a, title, start, end, reference, Sum(AmountColumn(source)), env.stamp),
                   Copies(source, env.names, a.tenant, env.newId, env.stamp));
  }

  // ----- All requests -----

  lemma ServeTouches(db: Db, a: Actor, req: Request, env: Env)
    requires Inv(db) && Authenticated(db, a) && Fresh(db, env)
    requires Serve(db, a, req, env).Ok?
    ensures var db' := Serve(db, a, req, env).value.db;
            Touches(db, a, db', Target(req, env)) && ReportOk(db', Target(req, env))
  {
    match req
    case CreateReport(title, start, end, reference) => CreateReportKeeps(db, a, title, start, end, reference, env);
    case UpdateReport(r, title, start, end, version) => UpdateReportKeeps(db, a, r, title, start, end, version, env);
    case DeleteReport(r) => DeleteReportKeeps(db, a, r, env);
    case SubmitReport(r, version) => SubmitKeeps(db, a, r, version, env);
    case CreateItem(r, date, amount, category, description) =>
      CreateItemKeeps(db, a, r, date, amount, category, description, env);
    case UpdateItem(r, i, date, amount, category, description, version) =>
      UpdateItemKeeps(db, a, r, i, date, amount, category, description, version, env);
    case DeleteItem(r, i) => DeleteItemKeeps(db, a, r, i, env);
    case UploadAttachment(r, i, fileName, mime, content) => UploadKeeps(db, a, r, i, fileName, mime, content, env);
    case DeleteAttachment(r, i, att) => DeleteAttachmentKeeps(db, a, r, i, att, env);
    case ApproveReport(r, comment, version) => ApproveKeeps(db, a, r, comment, version, env);
    case RejectReport(r, reason, version) => RejectKeeps(db, a, r, reason, version, env);
    case PayReport(r, version) => PayKeeps(db, a, r, version, env);
  }

  /** Every committed request keeps the invariant. */
  lemma ServeKeepsInv(db: Db, a: Actor, req: Request, env: Env)
    requires Inv(db) && Authenticated(db, a) && Fresh(db, env)
    requires Serve(db, a, req, env).Ok?
    ensures Inv(Serve(db, a, req, env).value.db)
  {
    ServeTouches(db, a, req, env);
    TouchKeepsInv(db, a, Serve(db, a, req, env).value.db, Target(req, env));
  }

  /** A new user and membership concern no report yet. */
  lemma ProvisionedReportOk(db: Db, user: Uuid, name: string, membership: Membership, r: Uuid)
    requires r in db.reports && ReportOk(db, r) && user !in db.users && user !in db.members
    ensures ReportOk(db.(users := db.users[user := name], members := db.members[user := membership]), r)
  {
  }

  lemma ProvisionedKeepsInv(db: Db, user: Uuid, name: string, membership: Membership)
    requires Inv(db) && user !in db.users && user !in db.members
    ensures Inv(db.(users := db.users[user := name], members := db.members[user := membership]))
  {
    var db' := db.(users := db.users[user := name], members := db.members[user := membership]);
    forall r | r in db'.reports ensures ReportOk(db', r) {
      ProvisionedReportOk(db, user, name, membership, r);
    }
  }
}
