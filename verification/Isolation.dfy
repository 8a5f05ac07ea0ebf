/**
 Tenant isolation. A tenant's view of the tables is its own rows; what a request answers and does there
 depends on nothing else, and a whole run seen from one tenant is the run of that tenant's requests alone.
 */
module Isolation {
  import opened Prelude
  import opened Domain
  import opened Tables
  import opened Requests
  import opened Invariant
  import opened Runs
  import Dashboard
  import Listings

  function ViewReports(reports: map<Uuid, Report>, t: Uuid): map<Uuid, Report> {
    map k | k in reports && reports[k].tenant == t :: reports[k]
  }

  function ViewItems(items: map<Uuid, Item>, t: Uuid): map<Uuid, Item> {
    map k | k in items && items[k].tenant == t :: items[k]
  }

  function ViewAttachments(atts: map<Uuid, Attachment>, t: Uuid): map<Uuid, Attachment> {
    map k | k in atts && atts[k].tenant == t :: atts[k]
  }

  /** The rows of tenant `t`, and the categories it shares with everyone. */
  function View(db: Db, t: Uuid): Db {
    Db(map u | u in db.users && u in db.members && db.members[u].tenant == t :: db.users[u],
       map u | u in db.members && db.members[u].tenant == t :: db.members[u],
       map c | c in db.categories && db.categories[c].tenant in {None, Some(t)} :: db.categories[c],
       ViewReports(db.reports, t), ViewItems(db.items, t), ViewAttachments(db.attachments, t))
  }

  /** The same answer, and tables that look the same to `t`. */
  predicate SeenAs(full: Result<Effect>, seen: Result<Effect>, t: Uuid) {
    match full
    case Ok(effect) => seen == Ok(Effect(View(effect.db, t), effect.response))
    case Err(error) => seen == Err(error)
  }

  // ----- Reading through the view -----

  lemma LiveItemsInView(items: map<Uuid, Item>, t: Uuid, r: Uuid)
    ensures LiveItems(ViewItems(items, t), t, r) == LiveItems(items, t, r)
  {
  }

  lemma QueriesInView(db: Db, t: Uuid, r: Uuid)
    ensures FindReport(View(db, t), t, r) == FindReport(db, t, r)
    ensures LiveItems(View(db, t).items, t, r) == LiveItems(db.items, t, r)
    ensures HasApprover(View(db, t), t) == HasApprover(db, t)
  {
    LiveItemsInView(db.items, t, r);
    if HasApprover(db, t) {
      var u :| u in db.members && db.members[u] == Membership(t, Approver);
      assert u in View(db, t).members && View(db, t).members[u] == Membership(t, Approver);
    }
  }

  lemma EditableInView(db: Db, a: Actor, r: Uuid)
    ensures Editable(View(db, a.tenant), a, r) == Editable(db, a, r)
  {
  }

  lemma FindItemInView(db: Db, t: Uuid, r: Uuid, i: Uuid)
    ensures FindItem(View(db, t), t, r, i) == FindItem(db, t, r, i)
    ensures FindItem(db, t, r, i).Ok? ==> View(db, t).items[i] == db.items[i]
  {
    LiveItemsInView(db.items, t, r);
  }

  lemma CategoryInView(db: Db, t: Uuid, c: Uuid)
    ensures CategoryVisible(View(db, t), t, c) == CategoryVisible(db, t, c)
  {
  }

  // ----- Writing through the view -----

  lemma PutReportInView(db: Db, t: Uuid, r: Uuid, row: Report)
    requires row.tenant == t
    ensures View(db.(reports := db.reports[r := row]), t)
         == View(db, t).(reports := ViewReports(db.reports, t)[r := row])
  {
    assert ViewReports(db.reports[r := row], t) == ViewReports(db.reports, t)[r := row];
  }

  lemma PutItemInView(db: Db, t: Uuid, i: Uuid, item: Item)
    requires item.tenant == t
    ensures View(db.(items := db.items[i := item]), t) == View(db, t).(items := ViewItems(db.items, t)[i := item])
  {
    assert ViewItems(db.items[i := item], t) == ViewItems(db.items, t)[i := item];
  }

  lemma RetotalInView(db: Db, t: Uuid, r: Uuid, stamp: Time)
    ensures match Retotal(db, t, r, stamp)
            case Ok(db') => Retotal(View(db, t), t, r, stamp) == Ok(View(db', t))
            case Err(error) => Retotal(View(db, t), t, r, stamp) == Err(error)
  {
    LiveItemsInView(db.items, t, r);
    if r in db.reports && db.reports[r].tenant == t {
      PutReportInView(db, t, r, db.reports[r].(total := LiveTotal(db.items, t, r), updatedAt := stamp));
    }
  }

  lemma EraseItemsInView(items: map<Uuid, Item>, t: Uuid, r: Uuid, i: Uuid, stamp: Time)
    ensures ViewItems(EraseItem(items, t, r, i, stamp), t) == EraseItem(ViewItems(items, t), t, r, i, stamp)
    ensures ViewItems(EraseItems(items, t, r, stamp), t) == EraseItems(ViewItems(items, t), t, r, stamp)
  {
  }

  lemma EraseAttachmentInView(atts: map<Uuid, Attachment>, t: Uuid, r: Uuid, i: Uuid, a: Uuid, stamp: Time)
    ensures ViewAttachments(EraseAttachment(atts, t, r, i, a, stamp), t)
         == EraseAttachment(ViewAttachments(atts, t), t, r, i, a, stamp)
  {
  }

  lemma EraseAttachmentsInView(atts: map<Uuid, Attachment>, t: Uuid, r: Uuid, i: Uuid, stamp: Time)
    ensures ViewAttachments(EraseAttachmentsOfItem(atts, t, r, i, stamp), t)
         == EraseAttachmentsOfItem(ViewAttachments(atts, t), t, r, i, stamp)
    ensures ViewAttachments(EraseAttachments(atts, t, r, stamp), t)
         == EraseAttachments(ViewAttachments(atts, t), t, r, stamp)
  {
  }

  // ----- Requests through the view -----

  lemma StoreStatusInView(db: Db, t: Uuid, r: Uuid, stored: Report, next: Report, stamp: Time)
    requires next.tenant == t
    ensures var full, seen := StoreStatus(db, r, stored, next, stamp), StoreStatus(View(db, t), r, stored, next, stamp);
            seen == Effect(View(full.db, t), full.response)
  {
    PutReportInView(db, t, r, next.(total := stored.total, updatedAt := stamp));
  }

  lemma SubmitInView(db: Db, a: Actor, r: Uuid, version: Time, env: Env)
    ensures SeenAs(ServeSubmitReport(db, a, r, version, env), ServeSubmitReport(View(db, a.tenant), a, r, version, env),
                   a.tenant)
  {
    QueriesInView(db, a.tenant, r);
    var full := ServeSubmitReport(db, a, r, version, env);
    if full.Ok? {
      var row, items := db.reports[r], LiveItems(db.items, a.tenant, r);
      var next := ToSubmitted(row, a.user, |items|, Sum(AmountColumn(items)), HasApprover(db, a.tenant),
                              env.clock).value;
      StoreStatusInView(db, a.tenant, r, row, next, env.stamp);
    }
  }

  lemma DecisionInView(db: Db, a: Actor, r: Uuid, comment: Option<string>, reason: string, version: Time, env: Env)
    ensures SeenAs(ServeApproveReport(db, a, r, comment, version, env),
                   ServeApproveReport(View(db, a.tenant), a, r, comment, version, env), a.tenant)
    ensures SeenAs(ServeRejectReport(db, a, r, reason, version, env),
                   ServeRejectReport(View(db, a.tenant), a, r, reason, version, env), a.tenant)
    ensures SeenAs(ServePayReport(db, a, r, version, env), ServePayReport(View(db, a.tenant), a, r, version, env),
                   a.tenant)
  {
    QueriesInView(db, a.tenant, r);
    if FindReport(db, a.tenant, r).Ok? {
      var row := db.reports[r];
      var approved, paid := ToApproved(row, a.user, comment, env.clock), ToPaid(row, a.user, env.clock);
      var rejected := ToRejected(row, a.user, reason, env.clock);
      if approved.Ok? { StoreStatusInView(db, a.tenant, r, row, approved.value, env.stamp); }
      if rejected.Ok? { StoreStatusInView(db, a.tenant, r, row, rejected.value, env.stamp); }
      if paid.Ok? { StoreStatusInView(db, a.tenant, r, row, paid.value, env.stamp); }
    }
  }

  lemma NewRowsInView(db: Db, t: Uuid, r: Uuid, row: Report, added: map<Uuid, Item>)
    requires row.tenant == t && forall k :: k in added ==> added[k].tenant == t
    ensures View(db.(reports := db.reports[r := row], items := db.items + added), t)
         == View(db, t).(reports := ViewReports(db.reports, t)[r := row], items := ViewItems(db.items, t) + added)
  {
    assert ViewReports(db.reports[r := row], t) == ViewReports(db.reports, t)[r := row];
    assert ViewItems(db.items + added, t) == ViewItems(db.items, t) + added;
  }

  lemma SourceInView(db: Db, a: Actor, reference: Option<Uuid>)
    ensures CheckReference(View(db, a.tenant), a, reference) == CheckReference(db, a, reference)
    ensures reference.Some? ==>
              LiveItems(View(db, a.tenant).items, a.tenant, reference.value)
              == LiveItems(db.items, a.tenant, reference.value)
  {
    if reference.Some? { QueriesInView(db, a.tenant, reference.value); }
  }

  lemma CreateReportInView(db: Db, a: Actor, title: string, start: Date, end: Date, reference: Option<Uuid>, env: Env)
    ensures SeenAs(ServeCreateReport(db, a, title, start, end, reference, env),
                   ServeCreateReport(View(db, a.tenant), a, title, start, end, reference, env), a.tenant)
  {
    var t := a.tenant;
    SourceInView(db, a, reference);
    var source := if reference.None? then map[] else LiveItems(db.items, t, reference.value);
    var row := NewReport(a, title, start, end, reference, Sum(AmountColumn(source)), env.stamp);
    CopiesAreOwn(source, env.names, t, env.newId, env.stamp);
    NewRowsInView(db, t, env.newId, row, Copies(source, env.names, t, env.newId, env.stamp));
  }

  lemma CopiesAreOwn(source: map<Uuid, Item>, names: Names, t: Uuid, r: Uuid, stamp: Time)
    ensures forall k :: k in Copies(source, names, t, r, stamp) ==> Copies(source, names, t, r, stamp)[k].tenant == t
  {
  }

  lemma UpdateReportInView(db: Db, a: Actor, r: Uuid, title: string, start: Date, end: Date, version: Time, env: Env)
    ensures SeenAs(ServeUpdateReport(db, a, r, title, start, end, version, env),
                   ServeUpdateReport(View(db, a.tenant), a, r, title, start, end, version, env), a.tenant)
  {
    QueriesInView(db, a.tenant, r);
    if ServeUpdateReport(db, a, r, title, start, end, version, env).Ok? {
      PutReportInView(db, a.tenant, r,
                      db.reports[r].(title := title, periodStart := start, periodEnd := end, updatedAt := env.stamp));
    }
  }

  lemma DeleteReportInView(db: Db, a: Actor, r: Uuid, env: Env)
    ensures SeenAs(ServeDeleteReport(db, a, r, env), ServeDeleteReport(View(db, a.tenant), a, r, env), a.tenant)
  {
    QueriesInView(db, a.tenant, r);
    EraseItemsInView(db.items, a.tenant, r, 0, env.stamp);
    EraseAttachmentsInView(db.attachments, a.tenant, r, 0, env.stamp);
    if ServeDeleteReport(db, a, r, env).Ok? {
      PutReportInView(db, a.tenant, r, db.reports[r].(deletedAt := Some(env.stamp), updatedAt := env.stamp));
    }
  }

  lemma StoreItemInView(db: Db, t: Uuid, i: Uuid, item: Item, stamp: Time)
    requires item.tenant == t
    ensures SeenAs(StoreItem(db, t, i, item, stamp), StoreItem(View(db, t), t, i, item, stamp), t)
  {
    PutItemInView(db, t, i, item);
    RetotalInView(db.(items := db.items[i := item]), t, item.report, stamp);
  }

  lemma CreateItemInView(db: Db, a: Actor, r: Uuid, date: Date, amount: int, category: Uuid, description: string,
                         env: Env)
    ensures SeenAs(ServeCreateItem(db, a, r, date, amount, category, description, env),
                   ServeCreateItem(View(db, a.tenant), a, r, date, amount, category, description, env), a.tenant)
  {
    EditableInView(db, a, r);
    CategoryInView(db, a.tenant, category);
    StoreItemInView(db, a.tenant, env.newId,
                    Item(r, a.tenant, date, ToInt32(amount), category, description, env.stamp, env.stamp, None),
                    env.stamp);
  }

  lemma UpdateItemInView(db: Db, a: Actor, r: Uuid, i: Uuid, date: Date, amount: int, category: Uuid,
                         description: string,
                         version: Time, env: Env)
    ensures SeenAs(ServeUpdateItem(db, a, r, i, date, amount, category, description, version, env),
                   ServeUpdateItem(View(db, a.tenant), a, r, i, date, amount, category, description, version, env),
                   a.tenant)
  {
    EditableInView(db, a, r);
    FindItemInView(db, a.tenant, r, i);
    CategoryInView(db, a.tenant, category);
    if FindItem(db, a.tenant, r, i).Ok? {
      StoreItemInView(db, a.tenant, i,
                      db.items[i].(date := date, amount := ToInt32(amount), category := category,
                                   description := description,
                                   updatedAt := env.stamp), env.stamp);
    }
  }

  lemma ErasedInView(db: Db, t: Uuid, r: Uuid, i: Uuid, stamp: Time)
    ensures var v := View(db, t);
            View(db.(items := EraseItem(db.items, t, r, i, stamp),
                     attachments := EraseAttachmentsOfItem(db.attachments, t, r, i, stamp)), t)
            == v.(items := EraseItem(v.items, t, r, i, stamp),
                  attachments := EraseAttachmentsOfItem(v.attachments, t, r, i, stamp))
  {
    EraseItemsInView(db.items, t, r, i, stamp);
    EraseAttachmentsInView(db.attachments, t, r, i, stamp);
  }

  lemma DeleteItemInView(db: Db, a: Actor, r: Uuid, i: Uuid, env: Env)
    ensures SeenAs(ServeDeleteItem(db, a, r, i, env), ServeDeleteItem(View(db, a.tenant), a, r, i, env), a.tenant)
  {
    EditableInView(db, a, r);
    FindItemInView(db, a.tenant, r, i);
    ErasedInView(db, a.tenant, r, i, env.stamp);
    RetotalInView(db.(items := EraseItem(db.items, a.tenant, r, i, env.stamp),
                      attachments := EraseAttachmentsOfItem(db.attachments, a.tenant, r, i, env.stamp)),
                  a.tenant, r, env.stamp);
  }

  lemma PutAttachmentInView(db: Db, t: Uuid, id: Uuid, att: Attachment)
    requires att.tenant == t
    ensures View(db.(attachments := db.attachments[id := att]), t)
         == View(db, t).(attachments := ViewAttachments(db.attachments, t)[id := att])
  {
    assert ViewAttachments(db.attachments[id := att], t) == ViewAttachments(db.attachments, t)[id := att];
  }

  lemma UploadInView(db: Db, a: Actor, r: Uuid, i: Uuid, fileName: string, mime: Mime, content: seq<Byte>, env: Env)
    ensures SeenAs(ServeUploadAttachment(db, a, r, i, fileName, mime, content, env),
                   ServeUploadAttachment(View(db, a.tenant), a, r, i, fileName, mime, content, env), a.tenant)
  {
    EditableInView(db, a, r);
    FindItemInView(db, a.tenant, r, i);
    var key := Key(a.tenant, r, env.newId);
    PutAttachmentInView(db, a.tenant, env.newId,
                        Attachment(i, r, a.tenant, fileName, |content|, mime, key, env.stamp, None));
  }

  lemma FindAttachmentInView(db: Db, t: Uuid, r: Uuid, i: Uuid, att: Uuid)
    ensures FindAttachment(View(db, t), t, r, i, att) == FindAttachment(db, t, r, i, att)
  {
  }

  lemma DeleteAttachmentInView(db: Db, a: Actor, r: Uuid, i: Uuid, att: Uuid, env: Env)
    ensures SeenAs(ServeDeleteAttachment(db, a, r, i, att, env),
                   ServeDeleteAttachment(View(db, a.tenant), a, r, i, att, env), a.tenant)
  {
    EditableInView(db, a, r);
    FindAttachmentInView(db, a.tenant, r, i, att);
    EraseAttachmentInView(db.attachments, a.tenant, r, i, att, env.stamp);
  }

  /** A request served on the tenant's rows alone answers and does exactly what it does on the full tables. */
  lemma ServeInView(db: Db, a: Actor, req: Request, env: Env)
    ensures SeenAs(Serve(db, a, req, env), Serve(View(db, a.tenant), a, req, env), a.tenant)
  {
    match req
    case CreateReport(title, start, end, reference) => CreateReportInView(db, a, title, start, end, reference, env);
    case UpdateReport(r, title, start, end, version) => UpdateReportInView(db, a, r, title, start, end, version, env);
    case DeleteReport(r) => DeleteReportInView(db, a, r, env);
    case SubmitReport(r, version) => SubmitInView(db, a, r, version, env);
    case CreateItem(r, date, amount, category, description) =>
      CreateItemInView(db, a, r, date, amount, category, description, env);
    case UpdateItem(r, i, date, amount, category, description, version) =>
      UpdateItemInView(db, a, r, i, date, amount, category, description, version, env);
    case DeleteItem(r, i) => DeleteItemInView(db, a, r, i, env);
    case UploadAttachment(r, i, fileName, mime, content) => UploadInView(db, a, r, i, fileName, mime, content, env);
    case DeleteAttachment(r, i, att) => DeleteAttachmentInView(db, a, r, i, att, env);
    case ApproveReport(r, comment, version) => DecisionInView(db, a, r, comment, "", version, env);
    case RejectReport(r, reason, version) => DecisionInView(db, a, r, None, reason, version, env);
    case PayReport(r, version) => DecisionInView(db, a, r, None, "", version, env);
  }

  /** Two stores a tenant cannot tell apart stay so after any request of the tenant, which is answered alike. */
  lemma NonInterference(db1: Db, db2: Db, a: Actor, req: Request, env: Env)
    requires View(db1, a.tenant) == View(db2, a.tenant)
    ensures var out1, out2 := Serve(db1, a, req, env), Serve(db2, a, req, env);
            if out1.Err? then out2 == out1
            else out2.Ok? && out2.value.response == out1.value.response
                 && View(out2.value.db, a.tenant) == View(out1.value.db, a.tenant)
  {
    ServeInView(db1, a, req, env);
    ServeInView(db2, a, req, env);
  }

  // ----- Other tenants -----

  /** A request changes no row another tenant can see. */
  lemma OtherTenantsUntouched(db: Db, a: Actor, req: Request, env: Env, t: Uuid)
    requires Inv(db) && Authenticated(db, a) && Fresh(db, env)
    requires Serve(db, a, req, env).Ok? && t != a.tenant
    ensures View(Serve(db, a, req, env).value.db, t) == View(db, t)
  {
    var r, db' := Target(req, env), Serve(db, a, req, env).value.db;
    ServeTouches(db, a, req, env);
    TouchedRowsAreTheActors(db, a, db', r, t);
  }

  lemma OtherReportsSame(before: map<Uuid, Report>, after: map<Uuid, Report>, r: Uuid, t: Uuid)
    requires SameReportsBut(before, after, r) && after[r].tenant != t && (r in before ==> before[r].tenant != t)
    ensures ViewReports(after, t) == ViewReports(before, t)
  {
  }

  lemma OtherItemsSame(before: map<Uuid, Item>, after: map<Uuid, Item>, r: Uuid, t: Uuid)
    requires SameItemsBut(before, after, r)
    requires forall k :: k in after && after[k].report == r ==> after[k].tenant != t
    requires forall k :: k in before && before[k].report == r ==> before[k].tenant != t
    ensures ViewItems(after, t) == ViewItems(before, t)
  {
  }

  lemma OtherAttachmentsSame(before: map<Uuid, Attachment>, after: map<Uuid, Attachment>, r: Uuid, t: Uuid)
    requires SameAttachmentsBut(before, after, r)
    requires forall k :: k in after && after[k].report == r ==> after[k].tenant != t
    requires forall k :: k in before && before[k].report == r ==> before[k].tenant != t
    ensures ViewAttachments(after, t) == ViewAttachments(before, t)
  {
  }

  lemma TouchedRowsAreTheActors(db: Db, a: Actor, db': Db, r: Uuid, t: Uuid)
    requires Inv(db) && Touches(db, a, db', r) && ReportOk(db', r) && t != a.tenant
    ensures View(db', t) == View(db, t)
  {
    OwnRows(db', r, a.tenant);
    if r in db.reports {
      assert ReportOk(db, r);
      OwnRows(db, r, a.tenant);
    }
    OtherReportsSame(db.reports, db'.reports, r, t);
    OtherItemsSame(db.items, db'.items, r, t);
    OtherAttachmentsSame(db.attachments, db'.attachments, r, t);
  }

  lemma OwnRows(db: Db, r: Uuid, t: Uuid)
    requires r in db.reports && ReportOk(db, r) && db.reports[r].tenant == t
    ensures forall k :: k in db.items && db.items[k].report == r ==> db.items[k].tenant == t
    ensures forall k :: k in db.attachments && db.attachments[k].report == r ==> db.attachments[k].tenant == t
  {
    forall k | k in db.attachments && db.attachments[k].report == r ensures db.attachments[k].tenant == t {
      assert AttachmentOk(db.items, r, t, k, db.attachments[k]);
    }
  }

  // ----- Whole runs -----

  /** The tables after an event; an event that cannot commit leaves them alone. */
  ghost function After(db: Db, e: Event): Db {
    match e
    case Provisioned(user, name, membership) =>
      db.(users := db.users[user := name], members := db.members[user := membership])
    case Handled(a, req, env, _, committed) =>
      if committed && Serve(db, a, req, env).Ok? then Serve(db, a, req, env).value.db else db
  }

  ghost function AfterAll(db: Db, es: seq<Event>): Db {
    if es == [] then db else After(AfterAll(db, es[..|es| - 1]), es[|es| - 1])
  }

  predicate OfTenant(e: Event, t: Uuid) {
    match e
    case Provisioned(_, _, membership) => membership.tenant == t
    case Handled(a, _, _, _, _) => a.tenant == t
  }

  /** The events of one tenant, in order. */
  function Only(es: seq<Event>, t: Uuid): seq<Event> {
    if es == [] then []
    else
      var rest := Only(es[..|es| - 1], t);
      if OfTenant(es[|es| - 1], t) then rest + [es[|es| - 1]] else rest
  }

  /** Events that can happen one after the other from these tables. */
  ghost predicate CanHappen(db: Db, es: seq<Event>) {
    es != [] ==>
      && CanHappen(db, es[..|es| - 1])
      && var now, e := AfterAll(db, es[..|es| - 1]), es[|es| - 1];
         Possible(now, e)
  }

  /** The event can happen now: a new user, or an authenticated actor with unused identifiers. */
  predicate Possible(now: Db, e: Event) {
    match e
    case Provisioned(user, _, _) => user !in now.users && user !in now.members
    case Handled(a, req, env, _, _) => Authenticated(now, a) && Fresh(now, env)
  }

  lemma {:induction false} AfterAllKeepsInv(db: Db, es: seq<Event>)
    requires Inv(db) && CanHappen(db, es)
    ensures Inv(AfterAll(db, es))
  {
    if es != [] {
      var now, e := AfterAll(db, es[..|es| - 1]), es[|es| - 1];
      AfterAllKeepsInv(db, es[..|es| - 1]);
      AfterKeepsInv(now, e);
    }
  }

  lemma AfterKeepsInv(db: Db, e: Event)
    requires Inv(db) && Possible(db, e)
    ensures Inv(After(db, e))
  {
    match e
    case Provisioned(user, name, membership) => ProvisionedKeepsInv(db, user, name, membership);
    case Handled(a, req, env, _, committed) =>
      if committed && Serve(db, a, req, env).Ok? { ServeKeepsInv(db, a, req, env); }
  }

  lemma ProvisionInView(db: Db, user: Uuid, name: string, membership: Membership)
    ensures var t := membership.tenant;
            View(db.(users := db.users[user := name], members := db.members[user := membership]), t)
              == View(db, t).(users := View(db, t).users[user := name],
                              members := View(db, t).members[user := membership])
  {
    var t := membership.tenant;
    var after := db.(users := db.users[user := name], members := db.members[user := membership]);
    assert View(after, t).users == View(db, t).users[user := name];
    assert View(after, t).members == View(db, t).members[user := membership];
  }

  lemma OwnEvent(db1: Db, db2: Db, e: Event, t: Uuid)
    requires OfTenant(e, t) && View(db1, t) == View(db2, t)
    ensures View(After(db1, e), t) == View(After(db2, e), t)
  {
    match e
    case Provisioned(user, name, membership) =>
      ProvisionInView(db1, user, name, membership);
      ProvisionInView(db2, user, name, membership);
    case Handled(a, req, env, _, _) => NonInterference(db1, db2, a, req, env);
  }

  lemma OtherEvent(db: Db, e: Event, t: Uuid)
    requires Inv(db) && !OfTenant(e, t)
    requires e.Provisioned? ==> e.user !in db.members
    requires e.Handled? ==> Authenticated(db, e.actor) && Fresh(db, e.env)
    ensures View(After(db, e), t) == View(db, t)
  {
    match e
    case Provisioned(user, name, membership) =>
      assert View(After(db, e), t).users == View(db, t).users;
      assert View(After(db, e), t).members == View(db, t).members;
    case Handled(a, req, env, _, committed) =>
      if committed && Serve(db, a, req, env).Ok? { OtherTenantsUntouched(db, a, req, env, t); }
  }

  // ----- The purged run can happen -----

  /** Every row of `small` has a row under the same identifier in `big`. */
  predicate Within(small: Db, big: Db) {
    && small.users.Keys <= big.users.Keys && small.members.Keys <= big.members.Keys
    && small.reports.Keys <= big.reports.Keys && small.items.Keys <= big.items.Keys
    && small.attachments.Keys <= big.attachments.Keys
  }

  lemma EventAddsRows(db: Db, e: Event)
    requires Inv(db) && Possible(db, e)
    ensures Within(db, After(db, e))
  {
    if e.Handled? && e.committed && Serve(db, e.actor, e.req, e.env).Ok? {
      ServeTouches(db, e.actor, e.req, e.env);
    }
  }

  /** The rows an event adds are its tenant's. */
  lemma AddedRowsAreOwn(db: Db, e: Event, t: Uuid)
    requires Inv(db) && Possible(db, e) && OfTenant(e, t) && e.Handled?
    ensures var after := After(db, e);
            && after.users == db.users && after.members == db.members
            && (forall k :: k in after.reports && k !in db.reports ==> after.reports[k].tenant == t)
            && (forall k :: k in after.items && k !in db.items ==> after.items[k].tenant == t)
            && (forall k :: k in after.attachments && k !in db.attachments ==> after.attachments[k].tenant == t)
  {
    if e.committed && Serve(db, e.actor, e.req, e.env).Ok? {
      ServeTouches(db, e.actor, e.req, e.env);
      OwnRows(After(db, e), Target(e.req, e.env), t);
    }
  }

  lemma OwnEventWithin(small: Db, big: Db, e: Event, t: Uuid)
    requires Inv(small) && Inv(big) && Possible(small, e) && Possible(big, e) && OfTenant(e, t)
    requires Within(small, big) && View(small, t) == View(big, t)
    ensures Within(After(small, e), After(big, e))
  {
    EventAddsRows(big, e);
    if e.Handled? {
      AddedRowsAreOwn(small, e, t);
      OwnEvent(small, big, e, t);
      SameViewSameRows(After(small, e), After(big, e), t);
    }
  }

  /** Rows of the tenant are in both tables that look the same to it. */
  lemma SameViewSameRows(after: Db, big: Db, t: Uuid)
    requires View(after, t) == View(big, t)
    ensures forall k :: k in after.reports && after.reports[k].tenant == t ==> k in big.reports
    ensures forall k :: k in after.items && after.items[k].tenant == t ==> k in big.items
    ensures forall k :: k in after.attachments && after.attachments[k].tenant == t ==> k in big.attachments
  {
    forall k | k in after.reports && after.reports[k].tenant == t ensures k in big.reports {
      assert k in View(after, t).reports;
    }
    forall k | k in after.items && after.items[k].tenant == t ensures k in big.items {
      assert k in View(after, t).items;
    }
    forall k | k in after.attachments && after.attachments[k].tenant == t ensures k in big.attachments {
      assert k in View(after, t).attachments;
    }
  }

  /** What is possible with everyone's rows there is possible with fewer. */
  lemma PossibleWithin(small: Db, big: Db, e: Event, t: Uuid)
    requires Possible(big, e) && OfTenant(e, t) && Within(small, big) && View(small, t) == View(big, t)
    ensures Possible(small, e)
  {
    if e.Handled? {
      assert e.actor.user in View(big, t).users && e.actor.user in View(big, t).members;
    }
  }

  /** The tenant's own events can happen without the others', on tables with no other identifiers in use. */
  lemma {:induction false} PurgedRunCanHappen(db: Db, es: seq<Event>, t: Uuid)
    requires Inv(db) && CanHappen(db, es)
    ensures CanHappen(db, Only(es, t)) && Within(AfterAll(db, Only(es, t)), AfterAll(db, es))
    ensures View(AfterAll(db, es), t) == View(AfterAll(db, Only(es, t)), t)
  {
    if es != [] {
      var before, e := es[..|es| - 1], es[|es| - 1];
      var mine, now := Only(before, t), AfterAll(db, before);
      PurgedRunCanHappen(db, before, t);
      AfterAllKeepsInv(db, before);
      AfterAllKeepsInv(db, mine);
      if OfTenant(e, t) {
        assert (mine + [e])[..|mine|] == mine;
        PossibleWithin(AfterAll(db, mine), now, e, t);
        OwnEventWithin(AfterAll(db, mine), now, e, t);
        OwnEvent(now, AfterAll(db, mine), e, t);
      } else {
        EventAddsRows(now, e);
        OtherEvent(now, e, t);
      }
    }
  }

  /**
   Seen from tenant `t`, any run of all tenants' events is the run of the tenant's own events with
   everyone else's removed, which is itself a run that can happen.
   */
  lemma RunSeenByTenant(db: Db, es: seq<Event>, t: Uuid)
    requires Inv(db) && CanHappen(db, es)
    ensures CanHappen(db, Only(es, t))
    ensures View(AfterAll(db, es), t) == View(AfterAll(db, Only(es, t)), t)
  {
    PurgedRunCanHappen(db, es, t);
  }

  /** So a tenant's request is answered as if the other tenants did not exist. */
  lemma AnswerSeenByTenant(db: Db, es: seq<Event>, a: Actor, req: Request, env: Env)
    requires Inv(db) && CanHappen(db, es)
    ensures var full := Serve(AfterAll(db, es), a, req, env);
            var alone := Serve(AfterAll(db, Only(es, a.tenant)), a, req, env);
            if full.Err? then alone == full else alone.Ok? && alone.value.response == full.value.response
  {
    RunSeenByTenant(db, es, a.tenant);
    NonInterference(AfterAll(db, es), AfterAll(db, Only(es, a.tenant)), a, req, env);
  }

  // ----- Reads -----

  lemma FilteredInView(db: Db, t: Uuid, f: Listings.Filter)
    ensures Listings.Filtered(View(db, t).reports, t, f) == Listings.Filtered(db.reports, t, f)
  {
  }

  lemma PendingInView(db: Db, t: Uuid)
    requires Inv(db)
    ensures Listings.Pending(View(db, t), t) == Listings.Pending(db, t)
  {
    forall k | k in db.reports ensures db.reports[k].tenant == t ==> db.reports[k].owner in View(db, t).users {
      assert ReportOk(db, k);
    }
  }

  lemma ProcessedInView(db: Db, a: Actor)
    ensures Listings.Processed(View(db, a.tenant), a) == Listings.Processed(db, a)
  {
  }

  lemma PaidInView(db: Db, t: Uuid, today: Date, months: int)
    ensures Dashboard.PaidSince(View(db, t), t, today, months) == Dashboard.PaidSince(db, t, today, months)
  {
  }

  lemma OpenedInView(db: Db, a: Actor, r: Uuid)
    ensures Listings.GetReport(View(db, a.tenant), a, r) == Listings.GetReport(db, a, r)
  {
    QueriesInView(db, a.tenant, r);
  }

  lemma RoleListsInView(db: Db, a: Actor)
    requires Inv(db)
    ensures Listings.OnLists(View(db, a.tenant), a) == Listings.OnLists(db, a)
  {
    FilteredInView(db, a.tenant, Listings.NO_FILTER);
    FilteredInView(db, a.tenant, Listings.NO_FILTER.(user := Some(a.user)));
    PendingInView(db, a.tenant);
    ProcessedInView(db, a);
  }

  lemma FiguresInView(db: Db, a: Actor, f: Listings.Filter, user: Option<Uuid>, today: Date, months: int)
    requires Inv(db)
    ensures var v := View(db, a.tenant);
            && Listings.AllReports(v.reports, a.tenant, f) == Listings.AllReports(db.reports, a.tenant, f)
            && Dashboard.CountsByStatus(v, a.tenant, user) == Dashboard.CountsByStatus(db, a.tenant, user)
            && Dashboard.MonthlySummary(v, a.tenant, today, months)
               == Dashboard.MonthlySummary(db, a.tenant, today, months)
  {
    FilteredInView(db, a.tenant, f);
    FilteredInView(db, a.tenant, Dashboard.OfUser(user));
    PaidInView(db, a.tenant, today, months);
  }

  /** In every reachable state what a person opens, lists and counts depends on the tenant's own rows alone. */
  lemma ReadsSeenByTenant(ws: seq<World>, i: nat, a: Actor, r: Uuid, f: Listings.Filter, user: Option<Uuid>,
                          today: Date, months: int)
    requires IsRun(ws) && i < |ws|
    ensures var db, v := ws[i].db, View(ws[i].db, a.tenant);
            && Listings.GetReport(v, a, r) == Listings.GetReport(db, a, r)
            && Listings.AllReports(v.reports, a.tenant, f) == Listings.AllReports(db.reports, a.tenant, f)
            && Listings.OnLists(v, a) == Listings.OnLists(db, a)
            && Dashboard.CountsByStatus(v, a.tenant, user) == Dashboard.CountsByStatus(db, a.tenant, user)
            && Dashboard.MonthlySummary(v, a.tenant, today, months)
               == Dashboard.MonthlySummary(db, a.tenant, today, months)
  {
    Reachable(ws, i);
    RoleListsInView(ws[i].db, a);
    OpenedInView(ws[i].db, a, r);
    FiguresInView(ws[i].db, a, f, user, today, months);
  }
}
