/**
 Exactly which requests are served, and with what error the others are refused: in terms of the rows a caller
 could look at beforehand.
 */
module Guards {
  import opened Prelude
  import opened Domain
  import opened Tables
  import opened Requests
  import opened Invariant
  import opened Runs
  import Text

  // ----- What the guards look at -----

  /** The report is there for the actor: in its tenant, and not deleted. */
  predicate Found(db: Db, a: Actor, r: Uuid) {
    r in db.reports && db.reports[r].tenant == a.tenant && db.reports[r].deletedAt == None
  }

  predicate FoundItem(db: Db, a: Actor, r: Uuid, i: Uuid) {
    i in db.items && db.items[i].tenant == a.tenant && db.items[i].report == r && db.items[i].deletedAt == None
  }

  predicate FoundAttachment(db: Db, a: Actor, r: Uuid, i: Uuid, att: Uuid) {
    && att in db.attachments && db.attachments[att].tenant == a.tenant && db.attachments[att].report == r
    && db.attachments[att].item == i && db.attachments[att].deletedAt == None
  }

  /** An active category, of the tenant or of everybody. */
  predicate Usable(db: Db, t: Uuid, category: Uuid) {
    && category in db.categories && db.categories[category].active
    && (db.categories[category].tenant == None || db.categories[category].tenant == Some(t))
  }

  predicate IsApprover(db: Db, t: Uuid, user: Uuid) {
    user in db.members && db.members[user].tenant == t && db.members[user].role == Approver
  }

  /** The first bytes that name a type. */
  predicate Signed(content: seq<Byte>, mime: Mime) {
    match mime
    case Jpeg => |content| >= 3 && content[..3] == [0xFF, 0xD8, 0xFF]
    case Png => |content| >= 8 && content[..8] == [0x89, 0x50, 0x4E, 0x47, 0x0D, 0x0A, 0x1A, 0x0A]
    case Pdf => |content| >= 4 && content[..4] == [0x25, 0x50, 0x44, 0x46]
    case Other(_) => false
  }

  /** The error of the guards every edit of a report's contents begins with, if one of them fails. */
  function NotEditable(db: Db, a: Actor, r: Uuid): Option<Error> {
    if !Found(db, a, r) then Some(ResourceNotFound)
    else if db.reports[r].owner != a.user then Some(Forbidden)
    else if db.reports[r].status != Draft then Some(ReportNotEditable)
    else None
  }

  /** Served if there is no error to give, and refused with that error otherwise. */
  predicate ServedUnless(res: Result<Effect>, error: Option<Error>) {
    if error == None then res.Ok? else res == Err(error.value)
  }

  // ----- Reports -----

  /** A new report needs a possible period, and a reference that is the actor's own rejected report. */
  lemma CreationServed(db: Db, a: Actor, title: string, start: Date, end: Date, reference: Option<Uuid>, env: Env)
    ensures ServedUnless(Serve(db, a, CreateReport(title, start, end, reference), env),
                         if reference.Some? && !Found(db, a, reference.value) then Some(ResourceNotFound)
                         else if reference.Some? && db.reports[reference.value].owner != a.user then Some(Forbidden)
                         else if reference.Some? && db.reports[reference.value].status != Rejected
                         then Some(InvalidPeriod)
                         else if end < start then Some(Internal)
                         else None)
  {
  }

  lemma UpdateServed(db: Db, a: Actor, r: Uuid, title: string, start: Date, end: Date, version: Time, env: Env)
    ensures ServedUnless(Serve(db, a, UpdateReport(r, title, start, end, version), env),
                         if NotEditable(db, a, r) != None then NotEditable(db, a, r)
                         else if db.reports[r].updatedAt != version then Some(Conflict)
                         else if end < start then Some(Internal)
                         else None)
  {
  }

  lemma DeletionServed(db: Db, a: Actor, r: Uuid, env: Env)
    ensures ServedUnless(Serve(db, a, DeleteReport(r), env),
                         if !Found(db, a, r) then Some(ResourceNotFound)
                         else if db.reports[r].owner != a.user then Some(Forbidden)
                         else if db.reports[r].status != Draft then Some(ReportNotDeletable)
                         else None)
  {
  }

  /**
   A submission is served exactly if the report is found, the actor's own, at the given version, a draft, has
   a live item, and its tenant has an approver; each failing guard has its own error, the first one wins.
   */
  lemma SubmissionServed(db: Db, a: Actor, r: Uuid, version: Time, env: Env)
    ensures ServedUnless(Serve(db, a, SubmitReport(r, version), env),
                         if !Found(db, a, r) then Some(ResourceNotFound)
                         else if db.reports[r].owner != a.user then Some(Forbidden)
                         else if db.reports[r].updatedAt != version then Some(Conflict)
                         else if db.reports[r].status != Draft then Some(InvalidStateTransition)
                         else if !(exists i :: FoundItem(db, a, r, i)) then Some(EmptyReportSubmission)
                         else if !(exists u :: IsApprover(db, a.tenant, u)) then Some(NoApproverInTenant)
                         else None)
  {
    var items := LiveItems(db.items, a.tenant, r);
    if i :| FoundItem(db, a, r, i) {
      assert i in items;
    }
    if |items| > 0 {
      var i :| i in items;
      assert FoundItem(db, a, r, i);
    }
    if u :| IsApprover(db, a.tenant, u) {
      assert db.members[u] == Membership(a.tenant, Approver);
    }
    if HasApprover(db, a.tenant) {
      var u :| u in db.members && db.members[u] == Membership(a.tenant, Approver);
      assert IsApprover(db, a.tenant, u);
    }
  }

  lemma ApprovalServed(db: Db, a: Actor, r: Uuid, comment: Option<string>, version: Time, env: Env)
    ensures ServedUnless(Serve(db, a, ApproveReport(r, comment, version), env),
                         if a.role != Approver then Some(Forbidden)
                         else if !Found(db, a, r) then Some(ResourceNotFound)
                         else if db.reports[r].owner == a.user then Some(SelfApprovalNotAllowed)
                         else if db.reports[r].updatedAt != version then Some(Conflict)
                         else if db.reports[r].status != Submitted then Some(InvalidStateTransition)
                         else None)
  {
  }

  /** A rejection also needs a reason that is not blank. */
  lemma RejectionServed(db: Db, a: Actor, r: Uuid, reason: string, version: Time, env: Env)
    ensures ServedUnless(Serve(db, a, RejectReport(r, reason, version), env),
                         if a.role != Approver then Some(Forbidden)
                         else if !Found(db, a, r) then Some(ResourceNotFound)
                         else if db.reports[r].owner == a.user then Some(SelfApprovalNotAllowed)
                         else if db.reports[r].updatedAt != version then Some(Conflict)
                         else if db.reports[r].status != Submitted then Some(InvalidStateTransition)
                         else if forall c :: c in reason ==> Text.IsSpace(c) then Some(MissingRejectionReason)
                         else None)
  {
    Text.BlankIffAllSpace(reason);
  }

  lemma PaymentServed(db: Db, a: Actor, r: Uuid, version: Time, env: Env)
    ensures ServedUnless(Serve(db, a, PayReport(r, version), env),
                         if a.role != Accounting then Some(Forbidden)
                         else if !Found(db, a, r) then Some(ResourceNotFound)
                         else if db.reports[r].owner == a.user then Some(SelfPaymentNotAllowed)
                         else if db.reports[r].updatedAt != version then Some(Conflict)
                         else if db.reports[r].status != Approved then Some(InvalidStateTransition)
                         else None)
  {
  }

  // ----- Items -----

  lemma SumWithItem(items: map<Uuid, Item>, t: Uuid, r: Uuid, i: Uuid, item: Item)
    requires ItemOf(item, t, r) && (i in items ==> ItemOf(items[i], t, r))
    ensures LiveTotal(items[i := item], t, r)
         == LiveTotal(items, t, r) - (if i in items then items[i].amount else 0) + item.amount
  {
    var before, after := LiveItems(items, t, r), LiveItems(items[i := item], t, r);
    assert after == before[i := item];
    SumRemove(AmountColumn(after), i);
    assert AmountColumn(after) - {i} == AmountColumn(before) - {i};
    if i in items {
      SumRemove(AmountColumn(before), i);
    } else {
      assert AmountColumn(before) - {i} == AmountColumn(before);
    }
  }

  /** The stored amount is positive and fits, on top of the rest of the report. */
  predicate AmountFits(amount: int, rest: int) {
    var low := amount % 0x1_0000_0000;
    0 < low <= 0x7FFF_FFFF && rest + low <= 0x7FFF_FFFF
  }

  lemma StoringServed(db: Db, a: Actor, r: Uuid, i: Uuid, item: Item, amount: int, stamp: Time)
    requires Inv(db) && Found(db, a, r) && db.reports[r].status == Draft
    requires ItemOf(item, a.tenant, r) && item.amount == ToInt32(amount) && (i in db.items ==> FoundItem(db, a, r, i))
    ensures var rest := db.reports[r].total - (if i in db.items then db.items[i].amount else 0);
            ServedUnless(StoreItem(db, a.tenant, i, item, stamp),
                         if AmountFits(amount, rest) then None else Some(Internal))
  {
    SumWithItem(db.items, a.tenant, r, i, item);
    RestNonNegative(db, a, r, i);
    LowBits(amount);
  }

  /** The low 32 bits, where they are a positive number. */
  lemma LowBits(amount: int)
    ensures ToInt32(amount) > 0 <==> 0 < amount % 0x1_0000_0000 <= 0x7FFF_FFFF
    ensures ToInt32(amount) > 0 ==> ToInt32(amount) == amount % 0x1_0000_0000
  {
    var low := amount % 0x1_0000_0000;
    assert amount == amount / 0x1_0000_0000 * 0x1_0000_0000 + low;
    if low < 0x8000_0000 {
      assert (amount + 0x8000_0000) % 0x1_0000_0000 == low + 0x8000_0000;
    } else {
      assert (amount + 0x8000_0000) % 0x1_0000_0000 == low - 0x8000_0000;
    }
  }

  lemma RestNonNegative(db: Db, a: Actor, r: Uuid, i: Uuid)
    requires Inv(db) && Found(db, a, r) && (i in db.items ==> FoundItem(db, a, r, i))
    ensures db.reports[r].total == LiveTotal(db.items, a.tenant, r)
    ensures db.reports[r].total - (if i in db.items then db.items[i].amount else 0) >= 0
  {
    assert ReportOk(db, r);
    var column := AmountColumn(LiveItems(db.items, a.tenant, r));
    if i in db.items {
      SumRemove(column, i);
      SumNonNegative(column - {i});
    }
  }

  /** A new item needs a usable category and an amount that is stored as positive and leaves the total in range. */
  lemma ItemCreationServed(db: Db, a: Actor, r: Uuid, date: Date, amount: int, category: Uuid, description: string,
                           env: Env)
    requires Inv(db) && Fresh(db, env)
    ensures ServedUnless(Serve(db, a, CreateItem(r, date, amount, category, description), env),
                         if NotEditable(db, a, r) != None then NotEditable(db, a, r)
                         else if amount <= 0 then Some(InvalidAmount)
                         else if !Usable(db, a.tenant, category) then Some(ResourceNotFound)
                         else if !AmountFits(amount, db.reports[r].total) then Some(Internal)
                         else None)
  {
    if NotEditable(db, a, r) == None && amount > 0 && Usable(db, a.tenant, category) {
      var item := Item(r, a.tenant, date, ToInt32(amount), category, description, env.stamp, env.stamp, None);
      StoringServed(db, a, r, env.newId, item, amount, env.stamp);
    }
  }

  lemma ItemUpdateServed(db: Db, a: Actor, r: Uuid, i: Uuid, date: Date, amount: int, category: Uuid,
                         description: string, version: Time, env: Env)
    requires Inv(db)
    ensures ServedUnless(Serve(db, a, Request.UpdateItem(r, i, date, amount, category, description, version), env),
                         if NotEditable(db, a, r) != None then NotEditable(db, a, r)
                         else if !FoundItem(db, a, r, i) then Some(ResourceNotFound)
                         else if amount <= 0 then Some(InvalidAmount)
                         else if !Usable(db, a.tenant, category) then Some(ResourceNotFound)
                         else if db.items[i].updatedAt != version then Some(Conflict)
                         else if !AmountFits(amount, db.reports[r].total - db.items[i].amount) then Some(Internal)
                         else None)
  {
    if NotEditable(db, a, r) == None && FoundItem(db, a, r, i) {
      var item := db.items[i].(date := date, amount := ToInt32(amount), category := category,
                               description := description, updatedAt := env.stamp);
      StoringServed(db, a, r, i, item, amount, env.stamp);
    }
  }

  lemma ItemDeletionServed(db: Db, a: Actor, r: Uuid, i: Uuid, env: Env)
    requires Inv(db)
    ensures ServedUnless(Serve(db, a, DeleteItem(r, i), env),
                         if NotEditable(db, a, r) != None then NotEditable(db, a, r)
                         else if !FoundItem(db, a, r, i) then Some(ResourceNotFound)
                         else None)
  {
    if NotEditable(db, a, r) == None {
      ErasureServed(db, a, r, i, env);
    }
  }

  lemma ErasureServed(db: Db, a: Actor, r: Uuid, i: Uuid, env: Env)
    requires Inv(db) && NotEditable(db, a, r) == None
    ensures ServeDeleteItem(db, a, r, i, env).Ok? <==> FindItem(db, a.tenant, r, i).Ok?
  {
    ErasedTotalFits(db, a, r, i, env.stamp);
    RetotalServed(db.(items := EraseItem(db.items, a.tenant, r, i, env.stamp),
                      attachments := EraseAttachmentsOfItem(db.attachments, a.tenant, r, i, env.stamp)),
                  a.tenant, r, env.stamp);
  }

  lemma RetotalServed(db: Db, t: Uuid, r: Uuid, stamp: Time)
    requires 0 <= LiveTotal(db.items, t, r) <= MAX_INT32
    ensures Retotal(db, t, r, stamp).Ok?
  {
  }

  lemma ErasedTotalFits(db: Db, a: Actor, r: Uuid, i: Uuid, stamp: Time)
    requires Inv(db) && Found(db, a, r)
    ensures 0 <= LiveTotal(EraseItem(db.items, a.tenant, r, i, stamp), a.tenant, r) <= MAX_INT32
  {
    var before := LiveItems(db.items, a.tenant, r);
    ErasedFromLive(db.items, a.tenant, r, i, stamp);
    PartOfTotal(db, a, r, before - {i});
  }

  lemma ErasedFromLive(items: map<Uuid, Item>, t: Uuid, r: Uuid, i: Uuid, stamp: Time)
    ensures LiveItems(EraseItem(items, t, r, i, stamp), t, r) == LiveItems(items, t, r) - {i}
  {
  }

  lemma PartOfTotal(db: Db, a: Actor, r: Uuid, part: map<Uuid, Item>)
    requires Inv(db) && Found(db, a, r)
    requires var live := LiveItems(db.items, a.tenant, r); forall k :: k in part ==> k in live && part[k] == live[k]
    ensures 0 <= Sum(AmountColumn(part)) <= MAX_INT32
  {
    assert ReportOk(db, r);
    SumNonNegative(AmountColumn(part));
    SumSubset(AmountColumn(part), AmountColumn(LiveItems(db.items, a.tenant, r)));
  }

  // ----- Attachments -----

  lemma SignaturesDiffer(content: seq<Byte>, m: Mime)
    ensures Signed(content, m) <==> Matches(content, m)
    ensures forall n :: Signed(content, m) && Signed(content, n) ==> m == n
  {
    if |content| >= 3 {
      assert content[..3] == [content[0], content[1], content[2]];
    }
    if |content| >= 4 {
      assert content[..4] == [content[0], content[1], content[2], content[3]];
    }
    if |content| >= 8 {
      assert content[..8][0] == content[0];
    }
  }

  /** A file of one of three types needs that type's first bytes and at most 5 MB, under a live item of an own draft. */
  lemma UploadServed(db: Db, a: Actor, r: Uuid, i: Uuid, fileName: string, mime: Mime, content: seq<Byte>, env: Env)
    requires Honest(env.sniffed, content)
    ensures ServedUnless(Serve(db, a, Request.UploadAttachment(r, i, fileName, mime, content), env),
                         if NotEditable(db, a, r) != None then NotEditable(db, a, r)
                         else if !FoundItem(db, a, r, i) then Some(ResourceNotFound)
                         else if |content| > 5_242_880 then Some(FileTooLarge)
                         else if !Signed(content, mime) then Some(InvalidFileType)
                         else None)
  {
    SignaturesDiffer(content, mime);
    SignaturesDiffer(content, Jpeg);
    SignaturesDiffer(content, Png);
    SignaturesDiffer(content, Pdf);
  }

  lemma AttachmentDeletionServed(db: Db, a: Actor, r: Uuid, i: Uuid, att: Uuid, env: Env)
    ensures ServedUnless(Serve(db, a, Request.DeleteAttachment(r, i, att), env),
                         if NotEditable(db, a, r) != None then NotEditable(db, a, r)
                         else if !FoundAttachment(db, a, r, i, att) then Some(ResourceNotFound)
                         else None)
  {
  }
}
