/** What a request leaves behind for the next one: undoing, and moved versions. */
module RoundTrips {
  import opened Prelude
  import opened Domain
  import opened Tables
  import opened Requests
  import opened Invariant

  // ----- Undoing -----

  lemma ErasedAgain(items: map<Uuid, Item>, t: Uuid, r: Uuid, i: Uuid, item: Item, stamp: Time)
    requires i !in items && ItemOf(item, t, r)
    ensures i in LiveItems(items[i := item], t, r)
    ensures LiveItems(EraseItem(items[i := item], t, r, i, stamp), t, r) == LiveItems(items, t, r)
  {
  }

  /** An item under a new identifier has no attachments to lose. */
  lemma NoAttachmentsYet(items: map<Uuid, Item>, atts: map<Uuid, Attachment>, t: Uuid, r: Uuid, i: Uuid, stamp: Time)
    requires AttachmentsOk(items, atts, r, t) && i !in items
    ensures EraseAttachmentsOfItem(atts, t, r, i, stamp) == atts
  {
    forall k | k in atts && atts[k].report == r ensures atts[k].item != i {
      assert AttachmentOk(items, r, t, k, atts[k]);
    }
  }

  /** Deleting an item that was stored under an editable report on top of `db`. */
  lemma DeleteStoredItem(db: Db, a: Actor, i: Uuid, item: Item, created: Db, total: int, stamp: Time, env': Env)
    requires Inv(db) && i !in db.items && Editable(db, a, item.report).Ok? && ItemOf(item, a.tenant, item.report)
    requires var r := item.report;
             created == db.(items := db.items[i := item],
                            reports := db.reports[r := db.reports[r].(total := total, updatedAt := stamp)])
    ensures var r, res := item.report, ServeDeleteItem(created, a, item.report, i, env');
            && res.Ok?
            && LiveItems(res.value.db.items, a.tenant, r) == LiveItems(db.items, a.tenant, r)
            && res.value.db.attachments == db.attachments
            && res.value.db.reports == db.reports[r := db.reports[r].(updatedAt := env'.stamp)]
  {
    var r, t, was := item.report, a.tenant, db.reports[item.report].total;
    assert TotalOk(db.items, r, t, was) by { assert ReportOk(db, r); }
    assert EraseAttachmentsOfItem(db.attachments, t, r, i, env'.stamp) == db.attachments by {
      assert ReportOk(db, r);
      NoAttachmentsYet(db.items, db.attachments, t, r, i, env'.stamp);
    }
    ErasedAgain(db.items, t, r, i, item, env'.stamp);
    var erased := created.(items := EraseItem(created.items, t, r, i, env'.stamp));
    RetotalTo(erased, t, r, env'.stamp, was);
    assert created.reports[r := created.reports[r].(total := was, updatedAt := env'.stamp)]
        == db.reports[r := db.reports[r].(updatedAt := env'.stamp)];
  }

  lemma RetotalTo(db: Db, t: Uuid, r: Uuid, stamp: Time, total: int)
    requires r in db.reports && db.reports[r].tenant == t && LiveTotal(db.items, t, r) == total
    requires 0 <= total <= MAX_INT32
    ensures Retotal(db, t, r, stamp)
         == Ok(db.(reports := db.reports[r := db.reports[r].(total := total, updatedAt := stamp)]))
  {
  }

  /**
   Deleting the item just created always succeeds and puts the report back as it was: the same live items,
   attachments and total, under a new version.
   */
  lemma DeleteUndoesCreate(db: Db, a: Actor, r: Uuid, date: Date, amount: int, category: Uuid, description: string,
                           env: Env, env': Env)
    requires Inv(db) && env.newId !in db.items
    requires ServeCreateItem(db, a, r, date, amount, category, description, env).Ok?
    ensures var created := ServeCreateItem(db, a, r, date, amount, category, description, env).value.db;
            var res := ServeDeleteItem(created, a, r, env.newId, env');
            && res.Ok?
            && LiveItems(res.value.db.items, a.tenant, r) == LiveItems(db.items, a.tenant, r)
            && res.value.db.attachments == db.attachments
            && res.value.db.reports == db.reports[r := db.reports[r].(updatedAt := env'.stamp)]
  {
    var item := Item(r, a.tenant, date, ToInt32(amount), category, description, env.stamp, env.stamp, None);
    var created := ServeCreateItem(db, a, r, date, amount, category, description, env).value.db;
    DeleteStoredItem(db, a, env.newId, item, created, created.reports[r].total, env.stamp, env');
  }

  lemma AttachmentErasedAgain(atts: map<Uuid, Attachment>, t: Uuid, r: Uuid, i: Uuid, id: Uuid, att: Attachment,
                              stamp: Time)
    requires id !in atts && att.item == i && AttachmentOf(att, t, r)
    ensures LiveAttachments(EraseAttachment(atts[id := att], t, r, i, id, stamp), t, r) == LiveAttachments(atts, t, r)
  {
  }

  /** Deleting the attachment just uploaded succeeds and leaves no trace among live rows; the version never moved. */
  lemma DeleteUndoesUpload(db: Db, a: Actor, r: Uuid, i: Uuid, fileName: string, mime: Mime, content: seq<Byte>,
                           env: Env, env': Env)
    requires env.newId !in db.attachments
    requires ServeUploadAttachment(db, a, r, i, fileName, mime, content, env).Ok?
    ensures var uploaded := ServeUploadAttachment(db, a, r, i, fileName, mime, content, env).value.db;
            var res := ServeDeleteAttachment(uploaded, a, r, i, env.newId, env');
            && res.Ok?
            && LiveAttachments(res.value.db.attachments, a.tenant, r) == LiveAttachments(db.attachments, a.tenant, r)
            && res.value.db.items == db.items && res.value.db.reports == db.reports
  {
    var att := ServeUploadAttachment(db, a, r, i, fileName, mime, content, env).value.response.attachment;
    AttachmentErasedAgain(db.attachments, a.tenant, r, i, env.newId, att, env'.stamp);
  }

  // ----- Versions -----

  predicate ConcernsAttachments(req: Request) {
    req.UploadAttachment? || req.DeleteAttachment?
  }

  /** The version of the report that a request says it was made from. */
  function ReportVersion(req: Request): Option<Time> {
    match req
    case UpdateReport(_, _, _, _, version) => Some(version)
    case SubmitReport(_, version) => Some(version)
    case ApproveReport(_, _, version) => Some(version)
    case RejectReport(_, _, version) => Some(version)
    case PayReport(_, version) => Some(version)
    case _ => None
  }

  /** Every committed request stamps its report, except those on attachments, which leave the row alone. */
  lemma CommittedRequestsStamp(db: Db, a: Actor, req: Request, env: Env)
    requires Serve(db, a, req, env).Ok?
    ensures var db' := Serve(db, a, req, env).value.db;
            if ConcernsAttachments(req) then db'.reports == db.reports
            else Target(req, env) in db'.reports && db'.reports[Target(req, env)].updatedAt == env.stamp
  {
  }

  lemma OnlyCurrentVersionsCommit(db: Db, a: Actor, req: Request, env: Env)
    requires Serve(db, a, req, env).Ok? && ReportVersion(req).Some?
    ensures req.report in db.reports && ReportVersion(req) == Some(db.reports[req.report].updatedAt)
  {
  }

  /**
   Once any request on a report's row or items has committed, every request made from the version before it
   is refused, whoever makes it.
   */
  lemma OldVersionsAreRefused(db: Db, a: Actor, req: Request, env: Env, a': Actor, req': Request, env': Env)
    requires Serve(db, a, req, env).Ok? && !req.CreateReport? && !ConcernsAttachments(req)
    requires req.report in db.reports && env.stamp != db.reports[req.report].updatedAt
    requires ReportVersion(req') == Some(db.reports[req.report].updatedAt) && req'.report == req.report
    ensures Serve(Serve(db, a, req, env).value.db, a', req', env').Err?
  {
    var db' := Serve(db, a, req, env).value.db;
    CommittedRequestsStamp(db, a, req, env);
    if Serve(db', a', req', env').Ok? { OnlyCurrentVersionsCommit(db', a', req', env'); }
  }
}
