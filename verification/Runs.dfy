/**
 Runs of the whole store: any number of requests by any actors, each committed or rolled back, starting
 from empty tables. Memberships are provisioned by an operator and never changed afterwards.
 */
module Runs {
  import opened Prelude
  import opened Domain
  import opened Tables
  import opened Requests
  import opened Invariant

  /** The tables and the object storage, which no rollback touches. */
  datatype World = World(db: Db, objects: map<Key, seq<Byte>>)

  datatype Event =
    | Provisioned(user: Uuid, name: string, membership: Membership)
    | Handled(actor: Actor, req: Request, env: Env, uploaded: bool, committed: bool)

  predicate Init(w: World) {
    && w.db.users == map[] && w.db.members == map[]
    && w.db.reports == map[] && w.db.items == map[] && w.db.attachments == map[]
    && w.objects == map[]
  }

  /** What the environment guarantees of a request's generated identifiers and detected file type. */
  predicate EnvOk(w: World, req: Request, env: Env) {
    && Fresh(w.db, env)
    && (forall key :: key in w.objects ==> key.attachment != env.newId)
    && (req.UploadAttachment? ==> Honest(env.sniffed, req.content))
  }

  ghost predicate Step(w: World, e: Event, w': World) {
    match e
    case Provisioned(user, name, membership) =>
      && user !in w.db.users && user !in w.db.members
      && w' == w.(db := w.db.(users := w.db.users[user := name], members := w.db.members[user := membership]))
    case Handled(a, req, env, uploaded, committed) =>
      && Authenticated(w.db, a) && EnvOk(w, req, env)
      && w'.objects == w.objects + (if uploaded then StoredObject(w.db, a, req, env) else map[])
      && if committed then uploaded && Serve(w.db, a, req, env).Ok? && w'.db == Serve(w.db, a, req, env).value.db
         else w'.db == w.db
  }

  ghost predicate Next(w: World, w': World) {
    exists e :: Step(w, e, w')
  }

  /** Some event leads from the i-th state of the run to the next one. */
  ghost predicate StepsAt(ws: seq<World>, i: nat)
    requires i + 1 < |ws|
  {
    Next(ws[i], ws[i + 1])
  }

  ghost predicate IsRun(ws: seq<World>) {
    && |ws| > 0 && Init(ws[0])
    && forall i: nat :: i + 1 < |ws| ==> StepsAt(ws, i)
  }

  // ----- The invariant of worlds -----

  /** A chain of resubmissions, each report referring to the next. */
  predicate IsChain(reports: map<Uuid, Report>, p: seq<Uuid>) {
    && (forall i :: 0 <= i < |p| ==> p[i] in reports)
    && (forall i :: 0 <= i < |p| - 1 ==> reports[p[i]].reference == Some(p[i + 1]))
  }

  ghost predicate Acyclic(reports: map<Uuid, Report>) {
    forall p :: IsChain(reports, p) && |p| >= 2 ==> p[0] != p[|p| - 1]
  }

  predicate FileStored(objects: map<Key, seq<Byte>>, att: Attachment) {
    att.key in objects && |objects[att.key]| == att.fileSize && Matches(objects[att.key], att.mime)
  }

  /** Every attachment row, deleted or not, has its file in storage: right size, right type. */
  predicate StorageOk(w: World) {
    forall k :: k in w.db.attachments ==> FileStored(w.objects, w.db.attachments[k])
  }

  ghost predicate WorldOk(w: World) {
    Inv(w.db) && Acyclic(w.db.reports) && StorageOk(w)
  }

  // ----- One step -----

  lemma ProvisionKeepsInv(w: World, e: Event, w': World)
    requires e.Provisioned? && Step(w, e, w') && WorldOk(w)
    ensures WorldOk(w')
  {
    ProvisionedKeepsInv(w.db, e.user, e.name, e.membership);
  }

  /** A new report is referred to by nobody, so it closes no cycle. */
  lemma NewReportKeepsAcyclic(reports: map<Uuid, Report>, reports': map<Uuid, Report>, r: Uuid)
    requires Acyclic(reports) && r !in reports && SameReportsBut(reports, reports', r)
    requires forall q :: q in reports' && reports'[q].reference.Some? ==> reports'[q].reference.value != r
    ensures Acyclic(reports')
  {
    forall p | IsChain(reports', p) && |p| >= 2 ensures p[0] != p[|p| - 1] {
      forall i | 0 < i < |p| ensures p[i] != r {
        assert reports'[p[i - 1]].reference == Some(p[i - 1 + 1]);
      }
      if p[0] != r { assert IsChain(reports, p); }
    }
  }

  lemma SameReferencesKeepAcyclic(reports: map<Uuid, Report>, reports': map<Uuid, Report>)
    requires Acyclic(reports) && reports'.Keys == reports.Keys
    requires forall q :: q in reports' ==> reports'[q].reference == reports[q].reference
    ensures Acyclic(reports')
  {
    forall p | IsChain(reports', p) && |p| >= 2 ensures p[0] != p[|p| - 1] {
      assert IsChain(reports, p);
    }
  }

  /** References never change. */
  lemma TouchKeepsReferences(db: Db, a: Actor, db': Db, r: Uuid)
    requires Touches(db, a, db', r) && r in db.reports
    ensures db'.reports.Keys == db.reports.Keys
    ensures forall q :: q in db'.reports ==> db'.reports[q].reference == db.reports[q].reference
  {
  }

  lemma TouchKeepsAcyclic(db: Db, a: Actor, db': Db, r: Uuid)
    requires Touches(db, a, db', r) && Inv(db')
    requires Acyclic(db.reports)
    ensures Acyclic(db'.reports)
  {
    if r in db.reports {
      assert db'.reports.Keys == db.reports.Keys
             && forall q :: q in db'.reports ==> db'.reports[q].reference == db.reports[q].reference by {
        TouchKeepsReferences(db, a, db', r);
      }
      SameReferencesKeepAcyclic(db.reports, db'.reports);
    } else {
      NobodyRefersToNew(db', r);
      NewReportKeepsAcyclic(db.reports, db'.reports, r);
    }
  }

  /** Only rejected reports are referred to, and a new one is a draft. */
  lemma NobodyRefersToNew(db: Db, r: Uuid)
    requires Inv(db) && r in db.reports && db.reports[r].status == Draft
    ensures forall q :: q in db.reports && db.reports[q].reference.Some? ==> db.reports[q].reference.value != r
  {
    forall q | q in db.reports && db.reports[q].reference.Some? ensures db.reports[q].reference.value != r {
      assert ReportOk(db, q);
    }
  }

  /** The only request that adds attachment rows is an upload, and it stores the file first. */
  lemma AttachmentRowsAfter(db: Db, a: Actor, req: Request, env: Env, k: Uuid)
    requires Fresh(db, env) && Serve(db, a, req, env).Ok?
    requires k in Serve(db, a, req, env).value.db.attachments
    ensures var att := Serve(db, a, req, env).value.db.attachments[k];
            || (k in db.attachments && att == db.attachments[k].(deletedAt := att.deletedAt))
            || (req.UploadAttachment? && k == env.newId
                && CheckUpload(db, a, req.report, req.item, req.mime, req.content, env) == Ok(att.key)
                && att.fileSize == |req.content| && att.mime == req.mime)
  {
    if !req.UploadAttachment? { AttachmentRowsKept(db, a, req, env, k); }
  }

  lemma AttachmentRowsKept(db: Db, a: Actor, req: Request, env: Env, k: Uuid)
    requires Serve(db, a, req, env).Ok? && !req.UploadAttachment?
    requires k in Serve(db, a, req, env).value.db.attachments
    ensures var att := Serve(db, a, req, env).value.db.attachments[k];
            k in db.attachments && att == db.attachments[k].(deletedAt := att.deletedAt)
  {
    match req
    case DeleteReport(_) =>
    case DeleteItem(_, _) =>
    case DeleteAttachment(_, _, _) =>
    case _ => NoAttachmentTouched(db, a, req, env);
  }

  lemma NoAttachmentTouched(db: Db, a: Actor, req: Request, env: Env)
    requires Serve(db, a, req, env).Ok? && !req.UploadAttachment?
    requires !req.DeleteReport? && !req.DeleteItem? && !req.DeleteAttachment?
    ensures Serve(db, a, req, env).value.db.attachments == db.attachments
  {
  }

  /** Uploads use a key no stored object has, so earlier files stay as they were. */
  lemma ObjectsOnlyGrow(w: World, e: Event, w': World, key: Key)
    requires e.Handled? && Step(w, e, w') && key in w.objects
    ensures key in w'.objects && w'.objects[key] == w.objects[key]
  {
  }

  lemma UploadedFileStored(w: World, e: Event, w': World)
    requires e.Handled? && Step(w, e, w') && e.committed && e.req.UploadAttachment?
    ensures var key := CheckUpload(w.db, e.actor, e.req.report, e.req.item, e.req.mime, e.req.content, e.env);
            key.Ok? && key.value in w'.objects && w'.objects[key.value] == e.req.content
            && Matches(e.req.content, e.req.mime)
  {
  }

  lemma StepKeepsStorage(w: World, e: Event, w': World)
    requires e.Handled? && Step(w, e, w') && StorageOk(w)
    ensures StorageOk(w')
  {
    forall k | k in w'.db.attachments ensures FileStored(w'.objects, w'.db.attachments[k]) {
      if e.committed { AttachmentRowsAfter(w.db, e.actor, e.req, e.env, k); }
      if k in w.db.attachments {
        assert FileStored(w.objects, w.db.attachments[k]);
        ObjectsOnlyGrow(w, e, w', w.db.attachments[k].key);
      } else {
        UploadedFileStored(w, e, w');
      }
    }
  }

  lemma StepKeepsWorldOk(w: World, e: Event, w': World)
    requires WorldOk(w) && Step(w, e, w')
    ensures WorldOk(w')
  {
    match e
    case Provisioned(_, _, _) => ProvisionKeepsInv(w, e, w');
    case Handled(a, req, env, uploaded, committed) =>
      StepKeepsStorage(w, e, w');
      if committed {
        ServeKeepsInv(w.db, a, req, env);
        ServeTouches(w.db, a, req, env);
        TouchKeepsAcyclic(w.db, a, w'.db, Target(req, env));
      }
  }

  // ----- All runs -----

  lemma {:induction false} Reachable(ws: seq<World>, i: nat)
    requires IsRun(ws) && i < |ws|
    ensures WorldOk(ws[i])
  {
    if i > 0 {
      Reachable(ws, i - 1);
      assert StepsAt(ws, i - 1);
      var e :| Step(ws[i - 1], e, ws[i]);
      StepKeepsWorldOk(ws[i - 1], e, ws[i]);
    }
  }

  /** In every reachable state the stored total of a live report is the sum of its live items. */
  lemma StoredTotalIsItemSum(ws: seq<World>, i: nat, r: Uuid)
    requires IsRun(ws) && i < |ws|
    requires r in ws[i].db.reports && ws[i].db.reports[r].deletedAt.None?
    ensures ws[i].db.reports[r].total == LiveTotal(ws[i].db.items, ws[i].db.reports[r].tenant, r)
  {
    Reachable(ws, i);
    assert ReportOk(ws[i].db, r);
  }

  /** The total Submit recomputes, which is never written back, is the stored one that overwrites it. */
  lemma SubmitRecomputesStoredTotal(ws: seq<World>, i: nat, a: Actor, r: Uuid, env: Env)
    requires IsRun(ws) && i < |ws| && FindReport(ws[i].db, a.tenant, r).Ok?
    ensures var row, items := ws[i].db.reports[r], LiveItems(ws[i].db.items, a.tenant, r);
            var next := ToSubmitted(row, a.user, |items|, Sum(AmountColumn(items)), HasApprover(ws[i].db, a.tenant),
                                    env.clock);
            next.Ok? ==> next.value.total == row.total && StoreStatus(ws[i].db, r, row, next.value, env.stamp).response
                           == ReportRow(r, next.value.(updatedAt := env.stamp))
  {
    StoredTotalIsItemSum(ws, i, r);
  }

  /** A live attachment hangs under a live item, a live item under a live report, all of one tenant. */
  lemma LiveRowsNest(ws: seq<World>, i: nat)
    requires IsRun(ws) && i < |ws|
    ensures var db := ws[i].db;
            && (forall k :: k in db.items && db.items[k].deletedAt.None? ==>
                  FindReport(db, db.items[k].tenant, db.items[k].report).Ok?)
            && (forall k :: k in db.attachments && db.attachments[k].deletedAt.None? ==>
                  FindItem(db, db.attachments[k].tenant, db.attachments[k].report, db.attachments[k].item).Ok?)
  {
    Reachable(ws, i);
    var db := ws[i].db;
    forall k | k in db.items && db.items[k].deletedAt.None?
      ensures FindReport(db, db.items[k].tenant, db.items[k].report).Ok?
    {
      assert ReportOk(db, db.items[k].report);
    }
    forall k | k in db.attachments && db.attachments[k].deletedAt.None?
      ensures FindItem(db, db.attachments[k].tenant, db.attachments[k].report, db.attachments[k].item).Ok?
    {
      var att := db.attachments[k];
      assert ReportOk(db, att.report);
      assert AttachmentOk(db.items, att.report, att.tenant, k, att);
    }
  }

  /** No dangling rows: every attachment row's file is stored under its own key, typed and sized as the row says. */
  lemma AttachmentsAreStored(ws: seq<World>, i: nat, k: Uuid)
    requires IsRun(ws) && i < |ws| && k in ws[i].db.attachments
    ensures var att := ws[i].db.attachments[k];
            && att.key in ws[i].objects
            && Matches(ws[i].objects[att.key], att.mime)
            && 0 < |ws[i].objects[att.key]| == att.fileSize <= MAX_FILE_SIZE
            && (forall j :: j in ws[i].db.attachments && j != k ==> ws[i].db.attachments[j].key != att.key)
  {
    Reachable(ws, i);
    var db := ws[i].db;
    forall j | j in db.attachments
      ensures db.attachments[j].key.attachment == j && 0 < db.attachments[j].fileSize <= MAX_FILE_SIZE
    {
      var att := db.attachments[j];
      assert ReportOk(db, att.report);
      assert AttachmentOk(db.items, att.report, att.tenant, j, att);
    }
  }

  /**
   The status alone determines which decision fields are set, and owner, decider and payer are three
   different people: the payer because pay and approve are routed to different roles.
   */
  lemma DutiesAreSeparate(ws: seq<World>, i: nat, r: Uuid)
    requires IsRun(ws) && i < |ws| && r in ws[i].db.reports
    ensures var row := ws[i].db.reports[r];
            && FieldsMatchStatus(row)
            && (row.approvedBy.Some? && row.paidBy.Some? ==> row.approvedBy.value != row.paidBy.value)
  {
    Reachable(ws, i);
    assert ReportOk(ws[i].db, r);
  }

  /** Resubmission references point to live rejected reports of the same owner, and never form a cycle. */
  lemma ReferencesAreSound(ws: seq<World>, i: nat)
    requires IsRun(ws) && i < |ws|
    ensures Acyclic(ws[i].db.reports)
    ensures forall r :: r in ws[i].db.reports ==> ReferenceOk(ws[i].db.reports, ws[i].db.reports[r])
  {
    Reachable(ws, i);
    forall r | r in ws[i].db.reports ensures ReferenceOk(ws[i].db.reports, ws[i].db.reports[r]) {
      assert ReportOk(ws[i].db, r);
    }
  }

  // ----- Freezing -----

  /** Report `r` of `db` is still there in `db'`, further along its life cycle, with contents unchanged. */
  predicate Frozen(db: Db, db': Db, r: Uuid)
    requires r in db.reports
  {
    && r in db'.reports
    && var row, row' := db.reports[r], db'.reports[r];
       && SameContents(row, row')
       && row'.tenant == row.tenant && row'.owner == row.owner && row'.reference == row.reference
       && LiveItems(db'.items, row.tenant, r) == LiveItems(db.items, row.tenant, r)
       && LiveAttachments(db'.attachments, row.tenant, r) == LiveAttachments(db.attachments, row.tenant, r)
       && Reaches(row.status, row'.status)
  }

  /** Reachability along the edges of the life cycle. */
  predicate Reaches(s: Status, s': Status) {
    || s' == s
    || s == Draft
    || (s == Submitted && s' in {Approved, Rejected, Paid})
    || (s == Approved && s' == Paid)
  }

  lemma StepFreezes(w: World, e: Event, w': World, r: Uuid)
    requires WorldOk(w) && Step(w, e, w')
    requires r in w.db.reports && w.db.reports[r].status != Draft
    ensures Frozen(w.db, w'.db, r)
  {
    if e.Handled? && e.committed {
      var target := Target(e.req, e.env);
      ServeTouches(w.db, e.actor, e.req, e.env);
      if r != target { UntouchedReport(w.db, e.actor, w'.db, target, r); }
    }
  }

  lemma FrozenTwice(a: Db, b: Db, c: Db, r: Uuid)
    requires r in a.reports && Frozen(a, b, r) && Frozen(b, c, r)
    requires a.reports[r].status != Draft
    ensures Frozen(a, c, r)
  {
  }

  lemma NextFreezes(ws: seq<World>, i: nat, r: Uuid)
    requires IsRun(ws) && i + 1 < |ws|
    requires r in ws[i].db.reports && ws[i].db.reports[r].status != Draft
    ensures Frozen(ws[i].db, ws[i + 1].db, r)
  {
    Reachable(ws, i);
    assert StepsAt(ws, i);
    var e :| Step(ws[i], e, ws[i + 1]);
    StepFreezes(ws[i], e, ws[i + 1], r);
  }

  lemma FrozenItself(db: Db, r: Uuid)
    requires r in db.reports
    ensures Frozen(db, db, r)
  {
  }

  /** Once a report has left draft, nothing in it changes in any later state of any run. */
  lemma {:induction false} FrozenForever(ws: seq<World>, i: nat, j: nat, r: Uuid)
    requires IsRun(ws) && i <= j < |ws|
    requires r in ws[i].db.reports && ws[i].db.reports[r].status != Draft
    ensures Frozen(ws[i].db, ws[j].db, r)
  {
    var w, w' := ws[i], ws[j];
    if i == j {
      FrozenItself(w.db, r);
    } else {
      var v := ws[j - 1];
      FrozenForever(ws, i, j - 1, r);
      NextFreezes(ws, j - 1, r);
      FrozenTwice(w.db, v.db, w'.db, r);
    }
  }

  /** Submission moves the status only; the items it was made of are non-empty and sum to the total. */
  lemma SubmissionStep(w: World, e: Event, w': World, r: Uuid)
    requires WorldOk(w) && Step(w, e, w')
    requires r in w.db.reports && w.db.reports[r].status == Draft
    requires r in w'.db.reports && w'.db.reports[r].status == Submitted
    ensures var t := w.db.reports[r].tenant;
            && w'.db.items == w.db.items && w'.db.reports[r].tenant == t
            && LiveItems(w.db.items, t, r) != map[]
            && w'.db.reports[r].total == LiveTotal(w.db.items, t, r)
  {
    assert e.Handled? && e.committed;
    ServeTouches(w.db, e.actor, e.req, e.env);
    assert ReportOk(w.db, r);
  }

  lemma SubmissionAt(ws: seq<World>, i: nat, r: Uuid)
    requires IsRun(ws) && i + 1 < |ws|
    requires r in ws[i].db.reports && ws[i].db.reports[r].status == Draft
    requires r in ws[i + 1].db.reports && ws[i + 1].db.reports[r].status == Submitted
    ensures var t := ws[i].db.reports[r].tenant;
            && ws[i + 1].db.items == ws[i].db.items && ws[i + 1].db.reports[r].tenant == t
            && LiveItems(ws[i].db.items, t, r) != map[]
            && ws[i + 1].db.reports[r].total == LiveTotal(ws[i].db.items, t, r)
  {
    Reachable(ws, i);
    assert StepsAt(ws, i);
    var e :| Step(ws[i], e, ws[i + 1]);
    SubmissionStep(ws[i], e, ws[i + 1], r);
  }

  /** The amount eventually paid is the sum of the items as they were when the report was submitted. */
  lemma PaidAmountIsSubmittedSum(ws: seq<World>, i: nat, j: nat, r: Uuid)
    requires IsRun(ws) && i + 1 <= j < |ws|
    requires r in ws[i].db.reports && ws[i].db.reports[r].status == Draft
    requires r in ws[i + 1].db.reports && ws[i + 1].db.reports[r].status == Submitted
    ensures r in ws[j].db.reports && Reaches(Submitted, ws[j].db.reports[r].status)
    ensures ws[j].db.reports[r].total == LiveTotal(ws[i].db.items, ws[i].db.reports[r].tenant, r)
    ensures LiveItems(ws[j].db.items, ws[i].db.reports[r].tenant, r)
         == LiveItems(ws[i].db.items, ws[i].db.reports[r].tenant, r) != map[]
  {
    SubmissionAt(ws, i, r);
    FrozenForever(ws, i + 1, j, r);
  }
}
