/** Without interleaving, the steps of `Locking` and `Totals` are those of one atomic request. */
module Serial {
  import opened Prelude
  import opened Domain
  import opened Tables
  import opened Requests
  import opened Guards
  import Locking
  import Totals

  /** The request a decision of `Locking` stands for, made from the version read. */
  function RequestOf(r: Uuid, version: Time, d: Locking.Decision): Request {
    match d
    case Submitting(_) => SubmitReport(r, version)
    case Approving(comment) => ApproveReport(r, comment, version)
    case Rejecting(reason) => RejectReport(r, reason, version)
    case Paying => PayReport(r, version)
    case Editing(title, start, end) => UpdateReport(r, title, start, end, version)
  }

  /** The role the request is routed to. */
  predicate MayDecide(role: Role, d: Locking.Decision) {
    match d
    case Approving(_) => role == Approver
    case Rejecting(_) => role == Approver
    case Paying => role == Accounting
    case _ => true
  }

  /**
   A client that reads row and items, decides and writes with nobody in between is served exactly as the
   request is, and leaves the row that the request leaves.
   */
  lemma DecisionIsRequest(db: Db, a: Actor, r: Uuid, d: Locking.Decision, env: Env)
    requires Found(db, a, r) && MayDecide(a.role, d)
    requires d.Submitting? ==> d.hasApprover == exists u :: IsApprover(db, a.tenant, u)
    ensures var row, items := db.reports[r], Some(LiveItems(db.items, a.tenant, r));
            var next := Locking.Decided(row, items, a.user, d, env.clock);
            var res := Serve(db, a, RequestOf(r, row.updatedAt, d), env);
            && (res.Ok? <==> next.Ok?)
            && (res.Ok? ==> res.value.db.reports == db.reports[r := Locking.Write(row, d, next.value, env.stamp)])
  {
    match d
    case Submitting(_) =>
      SubmissionServed(db, a, r, db.reports[r].updatedAt, env);
      ApproversAgree(db, a.tenant);
    case Approving(_) =>
    case Rejecting(_) =>
    case Paying =>
    case Editing(_, _, _) =>
  }

  lemma ApproversAgree(db: Db, t: Uuid)
    ensures HasApprover(db, t) <==> exists u :: IsApprover(db, t, u)
  {
    if u :| IsApprover(db, t, u) {
      assert db.members[u] == Membership(t, Approver);
    }
    if HasApprover(db, t) {
      var u :| u in db.members && db.members[u] == Membership(t, Approver);
      assert IsApprover(db, t, u);
    }
  }

  /** What an item request does to the live items. */
  function ChangeOf(req: Request, env: Env, after: map<Uuid, Item>): ItemChange
    requires req.CreateItem? ==> env.newId in after
    requires req.UpdateItem? ==> req.item in after
    requires req.CreateItem? || req.UpdateItem? || req.DeleteItem?
  {
    if req.CreateItem? then Put(env.newId, after[env.newId])
    else if req.UpdateItem? then Put(req.item, after[req.item])
    else Drop(req.item)
  }

  lemma StoredIsChange(items: map<Uuid, Item>, t: Uuid, r: Uuid, i: Uuid, item: Item)
    requires ItemOf(item, t, r)
    ensures LiveItems(items[i := item], t, r) == Changed(LiveItems(items, t, r), Put(i, item))
  {
  }

  lemma ErasedIsChange(items: map<Uuid, Item>, t: Uuid, r: Uuid, i: Uuid, stamp: Time)
    ensures LiveItems(EraseItem(items, t, r, i, stamp), t, r) == Changed(LiveItems(items, t, r), Drop(i))
  {
  }

  /** The report's live items as `Locking` and `Totals` see them. */
  function Live(db: Db, a: Actor, r: Uuid): map<Uuid, Item> {
    LiveItems(db.items, a.tenant, r)
  }

  /** The three kinds of item request change one row, which fits the change `Locking` allows, and set the total. */
  lemma ItemRequestIsChange(db: Db, a: Actor, req: Request, env: Env)
    requires Fresh(db, env) && (req.CreateItem? || req.UpdateItem? || req.DeleteItem?)
    requires Serve(db, a, req, env).Ok?
    ensures var db', r := Serve(db, a, req, env).value.db, req.report;
            && Found(db, a, r) && r in db'.reports
            && (req.CreateItem? ==> env.newId in Live(db', a, r)) && (req.UpdateItem? ==> req.item in Live(db', a, r))
            && var change := ChangeOf(req, env, Live(db', a, r));
               && Live(db', a, r) == Changed(Live(db, a, r), change)
               && Locking.Storable(Locking.State(r, db.reports[r], Live(db, a, r), map[], {}), change, env.stamp)
               && db'.reports[r] == db.reports[r].(total := Totals.SumOf(Live(db', a, r)), updatedAt := env.stamp)
  {
    match req
    case CreateItem(r, date, amount, category, description) =>
      var item := Item(r, a.tenant, date, ToInt32(amount), category, description, env.stamp, env.stamp, None);
      StoredIsChange(db.items, a.tenant, r, env.newId, item);
      ToInt32Exact(amount);
    case UpdateItem(r, i, date, amount, category, description, _) =>
      var item := db.items[i].(date := date, amount := ToInt32(amount), category := category,
                               description := description, updatedAt := env.stamp);
      StoredIsChange(db.items, a.tenant, r, i, item);
      ToInt32Exact(amount);
    case DeleteItem(r, i) =>
      ErasedIsChange(db.items, a.tenant, r, i, env.stamp);
  }
}
