/** Whether somebody can decide a submitted report. */
module Approvers {
  import opened Prelude
  import opened Domain
  import opened Tables
  import opened Requests
  import opened Invariant
  import opened Runs
  import opened Guards
  import opened History

  /** Only a submission takes a report out of draft. */
  lemma LeftDraftBySubmission(w: World, e: Event, w': World, r: Uuid)
    requires Step(w, e, w') && r in w'.db.reports && w'.db.reports[r].status != Draft
    requires r in w.db.reports ==> w.db.reports[r].status == Draft
    ensures Committed(e) && e.req.SubmitReport? && e.req.report == r && r in w.db.reports
    ensures w'.db.reports[r].tenant == w.db.reports[r].tenant
  {
    ReportStep(w, e, w', r);
    RowsAfter(w, e, w');
    OnlySubmissionLeavesDraft(w, e, w', r);
  }

  lemma OnlySubmissionLeavesDraft(w: World, e: Event, w': World, r: Uuid)
    requires RowsEntered(w.db.reports, e, w'.db.reports)
    requires r in w'.db.reports && w'.db.reports[r].status != Draft
    requires r in w.db.reports ==> w.db.reports[r].status == Draft
    ensures Committed(e) && e.req.SubmitReport? && e.req.report == r && r in w.db.reports
  {
  }

  lemma SubmissionFindsApprover(db: Db, a: Actor, r: Uuid, version: Time, env: Env) returns (u: Uuid)
    requires Serve(db, a, SubmitReport(r, version), env).Ok?
    ensures r in db.reports && IsApprover(db, db.reports[r].tenant, u)
  {
    SubmissionServed(db, a, r, version, env);
    u :| IsApprover(db, a.tenant, u);
  }

  lemma SubmittedAt(w: World, e: Event, w': World, r: Uuid) returns (u: Uuid)
    requires Step(w, e, w') && r in w'.db.reports && w'.db.reports[r].status != Draft
    requires r in w.db.reports ==> w.db.reports[r].status == Draft
    ensures IsApprover(w.db, w'.db.reports[r].tenant, u)
  {
    LeftDraftBySubmission(w, e, w', r);
    u := SubmissionFindsApprover(w.db, e.actor, r, e.req.version, e.env);
  }

  lemma SubmittedBefore(w: World, e: Event, w': World, r: Uuid)
    requires WorldOk(w) && Step(w, e, w') && r in w.db.reports && w.db.reports[r].status != Draft
    ensures r in w'.db.reports && w'.db.reports[r].tenant == w.db.reports[r].tenant
  {
    StepFreezes(w, e, w', r);
  }

  /** In every reachable state a report that has left draft belongs to a tenant with an approver. */
  lemma {:induction false} SubmittedHasApprover(ws: seq<World>, i: nat, r: Uuid) returns (u: Uuid)
    requires IsRun(ws) && i < |ws| && r in ws[i].db.reports && ws[i].db.reports[r].status != Draft
    ensures IsApprover(ws[i].db, ws[i].db.reports[r].tenant, u)
  {
    assert i > 0;
    var w, w' := ws[i - 1], ws[i];
    Reachable(ws, i - 1);
    var e := EventOf(ws, i - 1);
    if r in w.db.reports && w.db.reports[r].status != Draft {
      SubmittedBefore(w, e, w', r);
      u := SubmittedHasApprover(ws, i - 1, r);
    } else {
      u := SubmittedAt(w, e, w', r);
    }
    MembersStay(w, e, w');
  }

  lemma EventOf(ws: seq<World>, i: nat) returns (e: Event)
    requires IsRun(ws) && i + 1 < |ws|
    ensures Step(ws[i], e, ws[i + 1])
  {
    assert StepsAt(ws, i);
    e :| Step(ws[i], e, ws[i + 1]);
  }

  lemma MembersStay(w: World, e: Event, w': World)
    requires WorldOk(w) && Step(w, e, w')
    ensures forall u :: u in w.db.members ==> u in w'.db.members && w'.db.members[u] == w.db.members[u]
    ensures w.db.members.Keys == w.db.users.Keys ==> w'.db.members.Keys == w'.db.users.Keys
  {
    if Committed(e) {
      ServeTouches(w.db, e.actor, e.req, e.env);
    }
  }

  lemma {:induction false} MembersAreUsers(ws: seq<World>, i: nat)
    requires IsRun(ws) && i < |ws|
    ensures ws[i].db.members.Keys == ws[i].db.users.Keys
  {
    if i > 0 {
      MembersAreUsers(ws, i - 1);
      Reachable(ws, i - 1);
      var e := EventOf(ws, i - 1);
      MembersStay(ws[i - 1], e, ws[i]);
    }
  }

  /** Some member can approve the report as it is. */
  ghost predicate CanBeApproved(db: Db, r: Uuid, env: Env)
    requires r in db.reports
  {
    exists a: Actor :: Authenticated(db, a) && Serve(db, a, ApproveReport(r, None, db.reports[r].updatedAt), env).Ok?
  }

  /**
   A submitted report can be approved exactly if its tenant has an approver other than its owner: an owner who
   is the only approver passes the check on submission, and may not decide.
   */
  lemma ApprovableIffOtherApprover(ws: seq<World>, i: nat, r: Uuid, env: Env)
    requires IsRun(ws) && i < |ws| && r in ws[i].db.reports && ws[i].db.reports[r].status == Submitted
    ensures var db := ws[i].db;
            CanBeApproved(db, r, env) <==>
            exists u :: IsApprover(db, db.reports[r].tenant, u) && u != db.reports[r].owner
  {
    var db := ws[i].db;
    var row := db.reports[r];
    Reachable(ws, i);
    assert ReportOk(db, r);
    if a: Actor :| Authenticated(db, a) && Serve(db, a, ApproveReport(r, None, row.updatedAt), env).Ok? {
      ApprovalServed(db, a, r, None, row.updatedAt, env);
      assert IsApprover(db, row.tenant, a.user);
    }
    if u :| IsApprover(db, row.tenant, u) && u != row.owner {
      MembersAreUsers(ws, i);
      var a := Actor(u, row.tenant, Approver);
      ApprovalServed(db, a, r, None, row.updatedAt, env);
      assert Authenticated(db, a);
    }
  }
}
