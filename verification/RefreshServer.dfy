/**
 The server side of token rotation, step by step: a refresh is a read, then a revocation, then an
 insertion, with no transaction around them, so that exchanges interleave. The rows are one user's.
 */
module RefreshServer {
  import opened Prelude

  type Token = nat

  /** How far the server has got with one refresh request. */
  datatype Stage =
    | Arrived                         // the request is on its way or waiting
    | Checked                         // its row was read and was not revoked
    | Rotated                         // its row is revoked, the new one not yet inserted
    | Finished(issued: Option<Token>) // answered, with a new token or an error

  datatype Exchange = Exchange(token: Token, stage: Stage)

  /** `revoked` has an entry for every stored token. */
  datatype Server = Server(revoked: map<Token, bool>, exchanges: map<nat, Exchange>)

  datatype Event =
    | Arrive(id: nat, token: Token)
    | Check(id: nat)
    | Revoke(id: nat)
    | Create(id: nat, next: Token)
    | Abort(id: nat)                  // some statement failed
    | Login(next: Token)
    | Reset                           // a committed password reset

  predicate At(s: Server, id: nat, stage: Stage) {
    id in s.exchanges && s.exchanges[id].stage == stage
  }

  function Advance(s: Server, id: nat, stage: Stage): Server
    requires id in s.exchanges
  {
    s.(exchanges := s.exchanges[id := s.exchanges[id].(stage := stage)])
  }

  /** RevokeAllByUserID. */
  function AllRevoked(revoked: map<Token, bool>): map<Token, bool> {
    map t | t in revoked :: true
  }

  /** The row read is revoked: the request is taken for a reuse of an old token. */
  predicate IsReuse(s: Server, id: nat) {
    id in s.exchanges && s.exchanges[id].token in s.revoked && s.revoked[s.exchanges[id].token]
  }

  predicate Step(s: Server, e: Event, s': Server) {
    match e
    case Arrive(id, token) => id !in s.exchanges && s' == s.(exchanges := s.exchanges[id := Exchange(token, Arrived)])
    case Check(id) =>
      && At(s, id, Arrived)
      && if s.exchanges[id].token !in s.revoked then s' == Advance(s, id, Finished(None))
         else if IsReuse(s, id) then
           // the answer does not depend on whether the revocation of all sessions went through
           || s' == Advance(s.(revoked := AllRevoked(s.revoked)), id, Finished(None))
           || s' == Advance(s, id, Finished(None))
         else s' == Advance(s, id, Checked)
    case Revoke(id) =>
      At(s, id, Checked) && s' == Advance(s.(revoked := s.revoked[s.exchanges[id].token := true]), id, Rotated)
    case Create(id, next) =>
      && At(s, id, Rotated) && next !in s.revoked
      && s' == Advance(s.(revoked := s.revoked[next := false]), id, Finished(Some(next)))
    case Abort(id) => id in s.exchanges && !s.exchanges[id].stage.Finished? && s' == Advance(s, id, Finished(None))
    case Login(next) => next !in s.revoked && s' == s.(revoked := s.revoked[next := false])
    case Reset => s' == s.(revoked := AllRevoked(s.revoked))
  }

  ghost predicate IsRun(ss: seq<Server>, es: seq<Event>) {
    && |ss| == |es| + 1
    && forall i: nat :: i < |es| ==> StepAt(ss, es, i)
  }

  predicate StepAt(ss: seq<Server>, es: seq<Event>, i: nat)
    requires |ss| == |es| + 1 && i < |es|
  {
    Step(ss[i], es[i], ss[i + 1])
  }

  /** The user holds a token that would still be accepted. */
  predicate Alive(s: Server) {
    exists t :: t in s.revoked && !s.revoked[t]
  }

  // ----- Two requests with one token -----

  /** Two exchanges presenting the same token, at the given stages. */
  function Racing(revoked: map<Token, bool>, t: Token, first: Stage, second: Stage): Server {
    Server(revoked, map[0 := Exchange(t, first), 1 := Exchange(t, second)])
  }

  /** Both read, both revoke, both insert. */
  function RaceState(k: nat, t: Token, a: Token, b: Token): Server {
    var live, dead := map[t := false], map[t := true];
    if k == 0 then Server(live, map[])
    else if k == 1 then Server(live, map[0 := Exchange(t, Arrived)])
    else if k == 2 then Racing(live, t, Arrived, Arrived)
    else if k == 3 then Racing(live, t, Checked, Arrived)
    else if k == 4 then Racing(live, t, Checked, Checked)
    else if k == 5 then Racing(dead, t, Rotated, Checked)
    else if k == 6 then Racing(dead, t, Rotated, Rotated)
    else if k == 7 then Racing(dead[a := false], t, Finished(Some(a)), Rotated)
    else Racing(dead[a := false][b := false], t, Finished(Some(a)), Finished(Some(b)))
  }

  function RaceEvent(k: nat, t: Token, a: Token, b: Token): Event {
    if k == 0 then Arrive(0, t)
    else if k == 1 then Arrive(1, t)
    else if k == 2 then Check(0)
    else if k == 3 then Check(1)
    else if k == 4 then Revoke(0)
    else if k == 5 then Revoke(1)
    else if k == 6 then Create(0, a)
    else Create(1, b)
  }

  lemma RaceStep(k: nat, t: Token, a: Token, b: Token)
    requires t != a && t != b && a != b && k < 8
    ensures Step(RaceState(k, t, a, b), RaceEvent(k, t, a, b), RaceState(k + 1, t, a, b))
  {
    if k == 0 {
    } else if k == 1 {
    } else if k == 2 {
    } else if k == 3 {
    } else if k == 4 {
    } else if k == 5 {
    } else if k == 6 {
    }
  }

  /**
   Nothing on the server stops two refreshes of one token from both succeeding: both may read the row before
   either revokes it. One token then has two live successors.
   */
  lemma RaceForksSession(t: Token, a: Token, b: Token) returns (ss: seq<Server>, es: seq<Event>)
    requires t != a && t != b && a != b
    ensures IsRun(ss, es) && ss[0] == Server(map[t := false], map[]) && NoLogin(es)
    ensures ss[|es|] == Racing(map[t := true, a := false, b := false], t, Finished(Some(a)), Finished(Some(b)))
  {
    ss, es := seq(9, k requires 0 <= k => RaceState(k, t, a, b)), seq(8, k requires 0 <= k => RaceEvent(k, t, a, b));
    forall i: nat | i < |es| ensures StepAt(ss, es, i) {
      RaceStep(i, t, a, b);
    }
  }

  // ----- Exactly when a token is used twice -----

  predicate Issued(s: Server, id: nat) {
    id in s.exchanges && s.exchanges[id].stage.Finished? && s.exchanges[id].stage.issued.Some?
  }

  /** The exchange found its token unrevoked and has not been given up since. */
  predicate PastCheck(s: Server, id: nat) {
    At(s, id, Checked) || At(s, id, Rotated) || Issued(s, id)
  }

  predicate BothChecked(s: Server, i: nat, j: nat) {
    At(s, i, Checked) && At(s, j, Checked)
  }

  /** An exchange that has rotated has revoked its token, for good. */
  predicate Sound(s: Server) {
    forall id :: id in s.exchanges && (At(s, id, Rotated) || Issued(s, id)) ==>
      s.exchanges[id].token in s.revoked && s.revoked[s.exchanges[id].token]
  }

  lemma StepKeepsSound(s: Server, e: Event, s': Server)
    requires Step(s, e, s') && Sound(s)
    ensures Sound(s')
    ensures forall id :: id in s.exchanges ==> id in s'.exchanges && s'.exchanges[id].token == s.exchanges[id].token
  {
    if e.Revoke? { assert s.exchanges[e.id].stage == Checked; }
  }

  lemma {:induction false} RunIsSound(ss: seq<Server>, es: seq<Event>, n: nat)
    requires IsRun(ss, es) && n < |ss| && ss[0].exchanges == map[]
    ensures Sound(ss[n])
  {
    if n > 0 {
      RunIsSound(ss, es, n - 1);
      assert StepAt(ss, es, n - 1);
      StepKeepsSound(ss[n - 1], es[n - 1], ss[n]);
    }
  }

  /** An exchange that passes its check does so on an unrevoked token. */
  lemma PassesOnLiveToken(s: Server, e: Event, s': Server, i: nat, j: nat)
    requires Step(s, e, s') && Sound(s) && i != j
    requires PastCheck(s', i) && PastCheck(s', j) && s'.exchanges[i].token == s'.exchanges[j].token
    requires !PastCheck(s, i)
    ensures PastCheck(s, j) ==> BothChecked(s', i, j)
    ensures PastCheck(s, j)
  {
  }

  /** Two exchanges of one token past their checks must once have stood checked at the same time. */
  lemma {:induction false} WereBothChecked(ss: seq<Server>, es: seq<Event>, n: nat, i: nat, j: nat)
    requires IsRun(ss, es) && n < |ss| && ss[0].exchanges == map[] && i != j
    requires PastCheck(ss[n], i) && PastCheck(ss[n], j) && ss[n].exchanges[i].token == ss[n].exchanges[j].token
    ensures exists k :: 0 <= k <= n && BothChecked(ss[k], i, j)
  {
    if n > 0 {
      RunIsSound(ss, es, n - 1);
      assert StepAt(ss, es, n - 1);
      StepKeepsSound(ss[n - 1], es[n - 1], ss[n]);
      if PastCheck(ss[n - 1], i) && PastCheck(ss[n - 1], j) {
        WereBothChecked(ss, es, n - 1, i, j);
      } else if !PastCheck(ss[n - 1], i) {
        PassesOnLiveToken(ss[n - 1], es[n - 1], ss[n], i, j);
      } else {
        PassesOnLiveToken(ss[n - 1], es[n - 1], ss[n], j, i);
      }
    }
  }

  /** Only these events: the revocations and insertions of the exchanges i and j. */
  predicate OnlyFinish(es: seq<Event>, i: nat, j: nat) {
    forall e :: e in es ==> (e.Revoke? || e.Create?) && e.id in {i, j}
  }

  /** Without another check, login or request, both exchanges can come to hand out a token. */
  ghost predicate CanIssueTwice(s: Server, i: nat, j: nat) {
    exists ss: seq<Server>, es: seq<Event> ::
      IsRun(ss, es) && ss[0] == s && OnlyFinish(es, i, j) && Issued(ss[|es|], i) && Issued(ss[|es|], j)
  }

  lemma {:induction false} IssuedOnlyPastCheck(ss: seq<Server>, es: seq<Event>, n: nat, i: nat, j: nat)
    requires IsRun(ss, es) && n < |ss| && OnlyFinish(es, i, j) && Issued(ss[n], i)
    ensures PastCheck(ss[0], i)
    decreases n
  {
    var k := n;
    while k > 0
      invariant 0 <= k <= n && PastCheck(ss[k], i)
    {
      assert StepAt(ss, es, k - 1) && es[k - 1] in es;
      k := k - 1;
    }
  }

  lemma JoinRuns(ss: seq<Server>, es: seq<Event>, ss': seq<Server>, es': seq<Event>)
    requires IsRun(ss, es) && IsRun(ss', es') && ss'[0] == ss[|es|]
    ensures IsRun(ss + ss'[1..], es + es') && (ss + ss'[1..])[|es + es'|] == ss'[|es'|]
  {
    var all, events := ss + ss'[1..], es + es';
    forall n: nat | n < |events| ensures StepAt(all, events, n) {
      if n < |es| { assert StepAt(ss, es, n); } else { assert StepAt(ss', es', n - |es|); }
    }
  }

  /** An exchange past its check can finish by itself. */
  lemma FinishOne(s: Server, i: nat, j: nat) returns (ss: seq<Server>, es: seq<Event>)
    requires PastCheck(s, i)
    ensures IsRun(ss, es) && ss[0] == s && OnlyFinish(es, i, j) && Issued(ss[|es|], i)
    ensures forall id :: id != i && id in s.exchanges ==>
              id in ss[|es|].exchanges && ss[|es|].exchanges[id] == s.exchanges[id]
    decreases if At(s, i, Checked) then 2 else if At(s, i, Rotated) then 1 else 0
  {
    ss, es := [s], [];
    if At(s, i, Checked) {
      var s' := Advance(s.(revoked := s.revoked[s.exchanges[i].token := true]), i, Rotated);
      assert Step(s, Revoke(i), s');
      var rest, events := FinishOne(s', i, j);
      assert StepAt([s, s'], [Revoke(i)], 0);
      JoinRuns([s, s'], [Revoke(i)], rest, events);
      ss, es := [s, s'] + rest[1..], [Revoke(i)] + events;
    } else if At(s, i, Rotated) {
      var next := FreshToken(s.revoked.Keys);
      var s' := Advance(s.(revoked := s.revoked[next := false]), i, Finished(Some(next)));
      assert Step(s, Create(i, next), s');
      ss, es := [s, s'], [Create(i, next)];
      assert StepAt(ss, es, 0);
    }
  }

  lemma BothFinish(s: Server, i: nat, j: nat)
    requires i != j && PastCheck(s, i) && PastCheck(s, j)
    ensures CanIssueTwice(s, i, j)
  {
    var ss, es := FinishOne(s, i, j);
    var ss', es' := FinishOne(ss[|es|], j, i);
    JoinRuns(ss, es, ss', es');
    var all, events := ss + ss'[1..], es + es';
    assert OnlyFinish(events, i, j) && Issued(all[|events|], i) && Issued(all[|events|], j);
  }

  /**
   A refresh token can be used twice exactly when two exchanges of it once stood past their reads and short of
   their revocations at the same time: only then can both hand out a token, and then they can without any
   further check, login or request. Nothing on the server rules that out; a client that never has two
   exchanges under way does.
   */
  lemma UsedTwiceIffBothChecked(ss: seq<Server>, es: seq<Event>, i: nat, j: nat)
    requires IsRun(ss, es) && ss[0].exchanges == map[] && i != j
    requires forall k :: 0 <= k < |ss| && i in ss[k].exchanges && j in ss[k].exchanges ==>
               ss[k].exchanges[i].token == ss[k].exchanges[j].token
    ensures (exists k :: 0 <= k < |ss| && CanIssueTwice(ss[k], i, j)) <==>
            (exists k :: 0 <= k < |ss| && BothChecked(ss[k], i, j))
  {
    if k :| 0 <= k < |ss| && BothChecked(ss[k], i, j) {
      BothFinish(ss[k], i, j);
    }
    if k :| 0 <= k < |ss| && CanIssueTwice(ss[k], i, j) {
      var ss', es' :| IsRun(ss', es') && ss'[0] == ss[k] && OnlyFinish(es', i, j)
                      && Issued(ss'[|es'|], i) && Issued(ss'[|es'|], j);
      IssuedOnlyPastCheck(ss', es', |es'|, i, j);
      IssuedOnlyPastCheck(ss', es', |es'|, j, i);
      WereBothChecked(ss, es, k, i, j);
    }
  }

  // ----- Password reset against refreshes in progress -----

  /** An exchange past its check and short of its insertion. */
  predicate MidRotation(s: Server) {
    exists id :: id in s.exchanges && s.exchanges[id].stage in {Checked, Rotated}
  }

  predicate NoLogin(es: seq<Event>) {
    forall e :: e in es ==> !e.Login?
  }

  /** With no live token and no exchange past its check, only a login brings a live token. */
  lemma StepStaysDead(s: Server, e: Event, s': Server)
    requires Step(s, e, s') && !e.Login? && !Alive(s) && !MidRotation(s)
    ensures !Alive(s') && !MidRotation(s')
  {
    if e.Arrive? {
      forall id | id in s'.exchanges ensures s'.exchanges[id].stage !in {Checked, Rotated} { }
    }
  }

  lemma {:induction false} StaysDead(ss: seq<Server>, es: seq<Event>, i: nat)
    requires IsRun(ss, es) && i < |ss| && NoLogin(es)
    requires !Alive(ss[0]) && !MidRotation(ss[0])
    ensures !Alive(ss[i]) && !MidRotation(ss[i])
  {
    if i > 0 {
      StaysDead(ss, es, i - 1);
      assert StepAt(ss, es, i - 1);
      assert es[i - 1] in es;
      StepStaysDead(ss[i - 1], es[i - 1], ss[i]);
    }
  }

  ghost function FreshToken(tokens: set<Token>): (t: Token)
    ensures forall u :: u in tokens ==> u < t
  {
    if tokens == {} then 0
    else
      var u :| u in tokens;
      var t := FreshToken(tokens - {u});
      assert forall v :: v in tokens ==> v == u || v in tokens - {u};
      if u < t then t else u + 1
  }

  /** An exchange past its check can finish after the reset and hand out a live token. */
  lemma FinishRotation(s: Server, id: nat) returns (ss: seq<Server>, es: seq<Event>)
    requires id in s.exchanges && s.exchanges[id].stage in {Checked, Rotated}
    ensures IsRun(ss, es) && ss[0] == s && NoLogin(es) && Alive(ss[|es|])
    decreases s.exchanges[id].stage == Checked
  {
    var s1 := Advance(s.(revoked := s.revoked[s.exchanges[id].token := true]), id, Rotated);
    if s.exchanges[id].stage == Checked {
      assert Step(s, Revoke(id), s1);
      var rest, events := FinishRotation(s1, id);
      ss, es := [s] + rest, [Revoke(id)] + events;
      forall i: nat | i < |es| ensures StepAt(ss, es, i) {
        if i > 0 { assert StepAt(rest, events, i - 1); }
      }
    } else {
      var next := FreshToken(s.revoked.Keys);
      var s2 := Advance(s.(revoked := s.revoked[next := false]), id, Finished(Some(next)));
      assert Step(s, Create(id, next), s2);
      assert next in s2.revoked && !s2.revoked[next];
      ss, es := [s, s2], [Create(id, next)];
    }
  }

  ghost predicate CanRevive(s: Server) {
    exists ss: seq<Server>, es: seq<Event> :: IsRun(ss, es) && ss[0] == s && NoLogin(es) && Alive(ss[|es|])
  }

  /**
   A committed password reset leaves the user without a live token until the next login, exactly when no
   refresh was past its check at that moment.
   */
  lemma ResetEndsSessions(s: Server, s': Server)
    requires Step(s, Reset, s')
    ensures !Alive(s')
    ensures CanRevive(s') <==> MidRotation(s)
  {
    if MidRotation(s) {
      var id :| id in s.exchanges && s.exchanges[id].stage in {Checked, Rotated};
      var ss, es := FinishRotation(s', id);
    } else if CanRevive(s') {
      var ss, es :| IsRun(ss, es) && ss[0] == s' && NoLogin(es) && Alive(ss[|es|]);
      StaysDead(ss, es, |es|);
    }
  }
}
