/**
 Refresh tokens over whole histories, calls served one after the other: who descends from which login,
 and what revocation leaves behind. A call may stop after any statement.
 */
module TokenLineage {
  import opened Prelude

  type Jti = nat
  type User = nat
  type Family = nat

  datatype Row = Row(user: User, revoked: bool)

  datatype Error = InvalidToken | TokenRevoked | Failed
  datatype Outcome = Issued(jti: Jti) | Done | Refused(error: Error)

  /**
   The token table, and what the code does not store: the family of each token (one per signup or login),
   each family's newest token, and the tokens that have been exchanged for a new pair.
   */
  datatype Ledger = Ledger(rows: map<Jti, Row>, family: map<Jti, Family>, newest: map<Family, Jti>, spent: set<Jti>)

  /** One served call, with the generated token identifier and how far it got. */
  datatype Call =
    | LogIn(user: User, next: Jti, family: Family)           // also a signup
    | Refresh(jti: Jti, next: Jti, swept: bool, completed: bool)
    | LogOut(jti: Jti)
    | Reset(user: User)                                      // a committed password reset

  // ----- The statements -----

  function Inserted(l: Ledger, jti: Jti, user: User, f: Family): Ledger {
    l.(rows := l.rows[jti := Row(user, false)], family := l.family[jti := f], newest := l.newest[f := jti])
  }

  function Revoked(rows: map<Jti, Row>, jti: Jti): map<Jti, Row> {
    map j | j in rows :: if j == jti then rows[j].(revoked := true) else rows[j]
  }

  function RevokedAll(rows: map<Jti, Row>, user: User): map<Jti, Row> {
    map j | j in rows :: if rows[j].user == user then rows[j].(revoked := true) else rows[j]
  }

  // ----- The calls -----

  function AfterRefresh(l: Ledger, jti: Jti, next: Jti, swept: bool, completed: bool): (Ledger, Outcome)
    requires l.rows.Keys <= l.family.Keys
  {
    if jti !in l.rows then (l, Refused(InvalidToken))
    else if l.rows[jti].revoked then
      // the failure to revoke all sessions is only logged
      (if swept then l.(rows := RevokedAll(l.rows, l.rows[jti].user)) else l, Refused(TokenRevoked))
    else
      var l' := l.(rows := Revoked(l.rows, jti));
      if !completed then (l', Refused(Failed))
      else (Inserted(l', next, l.rows[jti].user, l.family[jti]).(spent := l.spent + {jti}), Issued(next))
  }

  function After(l: Ledger, c: Call): (Ledger, Outcome)
    requires l.rows.Keys <= l.family.Keys
  {
    match c
    case LogIn(user, next, f) => (Inserted(l, next, user, f), Issued(next))
    case Refresh(jti, next, swept, completed) => AfterRefresh(l, jti, next, swept, completed)
    case LogOut(jti) =>
      if jti !in l.rows then (l, Refused(InvalidToken))
      else if l.rows[jti].revoked then (l, Refused(TokenRevoked))
      else (l.(rows := Revoked(l.rows, jti)), Done)
    case Reset(user) => (l.(rows := RevokedAll(l.rows, user)), Done)
  }

  /** Generated identifiers are new, and every login starts a family of its own. */
  predicate Enabled(l: Ledger, c: Call) {
    match c
    case LogIn(_, next, f) => next !in l.rows && f !in l.newest
    case Refresh(_, next, _, _) => next !in l.rows
    case LogOut(_) => true
    case Reset(_) => true
  }

  // ----- The service, statement by statement -----

  class TokenService {
    var rows: map<Jti, Row>
    ghost var family: map<Jti, Family>
    ghost var newest: map<Family, Jti>
    ghost var spent: set<Jti>
    ghost var faults: nat  // how many statements have failed

    constructor ()
      ensures State() == Ledger(map[], map[], map[], {}) && faults == 0
    {
      rows, family, newest, spent, faults := map[], map[], map[], {}, 0;
    }

    ghost function State(): Ledger
      reads this
    {
      Ledger(rows, family, newest, spent)
    }

    method Fails() returns (failed: bool)
      modifies this`faults
      ensures faults >= old(faults) && (failed <==> faults > old(faults))
    {
      failed := *;
      if failed {
        faults := faults + 1;
      }
    }

    method Create(jti: Jti, user: User, ghost f: Family)
      modifies this
      ensures State() == Inserted(old(State()), jti, user, f) && faults == old(faults)
    {
      rows := rows[jti := Row(user, false)];
      family := family[jti := f];
      newest := newest[f := jti];
    }

    method Revoke(jti: Jti)
      modifies this`rows
      ensures rows == Revoked(old(rows), jti)
    {
      if jti in rows {
        rows := rows[jti := rows[jti].(revoked := true)];
      }
    }

    /** UPDATE ... SET is_revoked = true WHERE user_id = $1 AND is_revoked = false. */
    method RevokeAllByUserID(user: User) returns (ok: bool)
      modifies this`rows, this`faults
      ensures faults >= old(faults) && (ok <==> faults == old(faults))
      ensures rows == if ok then RevokedAll(old(rows), user) else old(rows)
    {
      var failed := Fails();
      if failed {
        return false;
      }
      rows := map j | j in rows ::
        if rows[j].user == user && !rows[j].revoked then rows[j].(revoked := true) else rows[j];
      return true;
    }

    method LogIn(user: User, next: Jti, ghost f: Family) returns (outcome: Outcome)
      requires rows.Keys <= family.Keys
      modifies this
      ensures outcome == Refused(Failed) ==> State() == old(State())
      ensures outcome != Refused(Failed) ==> (State(), outcome) == After(old(State()), Call.LogIn(user, next, f))
      ensures outcome == Refused(Failed) <==> faults > old(faults)
      ensures outcome.Issued? ==> outcome.jti == next && next in rows && rows[next] == Row(user, false)
    {
      var failed := Fails();
      if failed {
        return Refused(Failed);
      }
      Create(next, user, f);
      return Issued(next);
    }

    /**
     RefreshToken; `begun` tells whether it changed or refused anything before a statement failed. When none
     fails, it sweeps on reuse and otherwise completes the rotation.
     */
    method Refresh(jti: Jti, next: Jti) returns (outcome: Outcome, begun: bool, ghost swept: bool)
      requires rows.Keys <= family.Keys
      modifies this
      ensures !begun ==> outcome == Refused(Failed) && State() == old(State())
      ensures begun ==> (State(), outcome) == After(old(State()), Call.Refresh(jti, next, swept, outcome.Issued?))
      ensures faults >= old(faults)
      ensures faults == old(faults) ==>
                begun && (State(), outcome) == After(old(State()), Call.Refresh(jti, next, true, true))
      ensures outcome.Issued? ==>
                && outcome.jti == next && next in rows && !rows[next].revoked
                && jti in old(rows) && !old(rows)[jti].revoked && rows[next].user == old(rows)[jti].user
                && (next != jti ==> jti in rows && rows[jti].revoked)
      ensures faults == old(faults) ==> (outcome.Issued? <==> jti in old(rows) && !old(rows)[jti].revoked)
    {
      begun, swept := false, false;
      var failed := Fails();  // reading the row
      if failed {
        return Refused(Failed), begun, swept;
      }
      if jti !in rows {
        begun := true;
        return Refused(InvalidToken), begun, swept;
      }
      var stored := rows[jti];
      if stored.revoked {
        var ok := RevokeAllByUserID(stored.user);
        begun, swept := true, ok;
        return Refused(TokenRevoked), begun, swept;
      }
      failed := Fails();
      if failed {
        return Refused(Failed), begun, swept;
      }
      ghost var f := family[jti];
      Revoke(jti);
      begun := true;
      failed := Fails();  // membership, tenant, user, token generation, or the insertion
      if failed {
        return Refused(Failed), begun, swept;
      }
      Create(next, stored.user, f);
      spent := spent + {jti};
      return Issued(next), begun, swept;
    }

    method LogOut(jti: Jti) returns (outcome: Outcome)
      requires rows.Keys <= family.Keys
      modifies this
      ensures outcome == Refused(Failed) ==> State() == old(State())
      ensures outcome != Refused(Failed) ==> (State(), outcome) == After(old(State()), Call.LogOut(jti))
      ensures outcome == Refused(Failed) <==> faults > old(faults)
    {
      var failed := Fails();
      if failed {
        return Refused(Failed);
      }
      if jti !in rows {
        return Refused(InvalidToken);
      }
      if rows[jti].revoked {
        return Refused(TokenRevoked);
      }
      Revoke(jti);
      return Done;
    }

    /** The last statement of ExecutePasswordReset's transaction; a failure rolls the reset back. */
    method Reset(user: User) returns (outcome: Outcome)
      requires rows.Keys <= family.Keys
      modifies this
      ensures outcome == Refused(Failed) ==> State() == old(State())
      ensures outcome != Refused(Failed) ==> (State(), outcome) == After(old(State()), Call.Reset(user))
      ensures outcome == Refused(Failed) <==> faults > old(faults)
    {
      var ok := RevokeAllByUserID(user);
      if !ok {
        return Refused(Failed);
      }
      return Done;
    }
  }

  // ----- What every history keeps -----

  /** Tokens are numbered by families; only a family's newest token can be unrevoked; spent tokens are revoked. */
  predicate Valid(l: Ledger) {
    && l.family.Keys == l.rows.Keys
    && (forall j :: j in l.rows ==> l.family[j] in l.newest)
    && (forall f :: f in l.newest ==> l.newest[f] in l.rows && l.family[l.newest[f]] == f)
    && (forall j :: j in l.rows && !l.rows[j].revoked ==> l.newest[l.family[j]] == j)
    && (forall j :: j in l.spent ==> j in l.rows && l.rows[j].revoked)
    && (forall i, j :: i in l.rows && j in l.rows && l.family[i] == l.family[j] ==> l.rows[i].user == l.rows[j].user)
  }

  lemma RevokingKeepsValid(l: Ledger, rows: map<Jti, Row>)
    requires Valid(l) && rows.Keys == l.rows.Keys
    requires forall j :: j in rows ==> rows[j].user == l.rows[j].user && (l.rows[j].revoked ==> rows[j].revoked)
    ensures Valid(l.(rows := rows))
  {
  }

  lemma FirstTokenKeepsValid(l: Ledger, jti: Jti, user: User, f: Family)
    requires Valid(l) && jti !in l.rows && f !in l.newest
    ensures Valid(Inserted(l, jti, user, f))
  {
  }

  /** The successor takes the place of its family's newest token, which is revoked by then. */
  lemma SuccessorKeepsValid(l: Ledger, jti: Jti, next: Jti)
    requires Valid(l) && jti in l.rows && l.rows[jti].revoked && next !in l.rows && l.newest[l.family[jti]] == jti
    ensures Valid(Inserted(l, next, l.rows[jti].user, l.family[jti]).(spent := l.spent + {jti}))
  {
    var l' := Inserted(l, next, l.rows[jti].user, l.family[jti]);
    forall j | j in l'.rows && !l'.rows[j].revoked ensures l'.newest[l'.family[j]] == j {
      if j != next { assert l.newest[l.family[j]] == j; }
    }
  }

  lemma RefreshKeepsValid(l: Ledger, jti: Jti, next: Jti, swept: bool, completed: bool)
    requires Valid(l) && next !in l.rows
    ensures Valid(AfterRefresh(l, jti, next, swept, completed).0)
  {
    if jti in l.rows {
      if l.rows[jti].revoked {
        RevokingKeepsValid(l, RevokedAll(l.rows, l.rows[jti].user));
      } else {
        RevokingKeepsValid(l, Revoked(l.rows, jti));
        SuccessorKeepsValid(l.(rows := Revoked(l.rows, jti)), jti, next);
      }
    }
  }

  lemma CallKeepsValid(l: Ledger, c: Call)
    requires Valid(l) && Enabled(l, c)
    ensures Valid(After(l, c).0)
  {
    match c
    case LogIn(user, next, f) => FirstTokenKeepsValid(l, next, user, f);
    case Refresh(jti, next, swept, completed) => RefreshKeepsValid(l, jti, next, swept, completed);
    case LogOut(jti) => RevokingKeepsValid(l, Revoked(l.rows, jti));
    case Reset(user) => RevokingKeepsValid(l, RevokedAll(l.rows, user));
  }

  ghost predicate IsHistory(ls: seq<Ledger>, cs: seq<Call>) {
    && |ls| == |cs| + 1 && ls[0] == Ledger(map[], map[], map[], {})
    && forall i: nat :: i < |cs| ==> CallAt(ls, cs, i)
  }

  predicate CallAt(ls: seq<Ledger>, cs: seq<Call>, i: nat)
    requires |ls| == |cs| + 1 && i < |cs|
  {
    ls[i].rows.Keys <= ls[i].family.Keys && Enabled(ls[i], cs[i]) && ls[i + 1] == After(ls[i], cs[i]).0
  }

  lemma {:induction false} HistoryValid(ls: seq<Ledger>, cs: seq<Call>, i: nat)
    requires IsHistory(ls, cs) && i < |ls|
    ensures Valid(ls[i])
  {
    if i > 0 {
      HistoryValid(ls, cs, i - 1);
      assert CallAt(ls, cs, i - 1);
      CallKeepsValid(ls[i - 1], cs[i - 1]);
    }
  }

  /** In every history a family has at most one unrevoked token, its newest. */
  lemma OneLiveTokenPerFamily(ls: seq<Ledger>, cs: seq<Call>, i: nat, j: Jti, k: Jti)
    requires IsHistory(ls, cs) && i < |ls|
    requires j in ls[i].rows && k in ls[i].rows && !ls[i].rows[j].revoked && !ls[i].rows[k].revoked
    ensures j in ls[i].family && k in ls[i].family && ls[i].family[j] in ls[i].newest
    ensures ls[i].newest[ls[i].family[j]] == j
    ensures ls[i].family[j] == ls[i].family[k] ==> j == k
  {
    HistoryValid(ls, cs, i);
  }

  /** Tokens are never forgotten, and revocation is final. */
  lemma {:induction false} RevocationIsFinal(ls: seq<Ledger>, cs: seq<Call>, i: nat, k: nat, j: Jti)
    requires IsHistory(ls, cs) && i <= k < |ls| && j in ls[i].rows
    ensures j in ls[k].rows && ls[k].rows[j].user == ls[i].rows[j].user
    ensures ls[i].rows[j].revoked ==> ls[k].rows[j].revoked
    ensures j in ls[i].spent ==> j in ls[k].spent
  {
    if i < k {
      RevocationIsFinal(ls, cs, i, k - 1, j);
      assert CallAt(ls, cs, k - 1);
    }
  }

  predicate Exchanges(l: Ledger, c: Call, j: Jti)
    requires l.rows.Keys <= l.family.Keys
  {
    c.Refresh? && c.jti == j && After(l, c).1.Issued?
  }

  /** Each refresh token is exchanged for a new pair at most once, and never after it was revoked. */
  lemma ExchangedAtMostOnce(ls: seq<Ledger>, cs: seq<Call>, i: nat, k: nat, j: Jti)
    requires IsHistory(ls, cs) && i < k < |cs|
    requires CallAt(ls, cs, i) && CallAt(ls, cs, k) && Exchanges(ls[i], cs[i], j)
    ensures !Exchanges(ls[k], cs[k], j)
  {
    HistoryValid(ls, cs, i + 1);
    RevocationIsFinal(ls, cs, i + 1, k, j);
  }

  /** The user holds no token the server would accept. */
  predicate SignedOut(l: Ledger, user: User) {
    forall j :: j in l.rows && l.rows[j].user == user ==> l.rows[j].revoked
  }

  /** The call revoked everything the user had: a committed reset, or a detected reuse whose sweep went through. */
  predicate EndsSessions(l: Ledger, c: Call, user: User) {
    match c
    case Reset(u) => u == user
    case Refresh(j, _, swept, _) => j in l.rows && l.rows[j].revoked && l.rows[j].user == user && swept
    case _ => false
  }

  /** After reuse detection or a password reset the user holds no live token until the next login. */
  lemma {:induction false} SignedOutUntilLogin(ls: seq<Ledger>, cs: seq<Call>, i: nat, k: nat, user: User)
    requires IsHistory(ls, cs) && i < k < |ls| && EndsSessions(ls[i], cs[i], user)
    requires forall n :: i < n < k ==> !(cs[n].LogIn? && cs[n].user == user)
    ensures SignedOut(ls[k], user)
  {
    assert CallAt(ls, cs, k - 1);
    if i < k - 1 {
      SignedOutUntilLogin(ls, cs, i, k - 1, user);
    }
  }

  /** The sweep is what counts: where its statement failed, the other sessions stay alive. */
  lemma FailedSweepLeavesSessions(l: Ledger, j: Jti, next: Jti, swept: bool, completed: bool)
    requires Valid(l) && j in l.rows && l.rows[j].revoked
    ensures var l' := After(l, Refresh(j, next, swept, completed)).0;
            SignedOut(l', l.rows[j].user) <==> swept || SignedOut(l, l.rows[j].user)
  {
  }

  // ----- What an answer is worth -----

  /** A history with the answer to each call. */
  ghost predicate IsAnswered(ls: seq<Ledger>, cs: seq<Call>, outs: seq<Outcome>) {
    && IsHistory(ls, cs) && |outs| == |cs|
    && forall i: nat :: i < |cs| ==> AnsweredAt(ls, cs, outs, i)
  }

  predicate AnsweredAt(ls: seq<Ledger>, cs: seq<Call>, outs: seq<Outcome>, i: nat)
    requires |ls| == |cs| + 1 == |outs| + 1 && i < |cs|
  {
    CallAt(ls, cs, i) && (ls[i + 1], outs[i]) == After(ls[i], cs[i])
  }

  /** An issued token is new, stored and live, of the user and the login it continues. */
  lemma IssuedTokenIsLive(ls: seq<Ledger>, cs: seq<Call>, outs: seq<Outcome>, i: nat)
    requires IsAnswered(ls, cs, outs) && i < |cs| && outs[i].Issued?
    ensures var t, l, l' := outs[i].jti, ls[i], ls[i + 1];
            && t !in l.rows && t in l'.rows && t in l'.family && !l'.rows[t].revoked
            && (cs[i].LogIn? ==> l'.rows[t].user == cs[i].user && l'.family[t] == cs[i].family)
            && (cs[i].Refresh? ==>
                  && cs[i].jti in l.rows && cs[i].jti in l.family
                  && l'.rows[t].user == l.rows[cs[i].jti].user && l'.family[t] == l.family[cs[i].jti])
            && (cs[i].LogIn? || cs[i].Refresh?)
  {
    assert AnsweredAt(ls, cs, outs, i);
    HistoryValid(ls, cs, i);
  }

  /** Each call's answer, told from the row it presents; a login always issues. */
  lemma AnswerFollowsRow(ls: seq<Ledger>, cs: seq<Call>, outs: seq<Outcome>, i: nat)
    requires IsAnswered(ls, cs, outs) && i < |cs|
    ensures var l, l' := ls[i], ls[i + 1];
            match cs[i]
            case LogIn(_, next, _) => outs[i] == Issued(next)
            case Refresh(j, next, _, completed) =>
              && (j !in l.rows <==> outs[i] == Refused(InvalidToken))
              && (j in l.rows && l.rows[j].revoked <==> outs[i] == Refused(TokenRevoked))
              && (j in l.rows && !l.rows[j].revoked && completed <==> outs[i] == Issued(next))
              && (outs[i].Issued? ==> j in l'.rows && l'.rows[j].revoked)
            case LogOut(j) =>
              && (j !in l.rows <==> outs[i] == Refused(InvalidToken))
              && (j in l.rows && l.rows[j].revoked <==> outs[i] == Refused(TokenRevoked))
              && (j in l.rows && !l.rows[j].revoked <==> outs[i] == Done)
            case Reset(_) => outs[i] == Done
  {
    assert AnsweredAt(ls, cs, outs, i);
  }

  predicate Live(l: Ledger, j: Jti) {
    j in l.rows && !l.rows[j].revoked
  }

  /** The call uses the token up, or ends all its user's sessions: by a reset or a detected reuse. */
  predicate Ends(l: Ledger, c: Call, j: Jti)
    requires j in l.rows
  {
    match c
    case LogIn(_, _, _) => false
    case Refresh(k, _, swept, _) =>
      k == j || (k in l.rows && l.rows[k].revoked && swept && l.rows[k].user == l.rows[j].user)
    case LogOut(k) => k == j
    case Reset(user) => user == l.rows[j].user
  }

  lemma LiveAfter(ls: seq<Ledger>, cs: seq<Call>, i: nat, j: Jti)
    requires IsHistory(ls, cs) && i < |cs| && j in ls[i].rows
    ensures j in ls[i + 1].rows
    ensures Live(ls[i + 1], j) <==> Live(ls[i], j) && !Ends(ls[i], cs[i], j)
  {
    assert CallAt(ls, cs, i);
  }

  /** Once stored, a live token stays live exactly as long as no call ends it. */
  lemma {:induction false} LiveUntilEnded(ls: seq<Ledger>, cs: seq<Call>, i: nat, k: nat, j: Jti)
    requires IsHistory(ls, cs) && i <= k < |ls| && Live(ls[i], j)
    ensures forall n :: i <= n <= k ==> j in ls[n].rows
    ensures Live(ls[k], j) <==> forall n :: i <= n < k ==> !Ends(ls[n], cs[n], j)
  {
    if i < k {
      LiveUntilEnded(ls, cs, i, k - 1, j);
      LiveAfter(ls, cs, k - 1, j);
    }
  }
}
