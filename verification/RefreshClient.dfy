/**
 One browser tab composed with the server of `RefreshServer`: any number of API calls, their answers in
 any order, refresh answers that may get lost, logins at any time. A logout, a password reset, a page
 reload or another tab while a refresh is under way are not part of this composition.
 */
module RefreshClient {
  import opened Prelude
  import opened RefreshServer

  /** The promise made by `doRefresh`. */
  datatype Promise = Fetching(token: Token) | Settled(ok: bool)

  /** Where an API call is: its first fetch, waiting for a refresh, its second fetch, or over. */
  datatype Progress = First | Waiting(promise: nat, leader: bool) | Retrying | Over

  datatype Call = Call(progress: Progress, fetches: nat)

  datatype Tab = Tab(token: Option<Token>, current: Option<nat>, promises: map<nat, Promise>, calls: map<nat, Call>)

  // ----- The code between two awaits, as functions of the tab -----

  function Move(tab: Tab, c: nat, to: Progress): Tab
    requires c in tab.calls
  {
    tab.(calls := tab.calls[c := tab.calls[c].(progress := to)])
  }

  /** refreshAccessToken up to its await: join the promise under way, or start one under the unused name `p`. */
  function JoinOrStart(tab: Tab, c: nat, p: nat): Tab
    requires c in tab.calls
  {
    if tab.current.Some? then Move(tab, c, Waiting(tab.current.value, false))
    else
      var promise := if tab.token.Some? then Fetching(tab.token.value) else Settled(false);
      Move(tab.(current := Some(p), promises := tab.promises[p := promise]), c, Waiting(p, true))
  }

  /** doRefresh after its fetch: store the new token, or clear the store on any failure. */
  function Settle(tab: Tab, p: nat, answer: Option<Token>): Tab {
    tab.(token := answer, promises := tab.promises[p := Settled(answer.Some?)])
  }

  /** refreshAccessToken after its await and apiClient after that: fetch once more, or give up. */
  function Resume(tab: Tab, c: nat): Tab
    requires c in tab.calls && tab.calls[c].progress.Waiting? && tab.calls[c].progress.promise in tab.promises
  {
    var call, ok := tab.calls[c], tab.promises[tab.calls[c].progress.promise] == Settled(true);
    tab.(current := if call.progress.leader then None else tab.current,
         calls := tab.calls[c := if ok then Call(Retrying, call.fetches + 1) else call.(progress := Over)])
  }

  /** The module state of `client.ts` and the auth store, changed in place by the code between awaits. */
  class Browser {
    var refreshToken: Option<Token>
    var refreshPromise: Option<nat>
    var promises: map<nat, Promise>
    var calls: map<nat, Call>

    constructor (restored: Option<Token>)
      ensures State() == Tab(restored, None, map[], map[])
    {
      refreshToken, refreshPromise, promises, calls := restored, None, map[], map[];
    }

    function State(): Tab
      reads this
    {
      Tab(refreshToken, refreshPromise, promises, calls)
    }

    method SetTokens(refresh: Token)
      modifies this`refreshToken
      ensures refreshToken == Some(refresh)
    {
      refreshToken := Some(refresh);
    }

    method ClearTokens()
      modifies this`refreshToken
      ensures refreshToken == None
    {
      refreshToken := None;
    }

    /** doRefresh up to its fetch; `sent` is the token posted, if any. */
    method StartRefresh(p: nat) returns (sent: Option<Token>)
      modifies this`refreshToken, this`promises
      ensures sent == old(refreshToken) == refreshToken
      ensures promises == old(promises)[p := if sent.Some? then Fetching(sent.value) else Settled(false)]
    {
      sent := refreshToken;
      if sent.None? {
        ClearTokens();
        promises := promises[p := Settled(false)];
      } else {
        promises := promises[p := Fetching(sent.value)];
      }
    }

    method RefreshAccessToken(c: nat, p: nat) returns (sent: Option<Token>)
      requires c in calls
      modifies this
      ensures State() == JoinOrStart(old(State()), c, p)
      ensures sent == if old(refreshPromise).Some? then None else old(refreshToken)
    {
      if refreshPromise.Some? {
        calls := calls[c := calls[c].(progress := Waiting(refreshPromise.value, false))];
        return None;
      }
      sent := StartRefresh(p);
      refreshPromise := Some(p);
      calls := calls[c := calls[c].(progress := Waiting(p, true))];
    }

    method FinishRefresh(p: nat, answer: Option<Token>)
      modifies this
      ensures State() == Settle(old(State()), p, answer)
    {
      if answer.None? {
        ClearTokens();
        promises := promises[p := Settled(false)];
      } else {
        SetTokens(answer.value);
        promises := promises[p := Settled(true)];
      }
    }

    method ContinueCall(c: nat)
      requires c in calls && calls[c].progress.Waiting? && calls[c].progress.promise in promises
      modifies this
      ensures State() == Resume(old(State()), c)
    {
      var refreshed := promises[calls[c].progress.promise] == Settled(true);
      if calls[c].progress.leader {
        refreshPromise := None;
      }
      if !refreshed {
        calls := calls[c := calls[c].(progress := Over)];
        return;
      }
      calls := calls[c := Call(Retrying, calls[c].fetches + 1)];
    }
  }

  // ----- The composition -----

  datatype World = World(tab: Tab, server: Server)

  datatype Action =
    | Start(call: nat)
    | Answered(call: nat)                    // any answer but a 401 that calls for a refresh
    | Unauthorized(call: nat, promise: nat)
    | Serve(event: Event)                    // a step of the server, orphaned exchanges included
    | Deliver(promise: nat)                  // the answer to a refresh arrives
    | Lose(promise: nat)                     // the refresh fetch fails
    | Continue(call: nat)
    | LogIn(next: Token)

  predicate InProgress(tab: Tab, c: nat, p: Progress) {
    c in tab.calls && tab.calls[c].progress == p
  }

  predicate IsFetching(tab: Tab, p: nat) {
    p in tab.promises && tab.promises[p].Fetching?
  }

  ghost predicate Next(w: World, a: Action, w': World) {
    match a
    case Start(c) => c !in w.tab.calls && w' == w.(tab := w.tab.(calls := w.tab.calls[c := Call(First, 1)]))
    case Answered(c) =>
      (InProgress(w.tab, c, First) || InProgress(w.tab, c, Retrying)) && w' == w.(tab := Move(w.tab, c, Over))
    case Unauthorized(c, p) =>
      && InProgress(w.tab, c, First) && p !in w.tab.promises && p !in w.server.exchanges
      && w'.tab == JoinOrStart(w.tab, c, p)
      && if w.tab.current.None? && w.tab.token.Some? then Step(w.server, Arrive(p, w.tab.token.value), w'.server)
         else w'.server == w.server
    case Serve(e) =>
      (e.Check? || e.Revoke? || e.Create? || e.Abort? || e.Login?) && Step(w.server, e, w'.server) && w'.tab == w.tab
    case Deliver(p) =>
      && IsFetching(w.tab, p) && p in w.server.exchanges && w.server.exchanges[p].stage.Finished?
      && w' == w.(tab := Settle(w.tab, p, w.server.exchanges[p].stage.issued))
    case Lose(p) => IsFetching(w.tab, p) && w' == w.(tab := Settle(w.tab, p, None))
    case Continue(c) =>
      && c in w.tab.calls && w.tab.calls[c].progress.Waiting?
      && var p := w.tab.calls[c].progress.promise;
         p in w.tab.promises && w.tab.promises[p].Settled? && w' == w.(tab := Resume(w.tab, c))
    case LogIn(next) => Step(w.server, Login(next), w'.server) && w'.tab == w.tab.(token := Some(next))
  }

  predicate Init(w: World) {
    && w.tab.current.None? && w.tab.promises == map[] && w.tab.calls == map[] && w.server.exchanges == map[]
    && (w.tab.token.Some? ==> w.tab.token.value in w.server.revoked && !w.server.revoked[w.tab.token.value])
  }

  ghost predicate Follows(w: World, w': World) {
    exists a :: Next(w, a, w')
  }

  ghost predicate NextAt(ws: seq<World>, i: nat)
    requires i + 1 < |ws|
  {
    Follows(ws[i], ws[i + 1])
  }

  ghost predicate IsRunOfTab(ws: seq<World>) {
    && ws != [] && Init(ws[0])
    && forall i: nat :: i + 1 < |ws| ==> NextAt(ws, i)
  }

  // ----- The invariant -----

  /** No exchange has presented the token, and the server still accepts it. */
  predicate Unspent(s: Server, t: Token) {
    && t in s.revoked && !s.revoked[t]
    && (forall id :: id in s.exchanges ==> s.exchanges[id].token != t)
  }

  predicate ExchangeOk(s: Server, x: Exchange) {
    x.token in s.revoked && (x.stage == Arrived ==> !s.revoked[x.token])
  }

  predicate ServerOk(s: Server) {
    && (forall id :: id in s.exchanges ==> ExchangeOk(s, s.exchanges[id]))
    && (forall i, j :: i in s.exchanges && j in s.exchanges && s.exchanges[i].token == s.exchanges[j].token ==> i == j)
  }

  /** A promise still fetching is the current one, and its exchange, once answered, brings an unspent token. */
  predicate PromiseOk(w: World, p: nat) {
    IsFetching(w.tab, p) ==>
      && w.tab.current == Some(p)
      && p in w.server.exchanges && w.server.exchanges[p].token == w.tab.promises[p].token
      && var stage := w.server.exchanges[p].stage;
         (stage.Finished? && stage.issued.Some? ==> Unspent(w.server, stage.issued.value))
  }

  /** The stored token is unspent, or it is the one being exchanged. */
  predicate TokenOk(w: World) {
    w.tab.token.Some? ==>
      || Unspent(w.server, w.tab.token.value)
      || (w.tab.current.Some? && w.tab.current.value in w.tab.promises
          && w.tab.promises[w.tab.current.value] == Fetching(w.tab.token.value))
  }

  predicate IsLeader(tab: Tab, c: nat) {
    c in tab.calls && tab.calls[c].progress.Waiting? && tab.calls[c].progress.leader
  }

  predicate CallOk(tab: Tab, c: nat)
    requires c in tab.calls
  {
    match tab.calls[c].progress
    case First => tab.calls[c].fetches == 1
    case Waiting(p, leader) => tab.calls[c].fetches == 1 && p in tab.promises && (leader ==> tab.current == Some(p))
    case Retrying => tab.calls[c].fetches == 2
    case Over => 1 <= tab.calls[c].fetches <= 2
  }

  ghost predicate TabOk(tab: Tab) {
    && (forall c :: c in tab.calls ==> CallOk(tab, c))
    && (forall c, d :: IsLeader(tab, c) && IsLeader(tab, d) ==> c == d)
    && (tab.current.Some? ==> tab.current.value in tab.promises && exists c :: IsLeader(tab, c))
  }

  ghost predicate WorldOk(w: World) {
    && TabOk(w.tab) && ServerOk(w.server) && TokenOk(w)
    && forall p :: p in w.tab.promises ==> PromiseOk(w, p)
  }

  lemma UnspentStays(s: Server, e: Event, s': Server, t: Token)
    requires ServerOk(s) && Step(s, e, s') && Unspent(s, t)
    requires e.Check? || e.Revoke? || e.Create? || e.Abort? || e.Login?
    ensures Unspent(s', t)
  {
  }

  lemma ServerStepKeepsOk(s: Server, e: Event, s': Server)
    requires ServerOk(s) && Step(s, e, s')
    requires e.Check? || e.Revoke? || e.Create? || e.Abort? || e.Login?
    ensures ServerOk(s') && s'.exchanges.Keys == s.exchanges.Keys
    ensures forall id :: id in s.exchanges ==> s'.exchanges[id].token == s.exchanges[id].token
  {
    forall id | id in s'.exchanges ensures ExchangeOk(s', s'.exchanges[id]) {
      assert ExchangeOk(s, s.exchanges[id]);
    }
  }

  lemma ServeKeepsOk(w: World, e: Event, w': World)
    requires WorldOk(w) && Next(w, Serve(e), w')
    ensures WorldOk(w')
  {
    ServerStepKeepsOk(w.server, e, w'.server);
    if w.tab.token.Some? && Unspent(w.server, w.tab.token.value) {
      UnspentStays(w.server, e, w'.server, w.tab.token.value);
    }
    forall p | p in w'.tab.promises ensures PromiseOk(w', p) {
      assert PromiseOk(w, p);
      if IsFetching(w.tab, p) {
        var stage := w.server.exchanges[p].stage;
        if stage.Finished? && stage.issued.Some? {
          UnspentStays(w.server, e, w'.server, stage.issued.value);
        }
      }
    }
  }

  lemma SettleKeepsOk(w: World, p: nat, answer: Option<Token>, w': World)
    requires WorldOk(w) && IsFetching(w.tab, p) && (answer.Some? ==> Unspent(w.server, answer.value))
    requires w' == w.(tab := Settle(w.tab, p, answer))
    ensures WorldOk(w')
  {
    forall c | c in w'.tab.calls ensures CallOk(w'.tab, c) { assert CallOk(w.tab, c); }
    forall c ensures IsLeader(w'.tab, c) <==> IsLeader(w.tab, c) { }
    assert PromiseOk(w, p);
    forall q | q in w'.tab.promises ensures PromiseOk(w', q) { assert q == p || PromiseOk(w, q); }
    if w.tab.current.Some? {
      var c :| IsLeader(w.tab, c);
      assert IsLeader(w'.tab, c);
    }
  }

  lemma MoveKeepsTabOk(tab: Tab, c: nat)
    requires TabOk(tab) && (InProgress(tab, c, First) || InProgress(tab, c, Retrying))
    ensures TabOk(Move(tab, c, Over))
  {
    var tab' := Move(tab, c, Over);
    assert CallOk(tab, c);
    forall d | d in tab'.calls ensures CallOk(tab', d) { assert CallOk(tab, d); }
    forall d ensures IsLeader(tab', d) <==> IsLeader(tab, d) { }
    if tab.current.Some? {
      var d :| IsLeader(tab, d);
      assert IsLeader(tab', d);
    }
  }

  lemma StartKeepsTabOk(tab: Tab, c: nat)
    requires TabOk(tab) && c !in tab.calls
    ensures TabOk(tab.(calls := tab.calls[c := Call(First, 1)]))
  {
    var tab' := tab.(calls := tab.calls[c := Call(First, 1)]);
    forall d | d in tab'.calls ensures CallOk(tab', d) { if d != c { assert CallOk(tab, d); } }
    forall d ensures IsLeader(tab', d) <==> IsLeader(tab, d) { }
    if tab.current.Some? {
      var d :| IsLeader(tab, d);
      assert IsLeader(tab', d);
    }
  }

  lemma JoinKeepsTabOk(tab: Tab, c: nat, p: nat)
    requires TabOk(tab) && InProgress(tab, c, First) && p !in tab.promises
    ensures TabOk(JoinOrStart(tab, c, p))
  {
    var tab' := JoinOrStart(tab, c, p);
    assert CallOk(tab, c);
    forall d | d in tab'.calls ensures CallOk(tab', d) { assert CallOk(tab, d); }
    if tab.current.Some? {
      forall d ensures IsLeader(tab', d) <==> IsLeader(tab, d) { }
      var d :| IsLeader(tab, d);
      assert IsLeader(tab', d);
    } else {
      forall d ensures IsLeader(tab', d) <==> d == c { if d in tab.calls { assert CallOk(tab, d); } }
      assert IsLeader(tab', c);
    }
  }

  lemma ResumeKeepsTabOk(tab: Tab, c: nat)
    requires TabOk(tab) && c in tab.calls && tab.calls[c].progress.Waiting?
    ensures tab.calls[c].progress.promise in tab.promises && TabOk(Resume(tab, c))
  {
    assert CallOk(tab, c);
    var tab' := Resume(tab, c);
    forall d ensures IsLeader(tab', d) <==> IsLeader(tab, d) && d != c { }
    forall d | d in tab'.calls ensures CallOk(tab', d) {
      assert CallOk(tab, d);
      if IsLeader(tab, c) && d != c { assert !IsLeader(tab, d); }
    }
    if tab'.current.Some? {
      var d :| IsLeader(tab, d);
      assert IsLeader(tab', d);
    }
  }

  /** Sending the stored token: nothing is being fetched then, so it is unspent. */
  lemma SendKeepsServerOk(w: World, p: nat, s': Server)
    requires WorldOk(w) && w.tab.current.None? && w.tab.token.Some? && p !in w.server.exchanges
    requires Step(w.server, Arrive(p, w.tab.token.value), s')
    ensures Unspent(w.server, w.tab.token.value) && ServerOk(s')
  {
    forall id | id in s'.exchanges ensures ExchangeOk(s', s'.exchanges[id]) {
      if id != p { assert ExchangeOk(w.server, w.server.exchanges[id]); }
    }
  }

  lemma UnauthorizedKeepsOk(w: World, c: nat, p: nat, w': World)
    requires WorldOk(w) && Next(w, Unauthorized(c, p), w')
    ensures WorldOk(w')
  {
    JoinKeepsTabOk(w.tab, c, p);
    if w.tab.current.None? && w.tab.token.Some? { SendKeepsServerOk(w, p, w'.server); }
    forall q | q in w'.tab.promises ensures PromiseOk(w', q) { if q in w.tab.promises { assert PromiseOk(w, q); } }
  }

  lemma ContinueKeepsOk(w: World, c: nat, w': World)
    requires WorldOk(w) && Next(w, Continue(c), w')
    ensures WorldOk(w')
  {
    ResumeKeepsTabOk(w.tab, c);
    assert CallOk(w.tab, c);
    forall q | q in w'.tab.promises ensures PromiseOk(w', q) { assert PromiseOk(w, q); }
  }

  lemma LogInKeepsOk(w: World, next: Token, w': World)
    requires WorldOk(w) && Next(w, LogIn(next), w')
    ensures WorldOk(w')
  {
    ServerStepKeepsOk(w.server, Login(next), w'.server);
    forall c | c in w'.tab.calls ensures CallOk(w'.tab, c) { assert CallOk(w.tab, c); }
    forall c ensures IsLeader(w'.tab, c) <==> IsLeader(w.tab, c) { }
    if w.tab.current.Some? {
      var c :| IsLeader(w.tab, c);
      assert IsLeader(w'.tab, c);
    }
    forall p | p in w'.tab.promises ensures PromiseOk(w', p) {
      assert PromiseOk(w, p);
      if IsFetching(w.tab, p) {
        var stage := w.server.exchanges[p].stage;
        if stage.Finished? && stage.issued.Some? {
          UnspentStays(w.server, Login(next), w'.server, stage.issued.value);
        }
      }
    }
    forall id | id in w.server.exchanges ensures w.server.exchanges[id].token != next {
      assert ExchangeOk(w.server, w.server.exchanges[id]);
    }
  }

  lemma NextKeepsOk(w: World, a: Action, w': World)
    requires WorldOk(w) && Next(w, a, w')
    ensures WorldOk(w')
  {
    match a
    case Start(c) =>
      StartKeepsTabOk(w.tab, c);
      forall p | p in w'.tab.promises ensures PromiseOk(w', p) { assert PromiseOk(w, p); }
    case Answered(c) =>
      MoveKeepsTabOk(w.tab, c);
      forall p | p in w'.tab.promises ensures PromiseOk(w', p) { assert PromiseOk(w, p); }
    case Unauthorized(c, p) => UnauthorizedKeepsOk(w, c, p, w');
    case Serve(e) => ServeKeepsOk(w, e, w');
    case Deliver(p) =>
      assert PromiseOk(w, p);
      SettleKeepsOk(w, p, w.server.exchanges[p].stage.issued, w');
    case Lose(p) => SettleKeepsOk(w, p, None, w');
    case Continue(c) => ContinueKeepsOk(w, c, w');
    case LogIn(next) => LogInKeepsOk(w, next, w');
  }

  lemma {:induction false} RunKeepsOk(ws: seq<World>, i: nat)
    requires IsRunOfTab(ws) && i < |ws|
    ensures WorldOk(ws[i])
  {
    if i > 0 {
      RunKeepsOk(ws, i - 1);
      assert NextAt(ws, i - 1);
      var a :| Next(ws[i - 1], a, ws[i]);
      NextKeepsOk(ws[i - 1], a, ws[i]);
    }
  }

  // ----- What the single promise buys -----

  /** In every run at most one refresh is under way. */
  lemma OneRefreshAtATime(ws: seq<World>, i: nat, p: nat, q: nat)
    requires IsRunOfTab(ws) && i < |ws|
    requires IsFetching(ws[i].tab, p) && IsFetching(ws[i].tab, q)
    ensures p == q
  {
    RunKeepsOk(ws, i);
    assert PromiseOk(ws[i], p) && PromiseOk(ws[i], q);
  }

  /**
   No refresh token is ever presented twice, and a presented token is not revoked when the server comes to
   read its row, however long that takes: the reuse branch is unreachable.
   */
  lemma NoTokenIsReused(ws: seq<World>, i: nat)
    requires IsRunOfTab(ws) && i < |ws|
    ensures var xs := ws[i].server.exchanges;
            && (forall p, q :: p in xs && q in xs && p != q ==> xs[p].token != xs[q].token)
            && (forall p :: At(ws[i].server, p, Arrived) ==>
                  xs[p].token in ws[i].server.revoked && !IsReuse(ws[i].server, p))
  {
    RunKeepsOk(ws, i);
    forall p | At(ws[i].server, p, Arrived)
      ensures ws[i].server.exchanges[p].token in ws[i].server.revoked && !IsReuse(ws[i].server, p)
    {
      assert ExchangeOk(ws[i].server, ws[i].server.exchanges[p]);
    }
  }

  /** When the tab sends its refresh token, the server still accepts it and has never seen it. */
  lemma SentTokenIsUnspent(ws: seq<World>, i: nat, c: nat, p: nat)
    requires IsRunOfTab(ws) && i + 1 < |ws| && Next(ws[i], Unauthorized(c, p), ws[i + 1])
    requires p in ws[i + 1].server.exchanges
    ensures ws[i].tab.token.Some? && ws[i + 1].server.exchanges[p].token == ws[i].tab.token.value
    ensures Unspent(ws[i].server, ws[i].tab.token.value)
  {
    RunKeepsOk(ws, i);
  }

  /** No call fetches its own path more than twice. */
  lemma AtMostTwoFetches(ws: seq<World>, i: nat, c: nat)
    requires IsRunOfTab(ws) && i < |ws| && c in ws[i].tab.calls
    ensures 1 <= ws[i].tab.calls[c].fetches <= 2
  {
    RunKeepsOk(ws, i);
    assert CallOk(ws[i].tab, c);
  }

  /** No call is stuck: what it waits for is settled, or is the refresh under way, which can still be answered. */
  lemma WaitingCallsCanContinue(ws: seq<World>, i: nat, c: nat)
    requires IsRunOfTab(ws) && i < |ws| && c in ws[i].tab.calls && ws[i].tab.calls[c].progress.Waiting?
    ensures var tab, p := ws[i].tab, ws[i].tab.calls[c].progress.promise;
            && p in tab.promises
            && (tab.promises[p].Settled? || (tab.current == Some(p) && p in ws[i].server.exchanges))
  {
    RunKeepsOk(ws, i);
    assert CallOk(ws[i].tab, c);
    assert PromiseOk(ws[i], ws[i].tab.calls[c].progress.promise);
  }

  // ----- What becomes of a call -----

  ghost predicate ActsAt(ws: seq<World>, acts: seq<Action>, i: nat)
    requires |ws| == |acts| + 1 && i < |acts|
  {
    Next(ws[i], acts[i], ws[i + 1])
  }

  /** A run with the action of each step. */
  ghost predicate IsTrace(ws: seq<World>, acts: seq<Action>) {
    && |ws| == |acts| + 1 && Init(ws[0])
    && forall i: nat :: i < |acts| ==> ActsAt(ws, acts, i)
  }

  lemma TraceIsRun(ws: seq<World>, acts: seq<Action>)
    requires IsTrace(ws, acts)
    ensures IsRunOfTab(ws)
  {
    forall i: nat | i + 1 < |ws| ensures NextAt(ws, i) {
      assert ActsAt(ws, acts, i);
    }
  }

  /** A waiting call goes on as its refresh came out: it fetches once more, or is over after one fetch. */
  lemma ContinuedAsRefreshed(ws: seq<World>, i: nat, c: nat)
    requires IsRunOfTab(ws) && i + 1 < |ws| && Next(ws[i], Continue(c), ws[i + 1])
    ensures var tab, tab' := ws[i].tab, ws[i + 1].tab;
            && c in tab.calls && c in tab'.calls && tab.calls[c].progress.Waiting?
            && var p := tab.calls[c].progress.promise;
               && p in tab.promises && tab.promises[p].Settled?
               && (tab.promises[p].ok ==> tab'.calls[c] == Call(Retrying, 2))
               && (!tab.promises[p].ok ==> tab'.calls[c] == Call(Over, 1))
               && (forall d :: d in tab'.calls && d != c ==> d in tab.calls && tab'.calls[d] == tab.calls[d])
               && tab'.promises == tab.promises && tab'.token == tab.token && ws[i + 1].server == ws[i].server
               && (tab'.current == if IsLeader(tab, c) then None else tab.current)
  {
    RunKeepsOk(ws, i);
    assert CallOk(ws[i].tab, c);
  }

  /** A 401 makes the call wait: for the refresh under way, or for one of its own, which fails without a token. */
  lemma UnauthorizedWaits(ws: seq<World>, i: nat, c: nat, p: nat)
    requires IsRunOfTab(ws) && i + 1 < |ws| && Next(ws[i], Unauthorized(c, p), ws[i + 1])
    ensures var tab, tab' := ws[i].tab, ws[i + 1].tab;
            && c in tab'.calls && tab'.calls[c].fetches == 1
            && (tab.current.Some? ==>
                  && tab'.calls[c].progress == Waiting(tab.current.value, false)
                  && tab'.promises == tab.promises && tab'.current == tab.current)
            && (tab.current.None? ==>
                  && tab'.calls[c].progress == Waiting(p, true) && tab'.current == Some(p)
                  && p in tab'.promises
                  && (tab'.promises[p] == if tab.token.Some? then Fetching(tab.token.value) else Settled(false)))
  {
    RunKeepsOk(ws, i);
    assert CallOk(ws[i].tab, c);
  }

  /** The stored token is the last one issued or logged in with; any failed refresh clears it. */
  lemma TokenFollowsAnswers(ws: seq<World>, acts: seq<Action>, i: nat)
    requires IsTrace(ws, acts) && i < |acts|
    ensures match acts[i]
            case Deliver(p) =>
              && p in ws[i].server.exchanges && ws[i].server.exchanges[p].stage.Finished?
              && ws[i + 1].tab.token == ws[i].server.exchanges[p].stage.issued
            case Lose(_) => ws[i + 1].tab.token == None
            case LogIn(next) => ws[i + 1].tab.token == Some(next)
            case _ => ws[i + 1].tab.token == ws[i].tab.token
  {
    assert ActsAt(ws, acts, i);
  }

  /** The j-th action brings promise p a new token. */
  predicate Delivers(ws: seq<World>, acts: seq<Action>, j: nat, p: nat)
    requires |ws| == |acts| + 1
  {
    j < |acts| && acts[j] == Deliver(p) && Issued(ws[j].server, p)
  }

  lemma {:induction false} SettledTrueIffDelivered(ws: seq<World>, acts: seq<Action>, i: nat, p: nat)
    requires IsTrace(ws, acts) && i < |ws|
    ensures p in ws[i].tab.promises && ws[i].tab.promises[p] == Settled(true) <==>
            exists j :: 0 <= j < i && Delivers(ws, acts, j, p)
  {
    if i > 0 {
      SettledTrueIffDelivered(ws, acts, i - 1, p);
      assert ActsAt(ws, acts, i - 1);
      assert Delivers(ws, acts, i - 1, p) <==> acts[i - 1] == Deliver(p) && Issued(ws[i - 1].server, p);
    }
  }

  /** The k-th action continues the call after its refresh has brought a new token. */
  predicate ContinuesRefreshed(ws: seq<World>, acts: seq<Action>, k: nat, c: nat)
    requires |ws| == |acts| + 1
  {
    && k < |acts| && acts[k] == Continue(c) && c in ws[k].tab.calls && ws[k].tab.calls[c].progress.Waiting?
    && exists j :: 0 <= j < k && Delivers(ws, acts, j, ws[k].tab.calls[c].progress.promise)
  }

  lemma FetchesAfter(ws: seq<World>, acts: seq<Action>, i: nat, c: nat)
    requires IsTrace(ws, acts) && i < |acts|
    ensures c in ws[i + 1].tab.calls && ws[i + 1].tab.calls[c].fetches == 2 <==>
            (c in ws[i].tab.calls && ws[i].tab.calls[c].fetches == 2) || ContinuesRefreshed(ws, acts, i, c)
  {
    TraceIsRun(ws, acts);
    assert ActsAt(ws, acts, i);
    RunKeepsOk(ws, i);
    match acts[i]
    case Continue(d) =>
      ContinuedAsRefreshed(ws, i, d);
      SettledTrueIffDelivered(ws, acts, i, ws[i].tab.calls[d].progress.promise);
      if c == d { assert CallOk(ws[i].tab, c); }
    case _ =>
  }

  /** A call fetches a second time exactly when the refresh it waited for brought a new token before it went on. */
  lemma {:induction false} FetchesTwiceIffRefreshed(ws: seq<World>, acts: seq<Action>, i: nat, c: nat)
    requires IsTrace(ws, acts) && i < |ws|
    ensures c in ws[i].tab.calls && ws[i].tab.calls[c].fetches == 2 <==>
            exists k :: 0 <= k < i && ContinuesRefreshed(ws, acts, k, c)
  {
    if i > 0 {
      FetchesTwiceIffRefreshed(ws, acts, i - 1, c);
      FetchesAfter(ws, acts, i - 1, c);
    }
  }
}
