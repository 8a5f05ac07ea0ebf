/**
 Optimistic locking, step by step: any number of clients read one report and write it back later, their
 steps interleaved arbitrarily under READ COMMITTED.

 A transition or an edit is written by a statement guarded with the `updated_at` that was read. Item
 changes and deletion are not guarded. Every write moves `updated_at` to its transaction's `now()`;
 distinct transactions are assumed to get distinct `now()` stamps.
 */
module Locking {
  import opened Prelude
  import opened Domain
  import opened Tables
  import opened Persistence

  /** A request in progress: the row it read first, and the items if it has listed them since. */
  datatype Client = Idle | Reading(row: Report, items: Option<map<Uuid, Item>>)

  /** A report's committed row and its live items, the open requests, and the stamps used so far. */
  datatype State = State(report: Uuid, row: Report, items: map<Uuid, Item>, clients: map<nat, Client>, used: set<Time>)

  datatype Decision =
    | Submitting(hasApprover: bool)
    | Approving(comment: Option<string>)
    | Rejecting(reason: string)
    | Paying
    | Editing(title: string, start: Date, end: Date)

  datatype Event =
    | ReadRow(client: nat)
    | ReadItems(client: nat)
    | Decide(client: nat, actor: Uuid, decision: Decision, clock: Time, stamp: Time)
    | ChangeItems(client: nat, actor: Uuid, change: ItemChange, total: int, stamp: Time)
    | Delete(client: nat, actor: Uuid, erased: set<Uuid>, stamp: Time)

  /** A row stored is one of the report's, meets its constraints, and keeps its time of creation or gets one. */
  predicate Storable(s: State, change: ItemChange, stamp: Time) {
    change.Put? ==>
      && change.item.report == s.report && change.item.tenant == s.row.tenant
      && 0 < change.item.amount <= MAX_INT32 && change.item.deletedAt.None? && change.item.updatedAt == stamp
      && change.item.createdAt == if change.id in s.items then s.items[change.id].createdAt else stamp
  }

  /** What a service computes from the row, and for a submission the items, that it read. */
  ghost function Decided(read: Report, items: Option<map<Uuid, Item>>, actor: Uuid, d: Decision,
                         clock: Time): Result<Report>
  {
    match d
    case Submitting(hasApprover) =>
      if actor != read.owner then Err(Forbidden)
      else if items.None? then Err(Internal)
      else ToSubmitted(read, actor, |items.value|, Sum(AmountColumn(items.value)), hasApprover, clock)
    case Approving(comment) => ToApproved(read, actor, comment, clock)
    case Rejecting(reason) => ToRejected(read, actor, reason, clock)
    case Paying => ToPaid(read, actor, clock)
    case Editing(title, start, end) =>
      if actor != read.owner then Err(Forbidden)
      else if read.status != Draft then Err(ReportNotEditable)
      else if start > end then Err(Internal)
      else Ok(read.(title := title, periodStart := start, periodEnd := end))
  }

  /** The two guarded statements: UpdateReport for an edit, UpdateReportStatus for a transition. */
  function Write(row: Report, d: Decision, next: Report, stamp: Time): Report {
    if d.Editing? then row.(title := next.title, periodStart := next.periodStart, periodEnd := next.periodEnd,
                            updatedAt := stamp)
    else Database.WithDecision(row, next, stamp)
  }

  /** The guard of those statements, evaluated on the row as committed at that moment. */
  predicate Current(s: State, read: Report) {
    s.row.deletedAt.None? && s.row.updatedAt == read.updatedAt
  }

  predicate IsReading(s: State, c: nat) {
    c in s.clients && s.clients[c].Reading?
  }

  predicate MayEdit(s: State, c: nat, actor: Uuid) {
    IsReading(s, c) && s.clients[c].row.owner == actor && s.clients[c].row.status == Draft
  }

  /** The statement finds the version it was computed from, and the row changes. */
  ghost predicate Commits(s: State, e: Event) {
    && e.Decide? && IsReading(s, e.client) && Current(s, s.clients[e.client].row)
    && Decided(s.clients[e.client].row, s.clients[e.client].items, e.actor, e.decision, e.clock).Ok?
  }

  ghost predicate Step(s: State, e: Event, s': State) {
    match e
    case ReadRow(c) =>
      s.row.deletedAt.None? && s' == s.(clients := s.clients[c := Reading(s.row, None)])
    case ReadItems(c) =>
      IsReading(s, c) && s' == s.(clients := s.clients[c := s.clients[c].(items := Some(s.items))])
    case Decide(c, actor, d, clock, stamp) =>
      && IsReading(s, c) && stamp !in s.used
      && var next := Decided(s.clients[c].row, s.clients[c].items, actor, d, clock);
         s' == s.(clients := s.clients[c := Idle], used := s.used + {stamp},
                  row := if Commits(s, e) then Write(s.row, d, next.value, stamp) else s.row)
    case ChangeItems(c, actor, change, total, stamp) =>
      // the total is the sum as the statement saw it (see Totals), from which others may have moved on
      && MayEdit(s, c, actor) && stamp !in s.used && Storable(s, change, stamp) && 0 <= total <= MAX_INT32
      && s' == s.(clients := s.clients[c := Idle], used := s.used + {stamp},
                  items := Changed(s.items, change), row := s.row.(total := total, updatedAt := stamp))
    case Delete(c, actor, erased, stamp) =>
      // the cascade erases the items it saw
      && MayEdit(s, c, actor) && stamp !in s.used
      && s' == s.(clients := s.clients[c := Idle], used := s.used + {stamp}, items := s.items - erased,
                  row := if s.row.deletedAt.None? then s.row.(deletedAt := Some(stamp), updatedAt := stamp) else s.row)
  }

  predicate Init(s: State) {
    && (forall k :: k in s.items ==> s.items[k].report == s.report && s.items[k].tenant == s.row.tenant)
    && s.row.status == Draft && FieldsMatchStatus(s.row) && s.row.updatedAt in s.used && s.clients == map[]
  }

  /** The i-th event leads from the i-th state to the next. */
  ghost predicate StepAt(ss: seq<State>, es: seq<Event>, i: nat)
    requires |ss| == |es| + 1 && i < |es|
  {
    Step(ss[i], es[i], ss[i + 1])
  }

  ghost predicate IsRun(ss: seq<State>, es: seq<Event>) {
    && |ss| == |es| + 1 && Init(ss[0])
    && forall i: nat :: i < |es| ==> StepAt(ss, es, i)
  }

  // ----- The invariant: an unchanged version is an unchanged row -----

  predicate ClientOk(s: State, client: Client) {
    client.Reading? ==>
      && client.row.updatedAt in s.used && client.row.owner == s.row.owner
      && (client.row.updatedAt == s.row.updatedAt && s.row.deletedAt.None? ==>
            client.row == s.row && (client.items.Some? ==> client.items.value == s.items))
  }

  predicate Consistent(s: State) {
    && s.row.updatedAt in s.used
    && FieldsMatchStatus(s.row)
    && forall c :: c in s.clients ==> ClientOk(s, s.clients[c])
  }

  lemma DecidedKeepsFields(read: Report, items: Option<map<Uuid, Item>>, actor: Uuid, d: Decision, clock: Time,
                           stamp: Time)
    requires FieldsMatchStatus(read) && Decided(read, items, actor, d, clock).Ok?
    ensures var row' := Write(read, d, Decided(read, items, actor, d, clock).value, stamp);
            && FieldsMatchStatus(row') && row'.updatedAt == stamp
            && (d.Editing? ==> read.status == row'.status == Draft)
            && (!d.Editing? ==> Edge(read.status, row'.status))
            && row'.owner == read.owner && row'.tenant == read.tenant
  {
  }

  lemma StepKeepsConsistent(s: State, e: Event, s': State)
    requires Consistent(s) && Step(s, e, s')
    ensures Consistent(s')
  {
    if Commits(s, e) {
      var client := s.clients[e.client];
      assert ClientOk(s, client);
      DecidedKeepsFields(client.row, client.items, e.actor, e.decision, e.clock, e.stamp);
    }
    forall c | c in s'.clients ensures ClientOk(s', s'.clients[c]) {
      if c in s.clients { assert ClientOk(s, s.clients[c]); }
    }
  }

  lemma {:induction false} RunConsistent(ss: seq<State>, es: seq<Event>, i: nat)
    requires IsRun(ss, es) && i < |ss|
    ensures Consistent(ss[i])
  {
    if i > 0 {
      RunConsistent(ss, es, i - 1);
      assert StepAt(ss, es, i - 1);
      StepKeepsConsistent(ss[i - 1], es[i - 1], ss[i]);
    }
  }

  // ----- What a commit acts on -----

  /**
   No lost update: whatever happened since the read, a guarded write that commits applies its decision to
   the committed row itself; and a submission commits only with the committed items, of which there are some.
   */
  lemma CommitIsCurrent(ss: seq<State>, es: seq<Event>, i: nat)
    requires IsRun(ss, es) && i < |es| && Commits(ss[i], es[i])
    ensures var s, s', e := ss[i], ss[i + 1], es[i];
            && s.clients[e.client].row == s.row
            && s'.row
               == Write(s.row, e.decision,
                        Decided(s.row, s.clients[e.client].items, e.actor, e.decision, e.clock).value, e.stamp)
            && (e.decision.Submitting? ==> s.clients[e.client].items == Some(s.items) && s.items == s'.items != map[])
  {
    RunConsistent(ss, es, i);
    assert StepAt(ss, es, i);
    assert ClientOk(ss[i], ss[i].clients[es[i].client]);
  }

  lemma StepFollowsEdge(ss: seq<State>, es: seq<Event>, i: nat)
    requires IsRun(ss, es) && i < |es|
    ensures var row, row' := ss[i].row, ss[i + 1].row;
            && row'.owner == row.owner && row'.tenant == row.tenant
            && if row'.status == row.status then !Commits(ss[i], es[i]) || es[i].decision.Editing?
               else Edge(row.status, row'.status) && Commits(ss[i], es[i])
  {
    RunConsistent(ss, es, i);
    assert StepAt(ss, es, i);
    var s, e := ss[i], es[i];
    if Commits(s, e) {
      var client := s.clients[e.client];
      assert ClientOk(s, client);
      DecidedKeepsFields(client.row, client.items, e.actor, e.decision, e.clock, e.stamp);
    }
  }

  /** The committed statuses of a run, repetitions left out, from state i on. */
  function Path(ss: seq<State>): (p: seq<Status>)
    requires ss != []
  {
    if |ss| == 1 then [ss[0].row.status]
    else if ss[|ss| - 1].row.status == ss[|ss| - 2].row.status then Path(ss[..|ss| - 1])
    else Path(ss[..|ss| - 1]) + [ss[|ss| - 1].row.status]
  }

  predicate IsPath(p: seq<Status>) {
    && p != [] && p[0] == Draft
    && forall i :: 0 <= i < |p| - 1 ==> Edge(p[i], p[i + 1])
  }

  lemma RunPrefix(ss: seq<State>, es: seq<Event>)
    requires IsRun(ss, es) && es != []
    ensures IsRun(ss[..|ss| - 1], es[..|es| - 1])
  {
    var ss', es' := ss[..|ss| - 1], es[..|es| - 1];
    forall i: nat | i < |es'| ensures StepAt(ss', es', i) { assert StepAt(ss, es, i); }
  }

  /** The committed statuses form a path draft, submitted, then approved or rejected, approved then paid. */
  lemma {:induction false} StatusesFormPath(ss: seq<State>, es: seq<Event>)
    requires IsRun(ss, es)
    ensures IsPath(Path(ss)) && Path(ss)[|Path(ss)| - 1] == ss[|ss| - 1].row.status
    ensures FieldsMatchStatus(ss[|ss| - 1].row)
    decreases |ss|
  {
    RunConsistent(ss, es, |ss| - 1);
    if |ss| > 1 {
      RunPrefix(ss, es);
      StatusesFormPath(ss[..|ss| - 1], es[..|es| - 1]);
      StepFollowsEdge(ss, es, |ss| - 2);
    }
  }

  /** Submissions, edits, item changes and deletion are the owner's; decisions and payment are other people's. */
  lemma WhoseEvents(ss: seq<State>, es: seq<Event>, i: nat)
    requires IsRun(ss, es) && i < |es|
    ensures es[i].ChangeItems? || es[i].Delete? ==> es[i].actor == ss[i].row.owner
    ensures Commits(ss[i], es[i]) ==>
              (es[i].actor == ss[i].row.owner <==> es[i].decision.Submitting? || es[i].decision.Editing?)
  {
    RunConsistent(ss, es, i);
    assert StepAt(ss, es, i);
    var s, e := ss[i], es[i];
    if !e.ReadRow? && !e.ReadItems? && e.client in s.clients {
      assert ClientOk(s, s.clients[e.client]);
    }
  }

  // ----- One winner for each version -----

  /** The event writes the report row: a guarded write that commits, an item change, or a first deletion. */
  ghost predicate Writes(s: State, e: Event) {
    Commits(s, e) || e.ChangeItems? || (e.Delete? && s.row.deletedAt.None?)
  }

  lemma {:induction false} OverwrittenVersionIsGone(ss: seq<State>, es: seq<Event>, i: nat, j: nat)
    requires IsRun(ss, es) && i < j < |ss| && Writes(ss[i], es[i])
    ensures ss[j].row.updatedAt != ss[i].row.updatedAt && ss[i].row.updatedAt in ss[j].used
  {
    RunConsistent(ss, es, i);
    assert StepAt(ss, es, j - 1);
    if j - 1 > i { OverwrittenVersionIsGone(ss, es, i, j - 1); }
  }

  /**
   After any write of the row, item changes included, no guarded write computed from the version before it
   commits. In particular, of all guarded writes computed from one version at most one commits.
   */
  lemma OneCommitPerVersion(ss: seq<State>, es: seq<Event>, i: nat, j: nat)
    requires IsRun(ss, es) && i < j < |es|
    requires Writes(ss[i], es[i]) && Commits(ss[j], es[j])
    ensures ss[j].clients[es[j].client].row.updatedAt != ss[i].row.updatedAt
    ensures Commits(ss[i], es[i]) ==>
              ss[j].clients[es[j].client].row.updatedAt != ss[i].clients[es[i].client].row.updatedAt
  {
    OverwrittenVersionIsGone(ss, es, i, j);
  }

  // ----- What the guard does not cover -----

  predicate SameContents(s: State, s': State) {
    && s'.items == s.items && s'.row.total == s.row.total && s'.row.deletedAt == s.row.deletedAt
    && s'.row.title == s.row.title && s'.row.periodStart == s.row.periodStart && s'.row.periodEnd == s.row.periodEnd
  }

  /** Contents never change in the run once the report has left draft. */
  predicate FrozenAfterDraft(ss: seq<State>) {
    forall i, j :: 0 <= i <= j < |ss| && ss[i].row.status != Draft ==> SameContents(ss[i], ss[j])
  }

  /** The edit changes something, told from the event and the state it meets. */
  predicate Effective(s: State, e: Event) {
    match e
    case ChangeItems(_, _, change, total, _) => Changed(s.items, change) != s.items || total != s.row.total
    case Delete(_, _, erased, _) => s.row.deletedAt.None? || s.items - erased != s.items
    case _ => false
  }

  /** An effective item change or deletion finds the report still in draft when it commits. */
  predicate EditMeetsDraft(s: State, e: Event) {
    Effective(s, e) ==> s.row.status == Draft
  }

  lemma EventKeepsContents(ss: seq<State>, es: seq<Event>, k: nat)
    requires IsRun(ss, es) && k < |es| && ss[k].row.status != Draft
    ensures SameContents(ss[k], ss[k + 1]) <==> !Effective(ss[k], es[k])
    ensures ss[k + 1].row.status != Draft
  {
    RunConsistent(ss, es, k);
    assert StepAt(ss, es, k);
    var s, e := ss[k], es[k];
    if Commits(s, e) { assert ClientOk(s, s.clients[e.client]); }
  }

  lemma {:induction false} FrozenBetween(ss: seq<State>, es: seq<Event>, i: nat, j: nat)
    requires IsRun(ss, es) && i <= j < |ss| && ss[i].row.status != Draft
    requires forall k :: 0 <= k < |es| ==> EditMeetsDraft(ss[k], es[k])
    ensures SameContents(ss[i], ss[j]) && ss[j].row.status != Draft
  {
    if i < j {
      FrozenBetween(ss, es, i, j - 1);
      EventKeepsContents(ss, es, j - 1);
    }
  }

  /**
   Under interleaving a report is frozen after draft exactly when every effective item change or deletion
   still meets the draft at its commit, which the unguarded statements do not check.
   */
  lemma FrozenIffEditsMeetDraft(ss: seq<State>, es: seq<Event>)
    requires IsRun(ss, es)
    ensures FrozenAfterDraft(ss) <==> forall k :: 0 <= k < |es| ==> EditMeetsDraft(ss[k], es[k])
  {
    if forall k :: 0 <= k < |es| ==> EditMeetsDraft(ss[k], es[k]) {
      forall i, j | 0 <= i <= j < |ss| && ss[i].row.status != Draft ensures SameContents(ss[i], ss[j]) {
        FrozenBetween(ss, es, i, j);
      }
    } else {
      var k :| 0 <= k < |es| && !EditMeetsDraft(ss[k], es[k]);
      EventKeepsContents(ss, es, k);
    }
  }

  /** An item change or a deletion that commits on the version it checked, as a guard would enforce. */
  predicate EditIsCurrent(s: State, e: Event) {
    e.ChangeItems? || e.Delete? ==> IsReading(s, e.client) && Current(s, s.clients[e.client].row)
  }

  /** Such a guard would be enough. */
  lemma GuardedEditsFreeze(ss: seq<State>, es: seq<Event>)
    requires IsRun(ss, es) && forall k :: 0 <= k < |es| ==> EditIsCurrent(ss[k], es[k])
    ensures FrozenAfterDraft(ss)
  {
    forall k | 0 <= k < |es| ensures EditMeetsDraft(ss[k], es[k]) {
      RunConsistent(ss, es, k);
      assert StepAt(ss, es, k) && EditIsCurrent(ss[k], es[k]);
      var s, e := ss[k], es[k];
      if IsReading(s, e.client) { assert ClientOk(s, s.clients[e.client]); }
    }
    FrozenIffEditsMeetDraft(ss, es);
  }

  /** The stamps of the two requests below. */
  predicate NewStamps(s: State, submitted: Time, changed: Time) {
    submitted !in s.used && changed !in s.used && submitted != changed
  }

  /** One item request that can be carried out on the draft: its row is there or storable, and the sum fits. */
  ghost predicate CanChange(s: State, change: ItemChange, stamp: Time) {
    && Init(s) && s.row.deletedAt.None? && s.items != map[]
    && (forall k :: k in s.items ==> s.items[k].amount > 0)
    && (if change.Drop? then change.id in s.items else Storable(s, change, stamp))
    && Sum(AmountColumn(Changed(s.items, change))) <= MAX_INT32
  }

  /** Client 1 and client 2 read the draft, client 2 submits it, client 1 then stores its change. */
  ghost function StaleState(k: nat, s: State, change: ItemChange, submitted: Time, changed: Time): State
    requires s.row.status == Draft && s.items != map[]
  {
    var editor, after, submit := Reading(s.row, None), Changed(s.items, change), Submitting(true);
    var row := Write(s.row, submit, Decided(s.row, Some(s.items), s.row.owner, submit, 1).value, submitted);
    if k == 0 then s
    else if k == 1 then s.(clients := map[1 := editor])
    else if k == 2 then s.(clients := map[1 := editor, 2 := Reading(s.row, None)])
    else if k == 3 then s.(clients := map[1 := editor, 2 := Reading(s.row, Some(s.items))])
    else if k == 4 then s.(row := row, clients := map[1 := editor, 2 := Idle], used := s.used + {submitted})
    else s.(row := row.(total := Sum(AmountColumn(after)), updatedAt := changed), items := after,
            clients := map[1 := Idle, 2 := Idle], used := s.used + {submitted} + {changed})
  }

  ghost function StaleEvent(k: nat, s: State, change: ItemChange, submitted: Time, changed: Time): Event {
    if k == 0 then ReadRow(1)
    else if k == 1 then ReadRow(2)
    else if k == 2 then ReadItems(2)
    else if k == 3 then Decide(2, s.row.owner, Submitting(true), 1, submitted)
    else ChangeItems(1, s.row.owner, change, Sum(AmountColumn(Changed(s.items, change))), changed)
  }

  lemma StaleReads(k: nat, s: State, change: ItemChange, submitted: Time, changed: Time)
    requires CanChange(s, change, changed) && k < 3
    ensures Step(StaleState(k, s, change, submitted, changed), StaleEvent(k, s, change, submitted, changed),
                 StaleState(k + 1, s, change, submitted, changed))
  {
    if k == 0 {
    } else if k == 1 {
    }
  }

  lemma StaleSubmission(s: State, change: ItemChange, submitted: Time, changed: Time)
    requires CanChange(s, change, changed) && NewStamps(s, submitted, changed)
    ensures Step(StaleState(3, s, change, submitted, changed), StaleEvent(3, s, change, submitted, changed),
                 StaleState(4, s, change, submitted, changed))
  {
    assert |s.items| > 0;
    assert Commits(StaleState(3, s, change, submitted, changed), StaleEvent(3, s, change, submitted, changed));
  }

  lemma StaleChange(s: State, change: ItemChange, submitted: Time, changed: Time)
    requires CanChange(s, change, changed) && NewStamps(s, submitted, changed)
    ensures Step(StaleState(4, s, change, submitted, changed), StaleEvent(4, s, change, submitted, changed),
                 StaleState(5, s, change, submitted, changed))
  {
    SumNonNegative(AmountColumn(Changed(s.items, change)));
  }

  /**
   They are not: a request that saw the draft can store or erase its item after another one has submitted the
   report. In the run below it does, with the total recomputed as the statement does; so whatever single item
   request was possible on the draft, the submitted report ends up with its result.
   */
  lemma StaleEditSlipsIn(s: State, change: ItemChange, submitted: Time, changed: Time)
    returns (ss: seq<State>, es: seq<Event>)
    requires CanChange(s, change, changed) && NewStamps(s, submitted, changed)
    ensures IsRun(ss, es) && |es| == 5 && ss[0] == s
    ensures ss[4].row.status == Submitted == ss[5].row.status
    ensures ss[4].items == s.items && ss[4].row.total == s.row.total
    ensures ss[5].items == Changed(s.items, change) && ss[5].row.total == Sum(AmountColumn(ss[5].items))
  {
    ss := seq(6, k requires 0 <= k => StaleState(k, s, change, submitted, changed));
    es := seq(5, k requires 0 <= k => StaleEvent(k, s, change, submitted, changed));
    forall i: nat | i < |es| ensures StepAt(ss, es, i) {
      if i < 3 {
        StaleReads(i, s, change, submitted, changed);
      } else if i == 3 {
        StaleSubmission(s, change, submitted, changed);
      } else {
        StaleChange(s, change, submitted, changed);
      }
    }
  }
}
