/**
 The stored total of one report under READ COMMITTED. A request on an item changes its row and then has one
 statement set the report's total to the sum of the items it can see: those committed when the statement
 started, with its own change. The statement may have to wait for the report's row, which it then holds until
 the commit, but its sum stays the one it saw.
 */
module Totals {
  import opened Prelude
  import opened Domain
  import opened Tables

  /** A request before its sum, after it, and holding the report's row. */
  datatype Request =
    | Changing(change: ItemChange)
    | Summing(change: ItemChange, seen: map<Uuid, Item>)
    | Holding(change: ItemChange, seen: map<Uuid, Item>)

  /** The committed live items and total of a report, and the open requests on its items. */
  datatype State = State(items: map<Uuid, Item>, total: int, requests: map<nat, Request>)

  datatype Event =
    | Change(client: nat, change: ItemChange)
    | Snapshot(client: nat)
    | Lock(client: nat)
    | Commit(client: nat)
    | Rollback(client: nat)

  ghost function SumOf(items: map<Uuid, Item>): int {
    Sum(AmountColumn(items))
  }

  ghost predicate TotalIsSum(s: State) {
    s.total == SumOf(s.items)
  }

  /** No open request holds the item's row. */
  predicate RowFree(s: State, id: Uuid) {
    forall c :: c in s.requests ==> s.requests[c].change.id != id
  }

  predicate Locked(s: State) {
    exists c :: c in s.requests && s.requests[c].Holding?
  }

  ghost predicate Step(s: State, e: Event, s': State) {
    match e
    case Change(c, change) =>
      && c !in s.requests && RowFree(s, change.id) && (change.Put? ==> 0 < change.item.amount <= MAX_INT32)
      && s' == s.(requests := s.requests[c := Changing(change)])
    case Snapshot(c) =>
      && c in s.requests && s.requests[c].Changing?
      && s' == s.(requests := s.requests[c := Summing(s.requests[c].change, s.items)])
    case Lock(c) =>
      && c in s.requests && s.requests[c].Summing? && !Locked(s)
      && SumOf(Changed(s.requests[c].seen, s.requests[c].change)) <= MAX_INT32
      && s' == s.(requests := s.requests[c := Holding(s.requests[c].change, s.requests[c].seen)])
    case Commit(c) =>
      && c in s.requests && s.requests[c].Holding?
      && s' == State(Changed(s.items, s.requests[c].change),
                     SumOf(Changed(s.requests[c].seen, s.requests[c].change)), s.requests - {c})
    case Rollback(c) => s' == s.(requests := s.requests - {c})
  }

  ghost predicate Init(s: State) {
    s.requests == map[] && TotalIsSum(s) && forall k :: k in s.items ==> s.items[k].amount > 0
  }

  ghost predicate StepAt(ss: seq<State>, es: seq<Event>, i: nat)
    requires |ss| == |es| + 1 && i < |es|
  {
    Step(ss[i], es[i], ss[i + 1])
  }

  ghost predicate IsRun(ss: seq<State>, es: seq<Event>) {
    && |ss| == |es| + 1 && Init(ss[0])
    && forall i: nat :: i < |es| ==> StepAt(ss, es, i)
  }

  // ----- What an open request knows -----

  /** Two versions of the items agree on a row. */
  predicate SameRow(a: map<Uuid, Item>, b: map<Uuid, Item>, id: Uuid) {
    (id in a <==> id in b) && (id in a && id in b ==> a[id] == b[id])
  }

  /** What a request saw of its own row is still so: nobody else can change it. */
  predicate Consistent(s: State) {
    && (forall c :: c in s.requests && !s.requests[c].Changing? ==>
          SameRow(s.requests[c].seen, s.items, s.requests[c].change.id))
    && (forall c, d :: c in s.requests && d in s.requests && c != d ==>
          s.requests[c].change.id != s.requests[d].change.id)
  }

  lemma StepKeepsConsistent(s: State, e: Event, s': State)
    requires Consistent(s) && Step(s, e, s')
    ensures Consistent(s')
  {
  }

  lemma {:induction false} RunConsistent(ss: seq<State>, es: seq<Event>, i: nat)
    requires IsRun(ss, es) && i < |ss|
    ensures Consistent(ss[i])
  {
    if i > 0 {
      RunConsistent(ss, es, i - 1);
      assert StepAt(ss, es, i - 1);
      StepKeepsConsistent(ss[i - 1], es[i - 1], ss[i]);
    }
  }

  // ----- When the total is right -----

  /** A change moves the sum by the same amount wherever its own row is the same. */
  lemma ChangeMovesSum(a: map<Uuid, Item>, b: map<Uuid, Item>, change: ItemChange)
    requires SameRow(a, b, change.id)
    ensures SumOf(Changed(a, change)) - SumOf(a) == SumOf(Changed(b, change)) - SumOf(b)
  {
    SumWithoutRow(a, change);
    SumWithoutRow(b, change);
  }

  lemma SumWithoutRow(items: map<Uuid, Item>, change: ItemChange)
    ensures SumOf(items)
         == SumOf(items - {change.id}) + if change.id in items then items[change.id].amount else 0
    ensures SumOf(Changed(items, change))
         == SumOf(items - {change.id}) + if change.Put? then change.item.amount else 0
  {
    TakeOut(items, change.id);
    TakeOut(Changed(items, change), change.id);
    assert Changed(items, change) - {change.id} == items - {change.id};
  }

  lemma TakeOut(items: map<Uuid, Item>, id: Uuid)
    ensures SumOf(items) == SumOf(items - {id}) + if id in items then items[id].amount else 0
  {
    if id in items {
      SumRemove(AmountColumn(items), id);
      assert AmountColumn(items) - {id} == AmountColumn(items - {id});
    } else {
      assert items - {id} == items;
    }
  }

  /** The committing request's statement saw the sum that is committed now. */
  ghost predicate SawSum(s: State, e: Event) {
    e.Commit? && e.client in s.requests && !s.requests[e.client].Changing?
    && SumOf(s.requests[e.client].seen) == SumOf(s.items)
  }

  lemma CommitIsRight(ss: seq<State>, es: seq<Event>, i: nat)
    requires IsRun(ss, es) && i < |es| && es[i].Commit?
    ensures TotalIsSum(ss[i + 1]) <==> SawSum(ss[i], es[i])
  {
    RunConsistent(ss, es, i);
    assert StepAt(ss, es, i);
    var request := ss[i].requests[es[i].client];
    ChangeMovesSum(request.seen, ss[i].items, request.change);
  }

  lemma {:induction false} TotalStands(ss: seq<State>, es: seq<Event>, i: nat, k: nat)
    requires IsRun(ss, es) && i <= k < |ss| && forall j :: i <= j < k ==> !es[j].Commit?
    ensures ss[k].items == ss[i].items && ss[k].total == ss[i].total
  {
    if i < k {
      TotalStands(ss, es, i, k - 1);
      assert StepAt(ss, es, k - 1);
    }
  }

  /**
   Under any interleaving, until the first commit the stored total is the sum of the items; from then on it is
   so exactly when the statement of the last request to commit saw the sum committed just before it.
   */
  lemma TotalIsSumIffSawSum(ss: seq<State>, es: seq<Event>, k: nat)
    requires IsRun(ss, es) && k < |ss|
    ensures (forall j :: 0 <= j < k ==> !es[j].Commit?) ==> TotalIsSum(ss[k])
    ensures forall i :: 0 <= i < k && es[i].Commit? && (forall j :: i < j < k ==> !es[j].Commit?) ==>
              (TotalIsSum(ss[k]) <==> SawSum(ss[i], es[i]))
  {
    if forall j :: 0 <= j < k ==> !es[j].Commit? {
      TotalStands(ss, es, 0, k);
    }
    forall i | 0 <= i < k && es[i].Commit? && (forall j :: i < j < k ==> !es[j].Commit?)
      ensures TotalIsSum(ss[k]) <==> SawSum(ss[i], es[i])
    {
      CommitIsRight(ss, es, i);
      TotalStands(ss, es, i + 1, k);
    }
  }

  // ----- Where items are only added -----

  /** Every change stores a row under a new identifier. */
  predicate OnlyAdds(ss: seq<State>, es: seq<Event>)
    requires |ss| == |es| + 1
  {
    forall i :: 0 <= i < |es| && es[i].Change? ==> es[i].change.Put? && es[i].change.id !in ss[i].items
  }

  predicate Part(part: map<Uuid, Item>, whole: map<Uuid, Item>) {
    forall k :: k in part ==> k in whole && part[k] == whole[k]
  }

  /** The request adds a row to items of which it may have seen a part. */
  predicate Adds(items: map<Uuid, Item>, request: Request) {
    && request.change.Put? && request.change.item.amount > 0 && request.change.id !in items
    && (!request.Changing? ==> Part(request.seen, items))
  }

  predicate Growing(s: State) {
    && (forall k :: k in s.items ==> s.items[k].amount > 0)
    && (forall c :: c in s.requests ==> Adds(s.items, s.requests[c]))
  }

  lemma AddKeepsGrowing(s: State, e: Event, s': State)
    requires Consistent(s) && Growing(s) && Step(s, e, s')
    requires e.Change? ==> e.change.Put? && e.change.id !in s.items
    ensures Growing(s')
  {
    forall c | c in s'.requests ensures Adds(s'.items, s'.requests[c]) {
      if c in s.requests {
        assert Adds(s.items, s.requests[c]);
      }
    }
  }

  lemma {:induction false} AddsGrow(ss: seq<State>, es: seq<Event>, i: nat)
    requires IsRun(ss, es) && i < |ss| && OnlyAdds(ss, es)
    ensures Growing(ss[i])
  {
    if i > 0 {
      AddsGrow(ss, es, i - 1);
      RunConsistent(ss, es, i - 1);
      assert StepAt(ss, es, i - 1);
      AddKeepsGrowing(ss[i - 1], es[i - 1], ss[i]);
    }
  }

  lemma SmallerSum(part: map<Uuid, Item>, whole: map<Uuid, Item>, k: Uuid)
    requires Part(part, whole) && forall j :: j in whole ==> whole[j].amount > 0
    requires k in whole && k !in part
    ensures SumOf(part) < SumOf(whole)
  {
    TakeOut(whole, k);
    SumSubset(AmountColumn(part), AmountColumn(whole - {k}));
  }

  /** Then an amount is missing from the total exactly when the last request to commit did not see every item. */
  lemma AddedTotalIffSawItems(ss: seq<State>, es: seq<Event>, i: nat)
    requires IsRun(ss, es) && i < |es| && es[i].Commit? && OnlyAdds(ss, es)
    ensures es[i].client in ss[i].requests && ss[i].requests[es[i].client].Holding?
    ensures TotalIsSum(ss[i + 1]) <==> ss[i].requests[es[i].client].seen == ss[i].items
    ensures ss[i + 1].total <= SumOf(ss[i + 1].items)
  {
    assert StepAt(ss, es, i);
    CommitIsRight(ss, es, i);
    AddsGrow(ss, es, i);
    RunConsistent(ss, es, i);
    assert Adds(ss[i].items, ss[i].requests[es[i].client]);
    var seen, items := ss[i].requests[es[i].client].seen, ss[i].items;
    if seen != items {
      var k :| k in items && k !in seen;
      SmallerSum(seen, items, k);
    }
    ChangeMovesSum(seen, items, ss[i].requests[es[i].client].change);
  }

  // ----- The row before the sum -----

  /** The statement starts while no other request is past the start of its own. */
  predicate SumsAlone(s: State, e: Event) {
    e.Snapshot? ==> forall c :: c in s.requests ==> s.requests[c].Changing?
  }

  predicate Alone(s: State) {
    forall c :: c in s.requests && !s.requests[c].Changing? ==>
      && s.requests[c].seen == s.items
      && forall d :: d in s.requests && d != c ==> s.requests[d].Changing?
  }

  /** Had each statement the report's row to itself before it takes its sum, no amount would be lost. */
  lemma {:induction false} SumsAloneAreRight(ss: seq<State>, es: seq<Event>, i: nat)
    requires IsRun(ss, es) && i < |ss| && forall k :: 0 <= k < |es| ==> SumsAlone(ss[k], es[k])
    ensures Alone(ss[i]) && TotalIsSum(ss[i])
  {
    if i > 0 {
      SumsAloneAreRight(ss, es, i - 1);
      assert StepAt(ss, es, i - 1) && SumsAlone(ss[i - 1], es[i - 1]);
      if es[i - 1].Commit? {
        CommitIsRight(ss, es, i - 1);
      }
    }
  }

  // ----- An amount lost -----

  /** Two requests each add an item. */
  predicate TwoAdds(s: State, i: Uuid, first: Item, j: Uuid, second: Item) {
    && i !in s.items && j !in s.items && i != j
    && 0 < first.amount <= MAX_INT32 && 0 < second.amount <= MAX_INT32
  }

  ghost predicate Fits(s: State, first: Item, second: Item) {
    SumOf(s.items) + first.amount + second.amount <= MAX_INT32
  }

  /** Both take their sums before either commits. */
  ghost function LosingState(k: nat, s: State, i: Uuid, first: Item, j: Uuid, second: Item): State {
    var a, b := Put(i, first), Put(j, second);
    if k == 0 then s
    else if k == 1 then s.(requests := map[1 := Changing(a)])
    else if k == 2 then s.(requests := map[1 := Changing(a), 2 := Changing(b)])
    else if k == 3 then s.(requests := map[1 := Summing(a, s.items), 2 := Changing(b)])
    else if k == 4 then s.(requests := map[1 := Summing(a, s.items), 2 := Summing(b, s.items)])
    else if k == 5 then s.(requests := map[1 := Holding(a, s.items), 2 := Summing(b, s.items)])
    else if k == 6 then State(Changed(s.items, a), SumOf(Changed(s.items, a)), map[2 := Summing(b, s.items)])
    else if k == 7 then State(Changed(s.items, a), SumOf(Changed(s.items, a)), map[2 := Holding(b, s.items)])
    else State(Changed(Changed(s.items, a), b), SumOf(Changed(s.items, b)), map[])
  }

  function LosingEvent(k: nat, i: Uuid, first: Item, j: Uuid, second: Item): Event {
    if k == 0 then Change(1, Put(i, first))
    else if k == 1 then Change(2, Put(j, second))
    else if k == 2 then Snapshot(1)
    else if k == 3 then Snapshot(2)
    else if k == 4 then Lock(1)
    else if k == 5 then Commit(1)
    else if k == 6 then Lock(2)
    else Commit(2)
  }

  lemma LosingSums(k: nat, s: State, i: Uuid, first: Item, j: Uuid, second: Item)
    requires Init(s) && TwoAdds(s, i, first, j, second) && Fits(s, first, second) && k < 4
    ensures Step(LosingState(k, s, i, first, j, second), LosingEvent(k, i, first, j, second),
                 LosingState(k + 1, s, i, first, j, second))
  {
    if k == 0 {
    } else if k == 1 {
    } else if k == 2 {
    }
  }

  lemma SumWithAdded(items: map<Uuid, Item>, i: Uuid, item: Item)
    requires i !in items
    ensures SumOf(items[i := item]) == SumOf(items) + item.amount
  {
    SumWithoutRow(items, Put(i, item));
    assert items - {i} == items;
  }

  lemma FirstLock(s: State, i: Uuid, first: Item, j: Uuid, second: Item)
    requires Init(s) && TwoAdds(s, i, first, j, second) && Fits(s, first, second)
    ensures Step(LosingState(4, s, i, first, j, second), LosingEvent(4, i, first, j, second),
                 LosingState(5, s, i, first, j, second))
  {
    SumWithAdded(s.items, i, first);
  }

  lemma SecondLock(s: State, i: Uuid, first: Item, j: Uuid, second: Item)
    requires Init(s) && TwoAdds(s, i, first, j, second) && Fits(s, first, second)
    ensures Step(LosingState(6, s, i, first, j, second), LosingEvent(6, i, first, j, second),
                 LosingState(7, s, i, first, j, second))
  {
    SumWithAdded(s.items, j, second);
  }

  lemma LosingCommit(k: nat, s: State, i: Uuid, first: Item, j: Uuid, second: Item)
    requires Init(s) && TwoAdds(s, i, first, j, second) && Fits(s, first, second) && (k == 5 || k == 7)
    ensures Step(LosingState(k, s, i, first, j, second), LosingEvent(k, i, first, j, second),
                 LosingState(k + 1, s, i, first, j, second))
  {
    var requests := LosingState(k, s, i, first, j, second).requests;
    if k == 5 {
      assert requests - {1} == map[2 := Summing(Put(j, second), s.items)];
    } else {
      assert requests - {2} == map[];
    }
  }

  /** From any report with two items to add, the first one's amount can be lost from the total. */
  lemma AmountCanBeLost(s: State, i: Uuid, first: Item, j: Uuid, second: Item)
    returns (ss: seq<State>, es: seq<Event>)
    requires Init(s) && TwoAdds(s, i, first, j, second) && Fits(s, first, second)
    ensures IsRun(ss, es) && |es| == 8 && ss[0] == s
    ensures ss[8].items == s.items[i := first][j := second] && ss[8].requests == map[]
    ensures ss[8].total == SumOf(ss[8].items) - first.amount
  {
    ss := seq(9, k requires 0 <= k => LosingState(k, s, i, first, j, second));
    es := seq(8, k requires 0 <= k => LosingEvent(k, i, first, j, second));
    forall k: nat | k < |es| ensures StepAt(ss, es, k) {
      if k < 4 {
        LosingSums(k, s, i, first, j, second);
      } else if k == 4 {
        FirstLock(s, i, first, j, second);
      } else if k == 6 {
        SecondLock(s, i, first, j, second);
      } else {
        LosingCommit(k, s, i, first, j, second);
      }
    }
    SumWithAdded(s.items, i, first);
    SumWithAdded(s.items, j, second);
    SumWithAdded(s.items[i := first], j, second);
  }
}
