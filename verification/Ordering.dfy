/** ORDER BY several columns, descending: lists of row identifiers sorted by their keys. */
module Ordering {
  import opened Domain

  /** A sort key, most significant column first. */
  type SortKey = seq<int>

  /** Lexicographic comparison of keys with the same columns. */
  predicate Greater(a: SortKey, b: SortKey)
    requires |a| == |b|
  {
    a != [] && (a[0] > b[0] || (a[0] == b[0] && Greater(a[1..], b[1..])))
  }

  lemma {:induction false} GreaterTransitive(a: SortKey, b: SortKey, c: SortKey)
    requires |a| == |b| == |c| && Greater(a, b) && Greater(b, c)
    ensures Greater(a, c)
    decreases |a|
  {
    if a[0] == b[0] == c[0] { GreaterTransitive(a[1..], b[1..], c[1..]); }
  }

  lemma {:induction false} GreaterTotal(a: SortKey, b: SortKey)
    requires |a| == |b|
    ensures a == b || Greater(a, b) || Greater(b, a)
    ensures !(Greater(a, b) && Greater(b, a)) && !Greater(a, a)
    decreases |a|
  {
    if a != [] {
      GreaterTotal(a[1..], b[1..]);
      GreaterTotal(a[1..], a[1..]);
      assert a == [a[0]] + a[1..] && b == [b[0]] + b[1..];
    }
  }

  /** The first column that differs decides. */
  lemma {:induction false} DecidingColumn(a: SortKey, b: SortKey) returns (i: nat)
    requires |a| == |b| && Greater(a, b)
    ensures i < |a| && a[i] > b[i] && forall j :: 0 <= j < i ==> a[j] == b[j]
    decreases |a|
  {
    i := 0;
    if a[0] == b[0] {
      var k := DecidingColumn(a[1..], b[1..]);
      i := k + 1;
      forall j | 0 <= j < i ensures a[j] == b[j] {
        if j > 0 { assert a[j] == a[1..][j - 1] && b[j] == b[1..][j - 1]; }
      }
    }
  }

  /** Keys with `n` columns each, no two rows alike: the identifier is among the columns. */
  predicate Distinct(keys: map<Uuid, SortKey>, n: nat) {
    && (forall k :: k in keys ==> |keys[k]| == n)
    && (forall i, j :: i in keys && j in keys && i != j ==> keys[i] != keys[j])
  }

  /** Every row once, in descending order of its key. */
  ghost predicate IsSorted(listed: seq<Uuid>, keys: map<Uuid, SortKey>, n: nat)
    requires Distinct(keys, n)
  {
    && (forall k :: k in listed <==> k in keys)
    && (forall i, j :: 0 <= i < j < |listed| ==> Greater(keys[listed[i]], keys[listed[j]]))
  }

  /** With distinct keys the order leaves no choice: there is one sorted list. */
  lemma {:induction false} SortedUnique(a: seq<Uuid>, b: seq<Uuid>, keys: map<Uuid, SortKey>, n: nat)
    requires Distinct(keys, n) && IsSorted(a, keys, n) && IsSorted(b, keys, n)
    ensures a == b
    decreases |a|
  {
    SortedSize(a, keys, n);
    SortedSize(b, keys, n);
    if a != [] {
      SameHead(a, b, keys, n);
      assert a[1..] == b[1..] by {
        TailSorted(a, keys, n);
        TailSorted(b, keys, n);
        SortedUnique(a[1..], b[1..], keys - {a[0]}, n);
      }
      SameList(a, b);
    }
  }

  lemma SameList(a: seq<Uuid>, b: seq<Uuid>)
    requires a != [] && b != [] && a[0] == b[0] && a[1..] == b[1..]
    ensures a == b
  {
    assert a == [a[0]] + a[1..] && b == [b[0]] + b[1..];
  }

  lemma SameHead(a: seq<Uuid>, b: seq<Uuid>, keys: map<Uuid, SortKey>, n: nat)
    requires Distinct(keys, n) && IsSorted(a, keys, n) && IsSorted(b, keys, n) && a != [] && b != []
    ensures a[0] == b[0]
  {
    assert a[0] in b && b[0] in a;
    var i :| 0 <= i < |b| && b[i] == a[0];
    var j :| 0 <= j < |a| && a[j] == b[0];
    GreaterTotal(keys[a[0]], keys[b[0]]);
  }

  lemma TailSorted(a: seq<Uuid>, keys: map<Uuid, SortKey>, n: nat)
    requires Distinct(keys, n) && IsSorted(a, keys, n) && a != []
    ensures Distinct(keys - {a[0]}, n) && IsSorted(a[1..], keys - {a[0]}, n)
  {
    GreaterTotal(keys[a[0]], keys[a[0]]);
    forall k ensures k in a[1..] <==> k in keys - {a[0]} {
      if k in a[1..] {
        var i :| 0 < i < |a| && a[i] == k;
        assert Greater(keys[a[0]], keys[a[i]]);
      }
    }
  }

  lemma {:induction false} SortedSize(a: seq<Uuid>, keys: map<Uuid, SortKey>, n: nat)
    requires Distinct(keys, n) && IsSorted(a, keys, n)
    ensures |a| == |keys|
    decreases |a|
  {
    if a == [] {
      assert keys == map[];
    } else {
      TailSorted(a, keys, n);
      SortedSize(a[1..], keys - {a[0]}, n);
    }
  }

  lemma DistinctWithout(keys: map<Uuid, SortKey>, k: Uuid, n: nat)
    requires Distinct(keys, n)
    ensures Distinct(keys - {k}, n)
  {
  }

  /** Of two rows the greater one beats everything either beats. */
  lemma GreaterOfTwo(keys: map<Uuid, SortKey>, i: Uuid, j: Uuid, n: nat) returns (greatest: Uuid)
    requires Distinct(keys, n) && i in keys && j in keys && i != j
    requires forall k :: k in keys && k != i && k != j ==> Greater(keys[j], keys[k])
    ensures greatest in keys && forall k :: k in keys && k != greatest ==> Greater(keys[greatest], keys[k])
  {
    GreaterTotal(keys[i], keys[j]);
    if Greater(keys[j], keys[i]) {
      greatest := j;
    } else {
      greatest := i;
      forall k | k in keys && k != i && k != j ensures Greater(keys[i], keys[k]) {
        GreaterTransitive(keys[i], keys[j], keys[k]);
      }
    }
  }

  lemma {:induction false} GreatestExists(keys: map<Uuid, SortKey>, n: nat) returns (greatest: Uuid)
    requires Distinct(keys, n) && keys != map[]
    ensures greatest in keys && forall k :: k in keys && k != greatest ==> Greater(keys[greatest], keys[k])
    decreases |keys|
  {
    greatest :| greatest in keys;
    var rest := keys - {greatest};
    assert forall k :: k in keys && k != greatest ==> k in rest && rest[k] == keys[k];
    if rest != map[] {
      DistinctWithout(keys, greatest, n);
      var other := GreatestExists(rest, n);
      greatest := GreaterOfTwo(keys, greatest, other, n);
    }
  }

  lemma PairOfRest(keys: map<Uuid, SortKey>, first: Uuid, rest: seq<Uuid>, n: nat, i: nat, j: nat)
    requires Distinct(keys, n) && Distinct(keys - {first}, n) && IsSorted(rest, keys - {first}, n) && i < j < |rest|
    ensures rest[i] in keys && rest[j] in keys && Greater(keys[rest[i]], keys[rest[j]])
  {
    assert rest[i] in keys - {first} && rest[j] in keys - {first};
  }

  lemma ElementOfRest(keys: map<Uuid, SortKey>, first: Uuid, rest: seq<Uuid>, n: nat, k: Uuid)
    requires Distinct(keys - {first}, n) && IsSorted(rest, keys - {first}, n)
    ensures k in rest <==> k in keys && k != first
  {
  }

  /** A sorted list of the other rows, with the greatest put in front. */
  lemma PutFirst(keys: map<Uuid, SortKey>, first: Uuid, rest: seq<Uuid>, n: nat)
    requires Distinct(keys, n) && Distinct(keys - {first}, n) && IsSorted(rest, keys - {first}, n)
    requires first in keys && forall k :: k in keys && k != first ==> Greater(keys[first], keys[k])
    ensures IsSorted([first] + rest, keys, n)
  {
    var listed := [first] + rest;
    forall k ensures k in listed <==> k in keys {
      ElementOfRest(keys, first, rest, n, k);
    }
    forall i, j | 0 <= i < j < |listed| ensures Greater(keys[listed[i]], keys[listed[j]]) {
      if i > 0 {
        PairOfRest(keys, first, rest, n, i - 1, j - 1);
      } else {
        ElementOfRest(keys, first, rest, n, listed[j]);
      }
    }
  }

  lemma {:induction false} SortedList(keys: map<Uuid, SortKey>, n: nat) returns (listed: seq<Uuid>)
    requires Distinct(keys, n)
    ensures IsSorted(listed, keys, n)
    decreases |keys|
  {
    listed := [];
    if keys != map[] {
      var k := GreatestExists(keys, n);
      DistinctWithout(keys, k, n);
      var rest := SortedList(keys - {k}, n);
      PutFirst(keys, k, rest, n);
      listed := [k] + rest;
    }
  }

  lemma SortedExists(keys: map<Uuid, SortKey>, n: nat)
    requires Distinct(keys, n)
    ensures exists listed :: IsSorted(listed, keys, n)
  {
    var listed := SortedList(keys, n);
  }

  /** The one list of all rows in descending order of their keys. */
  ghost function InOrder(keys: map<Uuid, SortKey>, n: nat): seq<Uuid>
    requires Distinct(keys, n)
  {
    SortedExists(keys, n);
    var listed :| IsSorted(listed, keys, n);
    listed
  }

  lemma InOrderIsSorted(keys: map<Uuid, SortKey>, n: nat)
    requires Distinct(keys, n)
    ensures IsSorted(InOrder(keys, n), keys, n) && |InOrder(keys, n)| == |keys|
  {
    SortedExists(keys, n);
    SortedSize(InOrder(keys, n), keys, n);
  }

  /** ORDER BY: take the greatest remaining row until none is left. */
  method Sort(keys: map<Uuid, SortKey>, n: nat) returns (listed: seq<Uuid>)
    requires Distinct(keys, n)
    ensures listed == InOrder(keys, n) && |listed| == |keys|
  {
    listed := [];
    var left := keys.Keys;
    while left != {}
      invariant left <= keys.Keys
      invariant forall k :: k in listed <==> k in keys && k !in left
      invariant forall i, j :: 0 <= i < j < |listed| ==> Greater(keys[listed[i]], keys[listed[j]])
      invariant forall i, k :: 0 <= i < |listed| && k in left ==> Greater(keys[listed[i]], keys[k])
    {
      var k := Greatest(keys, n, left);
      listed := listed + [k];
      left := left - {k};
    }
    SortedIsInOrder(listed, keys, n);
  }

  lemma SortedIsInOrder(listed: seq<Uuid>, keys: map<Uuid, SortKey>, n: nat)
    requires Distinct(keys, n) && IsSorted(listed, keys, n)
    ensures listed == InOrder(keys, n) && |listed| == |keys|
  {
    InOrderIsSorted(keys, n);
    SortedUnique(listed, InOrder(keys, n), keys, n);
  }

  method Greatest(keys: map<Uuid, SortKey>, n: nat, candidates: set<Uuid>) returns (greatest: Uuid)
    requires Distinct(keys, n) && candidates != {} && candidates <= keys.Keys
    ensures greatest in candidates && forall k :: k in candidates && k != greatest ==> Greater(keys[greatest], keys[k])
  {
    greatest :| greatest in candidates;
    var left := candidates - {greatest};
    while left != {}
      invariant left <= candidates && greatest in candidates && greatest !in left
      invariant forall k :: k in candidates && k !in left && k != greatest ==> Greater(keys[greatest], keys[k])
    {
      var k :| k in left;
      left := left - {k};
      GreaterTotal(keys[greatest], keys[k]);
      if Greater(keys[k], keys[greatest]) {
        forall j | j in candidates && j !in left && j != k ensures Greater(keys[k], keys[j]) {
          if j != greatest { GreaterTransitive(keys[k], keys[greatest], keys[j]); }
        }
        greatest := k;
      }
    }
  }
}
