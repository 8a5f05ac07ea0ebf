/** Small building blocks shared by every module: optional values and sums over finite maps. */
module Prelude {

  datatype Option<+T> = None | Some(value: T)

  /** The sum of a map's values: what `SUM(column)` means over the selected rows. */
  ghost function Sum<K>(m: map<K, int>): int
    decreases |m|
  {
    if m == map[] then 0
    else
      var k :| k in m;
      m[k] + Sum(m - {k})
  }

  /** The choice made inside Sum does not matter: any row may be counted first. */
  lemma {:induction false} SumRemove<K>(m: map<K, int>, k: K)
    requires k in m
    ensures Sum(m) == m[k] + Sum(m - {k})
    decreases |m|
  {
    var j :| j in m && Sum(m) == m[j] + Sum(m - {j});
    if j != k {
      SumRemove(m - {j}, k);
      SumRemove(m - {k}, j);
      assert m - {j} - {k} == m - {k} - {j};
    }
  }

  lemma {:induction false} SumNonNegative<K>(m: map<K, int>)
    requires forall k :: k in m ==> 0 <= m[k]
    ensures 0 <= Sum(m)
    decreases |m|
  {
    if m != map[] {
      var k :| k in m;
      SumRemove(m, k);
      SumNonNegative(m - {k});
    }
  }

  /** Leaving rows out of a sum of non-negative values cannot make it larger. */
  lemma {:induction false} SumSubset<K>(part: map<K, int>, whole: map<K, int>)
    requires forall k :: k in whole ==> 0 <= whole[k]
    requires forall k :: k in part ==> k in whole && part[k] == whole[k]
    ensures Sum(part) <= Sum(whole)
    decreases |part|
  {
    if part == map[] {
      SumNonNegative(whole);
    } else {
      var k :| k in part;
      SumRemove(part, k);
      SumRemove(whole, k);
      SumSubset(part - {k}, whole - {k});
    }
  }

  /** Renaming the rows one to one keeps the sum. */
  lemma {:induction false} SumRename<K, L>(m: map<K, int>, name: map<K, L>, renamed: map<L, int>)
    requires m.Keys <= name.Keys
    requires forall i, j :: i in m && j in m && name[i] == name[j] ==> i == j
    requires forall k :: k in m ==> name[k] in renamed && renamed[name[k]] == m[k]
    requires forall l :: l in renamed ==> exists k :: k in m && name[k] == l
    ensures Sum(renamed) == Sum(m)
    decreases |m|
  {
    if m == map[] {
      assert renamed == map[];
    } else {
      var k :| k in m;
      SumRemove(m, k);
      SumRemove(renamed, name[k]);
      SumRename(m - {k}, name, renamed - {name[k]});
    }
  }

  /** The rows of one group: those the classifier sends to `g`. */
  ghost function Group<K, G>(m: map<K, int>, key: map<K, G>, g: G): map<K, int>
    requires m.Keys <= key.Keys
  {
    map k | k in m && key[k] == g :: m[k]
  }

  /** One summed row per group, as `SELECT g, SUM(v) ... GROUP BY g` returns. */
  ghost function GroupSums<K, G>(m: map<K, int>, key: map<K, G>): map<G, int>
    requires m.Keys <= key.Keys
  {
    map g | g in (set k | k in m :: key[k]) :: Sum(Group(m, key, g))
  }

  /** Taking one row out touches only that row's group. */
  lemma GroupSumsWithout<K, G>(m: map<K, int>, key: map<K, G>, k: K)
    requires m.Keys <= key.Keys && k in m
    ensures GroupSums(m, key) - {key[k]} == GroupSums(m - {k}, key) - {key[k]}
  {
    var g, rest := key[k], m - {k};
    forall h | h != g
      ensures Group(rest, key, h) == Group(m, key, h)
      ensures h in GroupSums(m, key) <==> h in GroupSums(rest, key)
    {
      if h in GroupSums(m, key) {
        var j :| j in m && key[j] == h;
        assert j in rest;
      }
    }
  }

  lemma GroupSumAt<K, G>(m: map<K, int>, key: map<K, G>, k: K)
    requires m.Keys <= key.Keys && k in m
    ensures key[k] in GroupSums(m, key)
    ensures GroupSums(m, key)[key[k]] == m[k] + Sum(Group(m - {k}, key, key[k]))
  {
    SumRemove(Group(m, key, key[k]), k);
    assert Group(m, key, key[k]) - {k} == Group(m - {k}, key, key[k]);
  }

  /** Grouping loses nothing: the group sums add up to the ungrouped sum. */
  lemma {:induction false} GroupSumsTotal<K, G>(m: map<K, int>, key: map<K, G>)
    requires m.Keys <= key.Keys
    ensures Sum(GroupSums(m, key)) == Sum(m)
    decreases |m|
  {
    var sums := GroupSums(m, key);
    if m == map[] {
      assert sums == map[];
    } else {
      var k :| k in m;
      var g, rest := key[k], m - {k};
      var restSums := GroupSums(rest, key);
      SumRemove(m, k);
      GroupSumsTotal(rest, key);
      GroupSumsWithout(m, key, k);
      GroupSumAt(m, key, k);
      SumRemove(sums, g);
      if g in restSums {
        SumRemove(restSums, g);
      } else {
        assert Group(rest, key, g) == map[];
        assert restSums - {g} == restSums;
      }
    }
  }

  /** A group has a summed row exactly when it is not empty. */
  lemma GroupSumOf<K, G>(m: map<K, int>, key: map<K, G>, g: G)
    requires m.Keys <= key.Keys
    ensures g in GroupSums(m, key) <==> Group(m, key, g) != map[]
    ensures Sum(Group(m, key, g)) == if g in GroupSums(m, key) then GroupSums(m, key)[g] else 0
  {
    if k :| k in m && key[k] == g {
      assert k in Group(m, key, g);
    } else {
      assert Group(m, key, g) == map[];
    }
  }

  /** A table of sums is the grouped query if it has a row, with the right sum, for each non-empty group. */
  lemma GroupSumsAre<K, G(!new)>(m: map<K, int>, key: map<K, G>, sums: map<G, int>)
    requires m.Keys <= key.Keys
    requires forall g :: Group(m, key, g) == map[] <==> g !in sums
    requires forall g :: g in sums ==> Sum(Group(m, key, g)) == sums[g]
    ensures GroupSums(m, key) == sums
  {
    forall g ensures g in GroupSums(m, key) <==> g in sums
             ensures g in sums ==> GroupSums(m, key)[g] == sums[g] {
      GroupSumOf(m, key, g);
    }
  }

  /** Rows that add nothing may be left out. */
  lemma {:induction false} SumPadded<K>(m: map<K, int>, padded: map<K, int>)
    requires forall k :: k in m ==> k in padded && padded[k] == m[k]
    requires forall k :: k in padded && k !in m ==> padded[k] == 0
    ensures Sum(padded) == Sum(m)
    decreases |padded|
  {
    if padded == map[] {
      assert m == map[];
    } else {
      var k :| k in padded;
      SumRemove(padded, k);
      if k in m {
        SumRemove(m, k);
        SumPadded(m - {k}, padded - {k});
      } else {
        SumPadded(m, padded - {k});
      }
    }
  }
}
