/**
 Lists ordered by a time alone: `ListMyReports` by creation, the pending list by submission. Rows with equal
 times may come in any order, and in another order on the query for the next page.
 */
module TiedPages {
  import opened Domain
  import opened Tables
  import opened Paging

  /** Some answer to ORDER BY time DESC: every row once, times descending, ties in any order. */
  ghost predicate Orders(listed: seq<Uuid>, times: map<Uuid, Time>) {
    && (forall k :: k in listed <==> k in times)
    && (forall i, j :: 0 <= i < j < |listed| ==> listed[i] != listed[j] && times[listed[i]] >= times[listed[j]])
  }

  /** The first n rows are all strictly later than the rest. */
  predicate Cut(listed: seq<Uuid>, times: map<Uuid, Time>, n: int)
    requires forall k :: k in listed ==> k in times
  {
    0 < n < |listed| ==> times[listed[n - 1]] > times[listed[n]]
  }

  // ----- A cut selects the same rows whatever the order of ties -----

  function Later(times: map<Uuid, Time>, v: Time): set<Uuid> {
    set k | k in times && times[k] > v
  }

  function Elements(s: seq<Uuid>): set<Uuid> {
    set x | x in s
  }

  lemma {:induction false} DistinctSize(s: seq<Uuid>)
    requires forall i, j :: 0 <= i < j < |s| ==> s[i] != s[j]
    ensures |Elements(s)| == |s|
  {
    if s != [] {
      var last := |s| - 1;
      DistinctSize(s[..last]);
      assert Elements(s) == Elements(s[..last]) + {s[last]};
    }
  }

  lemma {:induction false} SubsetSize(a: set<Uuid>, b: set<Uuid>)
    requires a <= b
    ensures |a| <= |b|
  {
    if a != {} {
      var x :| x in a;
      SubsetSize(a - {x}, b - {x});
    }
  }

  lemma PrefixOfOrder(listed: seq<Uuid>, times: map<Uuid, Time>, n: nat)
    requires Orders(listed, times) && n <= |listed|
    ensures |Elements(listed[..n])| == n
  {
    DistinctSize(listed[..n]);
  }

  lemma CutIsLater(listed: seq<Uuid>, times: map<Uuid, Time>, n: nat)
    requires Orders(listed, times) && 0 < n < |listed| && Cut(listed, times, n)
    ensures Elements(listed[..n]) == Later(times, times[listed[n]]) && |Later(times, times[listed[n]])| == n
  {
    var v := times[listed[n]];
    forall x ensures x in Elements(listed[..n]) <==> x in Later(times, v) {
      if x in Later(times, v) {
        var i :| 0 <= i < |listed| && listed[i] == x;
        assert i < n;
        assert listed[..n][i] == x;
      }
    }
    PrefixOfOrder(listed, times, n);
  }

  /** In any order the later rows come first. */
  lemma LaterIsPrefix(listed: seq<Uuid>, times: map<Uuid, Time>, v: Time, n: nat)
    requires Orders(listed, times) && n <= |listed| && |Later(times, v)| == n
    ensures Elements(listed[..n]) == Later(times, v)
  {
    PrefixOfOrder(listed, times, n);
    if n > 0 && times[listed[n - 1]] <= v {
      forall x | x in Later(times, v) ensures x in Elements(listed[..n - 1]) {
        var i :| 0 <= i < |listed| && listed[i] == x;
        assert i < n - 1;
        assert listed[..n - 1][i] == x;
      }
      PrefixOfOrder(listed, times, n - 1);
      SubsetSize(Later(times, v), Elements(listed[..n - 1]));
      assert false;
    }
    assert Elements(listed[..n]) <= Later(times, v);
    SameSizeSubset(Elements(listed[..n]), Later(times, v));
  }

  lemma SameSizeSubset(a: set<Uuid>, b: set<Uuid>)
    requires a <= b && |a| == |b|
    ensures a == b
  {
    if b - a != {} {
      var x :| x in b - a;
      SubsetSize(a, b - {x});
      assert false;
    }
    assert b == a + (b - a);
  }

  lemma SamePrefix(a: seq<Uuid>, b: seq<Uuid>, times: map<Uuid, Time>, n: nat)
    requires Orders(a, times) && Orders(b, times) && n <= |a| && Cut(a, times, n)
    ensures |a| == |b| && Elements(a[..n]) == Elements(b[..n])
  {
    DistinctSize(a);
    DistinctSize(b);
    assert Elements(a) == times.Keys == Elements(b);
    if n == |a| {
      assert a[..n] == a && b[..n] == b;
    } else if n > 0 {
      CutIsLater(a, times, n);
      LaterIsPrefix(b, times, times[a[n]], n);
    }
  }

  // ----- Pages, each queried on its own -----

  /** One answer per announced page; the order of ties may differ from one to the next. */
  ghost predicate Queried(ls: seq<seq<Uuid>>, times: map<Uuid, Time>, perPage: int) {
    && |ls| == BuildPagination(|times|, 1, perPage).totalPages
    && forall i :: 0 <= i < |ls| ==> Orders(ls[i], times)
  }

  predicate Shows(ls: seq<seq<Uuid>>, perPage: int, p: int, x: Uuid) {
    1 <= p <= |ls| && OffsetOk(p, perPage) && x in Page(ls[p - 1], p, perPage)
  }

  /** Walking through the pages shows every row on exactly one of them. */
  ghost predicate ShownOnce(ls: seq<seq<Uuid>>, times: map<Uuid, Time>, perPage: int) {
    && (forall x :: x in times ==> IsShown(ls, perPage, x))
    && (forall x, p, q :: Shows(ls, perPage, p, x) && Shows(ls, perPage, q, x) ==> p == q)
  }

  ghost predicate AlwaysShownOnce(times: map<Uuid, Time>, perPage: int) {
    forall ls :: Queried(ls, times, perPage) ==> ShownOnce(ls, times, perPage)
  }

  /** Whatever the orders, no row is missed. */
  ghost predicate AlwaysCovers(times: map<Uuid, Time>, perPage: int) {
    forall ls, x :: Queried(ls, times, perPage) && x in times ==> IsShown(ls, perPage, x)
  }

  ghost predicate IsShown(ls: seq<seq<Uuid>>, perPage: int, x: Uuid) {
    exists p :: Shows(ls, perPage, p, x)
  }

  /** No two rows with equal times stand on both sides of a page end. */
  predicate NoTieAtPageEnd(listed: seq<Uuid>, times: map<Uuid, Time>, perPage: int)
    requires forall k :: k in listed ==> k in times
  {
    forall p :: 1 <= p < BuildPagination(|times|, 1, perPage).totalPages ==> Cut(listed, times, PageEnd(p, perPage))
  }

  function PageEnd(p: int, perPage: int): int {
    p * PageSize(perPage)
  }

  lemma OrderSize(listed: seq<Uuid>, times: map<Uuid, Time>)
    requires Orders(listed, times)
    ensures |listed| == |times|
  {
    DistinctSize(listed);
    assert Elements(listed) == times.Keys;
    assert |times| == |times.Keys|;
  }

  /** The bounds of an announced page. */
  lemma PageBounds(total: nat, perPage: int, p: int)
    requires perPage <= 100 && 1 <= p <= BuildPagination(total, 1, perPage).totalPages
    ensures 0 <= PageEnd(p - 1, perPage) <= total && PageEnd(p, perPage) == PageEnd(p - 1, perPage) + PageSize(perPage)
    ensures p < BuildPagination(total, 1, perPage).totalPages ==> PageEnd(p, perPage) < total
    ensures p == BuildPagination(total, 1, perPage).totalPages ==> total <= PageEnd(p, perPage)
  {
    var n, size := BuildPagination(total, 1, perPage).totalPages, PageSize(perPage);
    TotalPagesReach(total, 1, perPage);
    MulMonotone(0, p - 1, size);
    MulMonotone(p - 1, n - 1, size);
    assert p * size == (p - 1) * size + size;
    if p < n { MulMonotone(p, n - 1, size); }
  }

  /** A page holds the rows of the prefix up to its end that are not in the prefix up to its start. */
  lemma PageIsDifference(listed: seq<Uuid>, times: map<Uuid, Time>, perPage: int, p: int, x: Uuid)
    requires Orders(listed, times) && |times| <= MAX_INT32 && perPage <= 100
    requires 1 <= p <= BuildPagination(|times|, 1, perPage).totalPages
    ensures |listed| == |times| && OffsetOk(p, perPage) && 0 <= PageEnd(p - 1, perPage) <= |listed|
    ensures 0 <= PageEnd(p, perPage)
    ensures x in Page(listed, p, perPage) <==>
              x in listed[..Min(PageEnd(p, perPage), |listed|)] && x !in listed[..PageEnd(p - 1, perPage)]
  {
    OrderSize(listed, times);
    PageBounds(|times|, perPage, p);
    PageIsSlice(listed, p, perPage);
    SliceIsDifference(listed, PageEnd(p - 1, perPage), Min(PageEnd(p, perPage), |listed|), x);
  }

  lemma SliceIsDifference(s: seq<Uuid>, start: nat, end: nat, x: Uuid)
    requires start <= end <= |s| && forall i, j :: 0 <= i < j < |s| ==> s[i] != s[j]
    ensures x in s[start..end] <==> x in s[..end] && x !in s[..start]
  {
    if x in s[..end] && x !in s[..start] {
      var i :| 0 <= i < end && s[i] == x;
      assert forall k :: 0 <= k < start ==> s[..start][k] == s[k] && s[k] != x;
      assert s[start..end][i - start] == x;
    }
    if x in s[start..end] {
      var i :| 0 <= i < end - start && s[start..end][i] == x;
      assert s[..end][start + i] == x;
    }
  }

  lemma SameInPrefix(a: seq<Uuid>, b: seq<Uuid>, times: map<Uuid, Time>, n: nat, x: Uuid)
    requires Orders(a, times) && Orders(b, times) && n <= |a| && Cut(a, times, n)
    ensures |a| == |b| && (x in a[..n] <==> x in b[..n])
  {
    SamePrefix(a, b, times, n);
    InElements(a[..n], x);
    InElements(b[..n], x);
  }

  lemma InElements(s: seq<Uuid>, x: Uuid)
    ensures x in s <==> x in Elements(s)
  {
  }

  lemma CutAtStart(listed: seq<Uuid>, times: map<Uuid, Time>, perPage: int, p: int)
    requires Orders(listed, times) && NoTieAtPageEnd(listed, times, perPage)
    requires 1 <= p <= BuildPagination(|times|, 1, perPage).totalPages
    ensures Cut(listed, times, PageEnd(p - 1, perPage))
  {
  }

  lemma CutAtEnd(listed: seq<Uuid>, times: map<Uuid, Time>, perPage: int, p: int)
    requires Orders(listed, times) && NoTieAtPageEnd(listed, times, perPage) && perPage <= 100
    requires 1 <= p <= BuildPagination(|times|, 1, perPage).totalPages
    ensures Cut(listed, times, Min(PageEnd(p, perPage), |listed|))
  {
    if p == BuildPagination(|times|, 1, perPage).totalPages {
      OrderSize(listed, times);
      PageBounds(|times|, perPage, p);
    }
  }

  /** Where no tie crosses a page end, every order puts the same rows on a page. */
  lemma SameRowsOnPage(a: seq<Uuid>, b: seq<Uuid>, times: map<Uuid, Time>, perPage: int, p: int, x: Uuid)
    requires Orders(a, times) && Orders(b, times) && |times| <= MAX_INT32 && perPage <= 100
    requires NoTieAtPageEnd(a, times, perPage) && 1 <= p <= BuildPagination(|times|, 1, perPage).totalPages
    ensures OffsetOk(p, perPage) && (x in Page(a, p, perPage) <==> x in Page(b, p, perPage))
  {
    PageIsDifference(a, times, perPage, p, x);
    PageIsDifference(b, times, perPage, p, x);
    CutAtStart(a, times, perPage, p);
    CutAtEnd(a, times, perPage, p);
    SameInPrefix(a, b, times, PageEnd(p - 1, perPage), x);
    SameInPrefix(a, b, times, Min(PageEnd(p, perPage), |a|), x);
  }

  /** In one order a row stands on exactly one page. */
  lemma OnePageInOneOrder(listed: seq<Uuid>, times: map<Uuid, Time>, perPage: int, p: int, q: int, x: Uuid)
    requires Orders(listed, times) && |times| <= MAX_INT32 && perPage <= 100
    requires 1 <= p < q <= BuildPagination(|times|, 1, perPage).totalPages
    ensures OffsetOk(p, perPage) && OffsetOk(q, perPage)
    ensures !(x in Page(listed, p, perPage) && x in Page(listed, q, perPage))
  {
    PageIsDifference(listed, times, perPage, p, x);
    PageIsDifference(listed, times, perPage, q, x);
    PageBounds(|times|, perPage, p);
    PageBounds(|times|, perPage, q);
    MulMonotone(p, q - 1, PageSize(perPage));
    var end, start := Min(PageEnd(p, perPage), |listed|), PageEnd(q - 1, perPage);
    assert end <= start;
    if x in listed[..end] {
      var i :| 0 <= i < end && listed[i] == x;
      assert listed[..start][i] == x;
    }
  }

  lemma SomePageInOneOrder(listed: seq<Uuid>, times: map<Uuid, Time>, perPage: int, x: Uuid) returns (p: int)
    requires Orders(listed, times) && |times| <= MAX_INT32 && perPage <= 100 && x in times
    ensures 1 <= p <= BuildPagination(|times|, 1, perPage).totalPages && OffsetOk(p, perPage)
    ensures x in Page(listed, p, perPage)
  {
    var n := BuildPagination(|times|, 1, perPage).totalPages;
    OrderSize(listed, times);
    PagesPartition(listed, 1, perPage);
    InSomePage(listed, perPage, n, x);
    p :| 1 <= p <= n && x in Page(listed, p, perPage);
  }

  lemma {:induction false} InSomePage(rows: seq<Uuid>, perPage: int, n: nat, x: Uuid)
    requires forall p :: 1 <= p <= n ==> OffsetOk(p, perPage)
    requires x in Pages(rows, perPage, n)
    ensures exists p :: 1 <= p <= n && x in Page(rows, p, perPage)
  {
    if x !in Page(rows, n, perPage) { InSomePage(rows, perPage, n - 1, x); }
  }

  /** Two neighbours with equal times may as well stand the other way round. */
  lemma SwapTied(listed: seq<Uuid>, times: map<Uuid, Time>, n: int) returns (swapped: seq<Uuid>)
    requires Orders(listed, times) && !Cut(listed, times, n)
    ensures Orders(swapped, times) && 0 < n < |listed| == |swapped|
    ensures swapped[n] == listed[n - 1] && swapped[n - 1] == listed[n]
  {
    swapped := listed[n - 1 := listed[n]][n := listed[n - 1]];
    forall k ensures k in swapped <==> k in times {
      if k in listed {
        var i :| 0 <= i < |listed| && listed[i] == k;
        assert swapped[if i == n then n - 1 else if i == n - 1 then n else i] == k;
      }
    }
  }

  lemma LastOfPage(listed: seq<Uuid>, times: map<Uuid, Time>, perPage: int, p: int)
    requires Orders(listed, times) && |times| <= MAX_INT32 && perPage <= 100
    requires 1 <= p < BuildPagination(|times|, 1, perPage).totalPages
    ensures 0 < PageEnd(p, perPage) < |listed| && OffsetOk(p, perPage)
    ensures listed[PageEnd(p, perPage) - 1] in Page(listed, p, perPage)
  {
    OrderSize(listed, times);
    PageBounds(|times|, perPage, p);
    PageIsSlice(listed, p, perPage);
    var start, m := PageEnd(p - 1, perPage), PageEnd(p, perPage);
    assert listed[start..m][m - 1 - start] == listed[m - 1];
  }

  lemma FirstOfPage(listed: seq<Uuid>, times: map<Uuid, Time>, perPage: int, p: int)
    requires Orders(listed, times) && |times| <= MAX_INT32 && perPage <= 100
    requires 1 < p <= BuildPagination(|times|, 1, perPage).totalPages
    ensures 0 < PageEnd(p - 1, perPage) < |listed| && OffsetOk(p, perPage)
    ensures listed[PageEnd(p - 1, perPage)] in Page(listed, p, perPage)
  {
    OrderSize(listed, times);
    PageBounds(|times|, perPage, p - 1);
    PageBounds(|times|, perPage, p);
    PageIsSlice(listed, p, perPage);
    var m := PageEnd(p - 1, perPage);
    assert listed[m..Min(PageEnd(p, perPage), |listed|)][0] == listed[m];
  }

  /** With a tie across the end of page p, a row can be shown twice. */
  lemma TieShownTwice(listed: seq<Uuid>, times: map<Uuid, Time>, perPage: int, p: int)
    requires Orders(listed, times) && |times| <= MAX_INT32 && perPage <= 100
    requires 1 <= p < BuildPagination(|times|, 1, perPage).totalPages && !Cut(listed, times, PageEnd(p, perPage))
    ensures !AlwaysShownOnce(times, perPage)
  {
    var swapped := SwapTied(listed, times, PageEnd(p, perPage));
    LastOfPage(listed, times, perPage, p);
    FirstOfPage(swapped, times, perPage, p + 1);
    var ls := OtherOrderOnce(listed, swapped, times, perPage, p);
    ShownTwice(ls, times, perPage, p, listed[PageEnd(p, perPage) - 1]);
  }

  /** And its neighbour can be missed. */
  lemma TieMissesRow(listed: seq<Uuid>, times: map<Uuid, Time>, perPage: int, p: int)
    requires Orders(listed, times) && |times| <= MAX_INT32 && perPage <= 100
    requires 1 <= p < BuildPagination(|times|, 1, perPage).totalPages && !Cut(listed, times, PageEnd(p, perPage))
    ensures !AlwaysCovers(times, perPage)
  {
    var swapped := SwapTied(listed, times, PageEnd(p, perPage));
    FirstOfPage(listed, times, perPage, p + 1);
    LastOfPage(swapped, times, perPage, p);
    var ls := OtherOrderOnce(listed, swapped, times, perPage, p);
    NeverShown(ls, listed, swapped, times, perPage, p, listed[PageEnd(p, perPage)]);
    Missed(ls, times, perPage, listed[PageEnd(p, perPage)]);
  }

  lemma Missed(ls: seq<seq<Uuid>>, times: map<Uuid, Time>, perPage: int, x: Uuid)
    requires Queried(ls, times, perPage) && x in times && !IsShown(ls, perPage, x)
    ensures !AlwaysCovers(times, perPage)
  {
  }

  lemma OnlyPage(listed: seq<Uuid>, times: map<Uuid, Time>, perPage: int, p: int, q: int, x: Uuid)
    requires Orders(listed, times) && |times| <= MAX_INT32 && perPage <= 100 && OffsetOk(p, perPage)
    requires OffsetOk(q, perPage)
    requires 1 <= p <= BuildPagination(|times|, 1, perPage).totalPages
    requires 1 <= q <= BuildPagination(|times|, 1, perPage).totalPages
    requires x in Page(listed, p, perPage) && x in Page(listed, q, perPage)
    ensures p == q
  {
    if p < q {
      OnePageInOneOrder(listed, times, perPage, p, q, x);
    } else if q < p {
      OnePageInOneOrder(listed, times, perPage, q, p, x);
    }
  }

  /** A row on the page after p in one order and on page p in the other misses both. */
  lemma NeverShown(ls: seq<seq<Uuid>>, listed: seq<Uuid>, other: seq<Uuid>, times: map<Uuid, Time>, perPage: int,
                   p: int, x: Uuid)
    requires Queried(ls, times, perPage) && |times| <= MAX_INT32 && perPage <= 100 && 1 <= p < |ls|
    requires Orders(listed, times) && Orders(other, times)
    requires forall q :: 0 <= q < |ls| ==> ls[q] == if q == p then other else listed
    requires OffsetOk(p, perPage) && OffsetOk(p + 1, perPage)
    requires x in Page(listed, p + 1, perPage) && x in Page(other, p, perPage)
    ensures !IsShown(ls, perPage, x)
  {
    forall q ensures !Shows(ls, perPage, q, x) {
      if Shows(ls, perPage, q, x) {
        OnlyPage(ls[q - 1], times, perPage, q, if q == p + 1 then p else p + 1, x);
      }
    }
  }

  /** Every page is answered in one order, except the page after p. */
  lemma OtherOrderOnce(listed: seq<Uuid>, other: seq<Uuid>, times: map<Uuid, Time>, perPage: int, p: int)
    returns (ls: seq<seq<Uuid>>)
    requires Orders(listed, times) && Orders(other, times)
    requires 1 <= p < BuildPagination(|times|, 1, perPage).totalPages
    ensures Queried(ls, times, perPage) && p < |ls|
    ensures forall q :: 0 <= q < |ls| ==> ls[q] == if q == p then other else listed
  {
    ls := seq(BuildPagination(|times|, 1, perPage).totalPages, k => if k == p then other else listed);
  }

  lemma ShownTwice(ls: seq<seq<Uuid>>, times: map<Uuid, Time>, perPage: int, p: int, x: Uuid)
    requires Queried(ls, times, perPage) && 1 <= p < |ls| && OffsetOk(p, perPage) && OffsetOk(p + 1, perPage)
    requires x in Page(ls[p - 1], p, perPage) && x in Page(ls[p], p + 1, perPage)
    ensures !AlwaysShownOnce(times, perPage)
  {
    assert Shows(ls, perPage, p, x) && Shows(ls, perPage, p + 1, x);
    assert !ShownOnce(ls, times, perPage);
  }

  lemma NoTieShownOnce(listed: seq<Uuid>, times: map<Uuid, Time>, perPage: int, ls: seq<seq<Uuid>>)
    requires Orders(listed, times) && |times| <= MAX_INT32 && perPage <= 100
    requires NoTieAtPageEnd(listed, times, perPage) && Queried(ls, times, perPage)
    ensures ShownOnce(ls, times, perPage)
  {
    forall x | x in times ensures IsShown(ls, perPage, x) {
      var p := SomePageInOneOrder(listed, times, perPage, x);
      SameRowsOnPage(listed, ls[p - 1], times, perPage, p, x);
      assert Shows(ls, perPage, p, x);
    }
    forall x, p, q | Shows(ls, perPage, p, x) && Shows(ls, perPage, q, x) ensures p == q {
      SameRowsOnPage(listed, ls[p - 1], times, perPage, p, x);
      SameRowsOnPage(listed, ls[q - 1], times, perPage, q, x);
      OnlyPage(listed, times, perPage, p, q, x);
    }
  }

  /**
   Whatever order each page's query gives tied rows, the pages show every row exactly once, or at all, if and
   only if no tie stands across a page end. A last unique column, as the tenant-wide list has, rules ties out.
   */
  lemma ShownOnceIffNoTieAtPageEnd(listed: seq<Uuid>, times: map<Uuid, Time>, perPage: int)
    requires Orders(listed, times) && |times| <= MAX_INT32 && perPage <= 100
    ensures AlwaysShownOnce(times, perPage) <==> NoTieAtPageEnd(listed, times, perPage)
    ensures AlwaysCovers(times, perPage) <==> NoTieAtPageEnd(listed, times, perPage)
  {
    if NoTieAtPageEnd(listed, times, perPage) {
      forall ls | Queried(ls, times, perPage) ensures ShownOnce(ls, times, perPage) {
        NoTieShownOnce(listed, times, perPage, ls);
      }
    } else {
      var p :| 1 <= p < BuildPagination(|times|, 1, perPage).totalPages && !Cut(listed, times, PageEnd(p, perPage));
      TieShownTwice(listed, times, perPage, p);
      TieMissesRow(listed, times, perPage, p);
    }
  }
}
