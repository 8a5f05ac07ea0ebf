/** LIMIT/OFFSET pages of an ordered result, and the page count shown for it. */
module Paging {
  import opened Prelude
  import opened Tables

  datatype Pagination = Pagination(currentPage: int, perPage: int, totalCount: int, totalPages: int)

  function Min(x: int, y: int): int {
    if x < y then x else y
  }

  // ----- What the handlers accept -----

  /** A query parameter: missing, not an integer, or an integer. */
  datatype Query = Absent | Malformed | Number(value: int)

  /** The page size a list handler passes on; None is a validation error. */
  function AcceptedSize(q: Query): Option<int> {
    match q
    case Absent => Some(0)
    case Malformed => None
    case Number(v) => if v < 1 || v > 100 then None else Some(v)
  }

  function AcceptedPage(q: Query): Option<int> {
    match q
    case Absent => Some(0)
    case Malformed => None
    case Number(v) => if v < 1 then None else Some(v)
  }

  // ----- Pages -----

  /** The repository's page size: 20 by default, 100 at most. */
  function PageSize(perPage: int): int {
    if perPage <= 0 then 20 else if perPage > 100 then 100 else perPage
  }

  function PageNumber(page: int): int {
    if page <= 0 then 1 else page
  }

  /** The service's page information: the same defaults, but no upper limit on the page size. */
  function BuildPagination(total: int, page: int, perPage: int): Pagination {
    var size := if perPage <= 0 then 20 else perPage;
    var pages := (total + size - 1) / size;
    Pagination(PageNumber(page), size, total, if pages == 0 then 1 else pages)
  }

  /** LIMIT and OFFSET as PostgreSQL applies them to int4 parameters; a negative offset is an error. */
  predicate OffsetOk(page: int, perPage: int) {
    ToInt32((PageNumber(page) - 1) * PageSize(perPage)) >= 0
  }

  function Page<T>(rows: seq<T>, page: int, perPage: int): seq<T>
    requires OffsetOk(page, perPage)
  {
    var size := PageSize(perPage);
    var offset := ToInt32((PageNumber(page) - 1) * size);
    rows[Min(offset, |rows|)..Min(offset + size, |rows|)]
  }

  /** Clamping twice is clamping once. */
  lemma ClampedTwice<T>(rows: seq<T>, page: int, perPage: int)
    ensures OffsetOk(PageNumber(page), PageSize(perPage)) <==> OffsetOk(page, perPage)
    ensures OffsetOk(page, perPage) ==> Page(rows, PageNumber(page), PageSize(perPage)) == Page(rows, page, perPage)
    ensures BuildPagination(|rows|, PageNumber(page), PageSize(perPage))
         == BuildPagination(|rows|, page, PageSize(perPage))
  {
    assert PageSize(PageSize(perPage)) == PageSize(perPage) && PageNumber(PageNumber(page)) == PageNumber(page);
  }

  /** The repository's clamping, offset arithmetic and conversion to int4, and the slice PostgreSQL returns. */
  method TakePage<T>(rows: seq<T>, page: int, perPage: int) returns (ok: bool, shown: seq<T>)
    ensures ok <==> OffsetOk(page, perPage)
    ensures ok ==> shown == Page(rows, page, perPage)
  {
    var size, number := perPage, page;
    if size <= 0 {
      size := 20;
    }
    if size > 100 {
      size := 100;
    }
    if number <= 0 {
      number := 1;
    }
    var offset := ToInt32((number - 1) * size);
    if offset < 0 {
      return false, [];
    }
    return true, rows[Min(offset, |rows|)..Min(offset + size, |rows|)];
  }

  /** Pages 1 to n one after the other. */
  function Pages<T>(rows: seq<T>, perPage: int, n: nat): seq<T>
    requires forall p :: 1 <= p <= n ==> OffsetOk(p, perPage)
  {
    if n == 0 then [] else Pages(rows, perPage, n - 1) + Page(rows, n, perPage)
  }

  lemma MulMonotone(a: int, b: int, c: int)
    requires a <= b && 0 <= c
    ensures a * c <= b * c
  {
  }

  /** A page that starts inside the result is the plain slice the footer announces as "start - end". */
  lemma PageIsSlice<T>(rows: seq<T>, page: int, perPage: int)
    requires |rows| <= MAX_INT32 && 1 <= page
    requires (page - 1) * PageSize(perPage) <= |rows|
    ensures OffsetOk(page, perPage)
    ensures 0 <= (page - 1) * PageSize(perPage) <= Min(page * PageSize(perPage), |rows|)
    ensures Page(rows, page, perPage) == rows[(page - 1) * PageSize(perPage)..Min(page * PageSize(perPage), |rows|)]
  {
    var size := PageSize(perPage);
    MulMonotone(0, page - 1, size);
    assert page * size == (page - 1) * size + size;
  }

  /** The first n pages are a prefix of the result: no gap, no duplicate. */
  lemma {:induction false} PagesArePrefix<T>(rows: seq<T>, perPage: int, n: nat)
    requires |rows| <= MAX_INT32 && (n > 0 ==> (n - 1) * PageSize(perPage) <= |rows|)
    ensures forall p :: 1 <= p <= n ==> OffsetOk(p, perPage)
    ensures 0 <= n * PageSize(perPage)
    ensures Pages(rows, perPage, n) == rows[..Min(n * PageSize(perPage), |rows|)]
  {
    var size := PageSize(perPage);
    if n > 0 {
      PageStarts(n, size);
      PagesArePrefix(rows, perPage, n - 1);
      PageIsSlice(rows, n, perPage);
      PrefixAndSlice(rows, (n - 1) * size, Min(n * size, |rows|));
    }
  }

  lemma PageStarts(n: nat, size: int)
    requires n > 0 && size > 0
    ensures n * size == (n - 1) * size + size && 0 <= (n - 1) * size
    ensures n > 1 ==> (n - 2) * size <= (n - 1) * size
  {
    MulMonotone(0, n - 1, size);
    if n > 1 { MulMonotone(n - 2, n - 1, size); }
  }

  lemma PrefixAndSlice<T>(rows: seq<T>, start: nat, end: nat)
    requires start <= end <= |rows|
    ensures rows[..start] + rows[start..end] == rows[..end]
  {
  }

  /** The announced number of pages is the smallest that reaches the end of the result. */
  lemma TotalPagesReach(total: int, page: int, perPage: int)
    requires 0 <= total
    ensures var p := BuildPagination(total, page, perPage);
            && 1 <= p.totalPages && total <= p.totalPages * p.perPage
            && (total > 0 ==> (p.totalPages - 1) * p.perPage < total)
            && (total == 0 ==> p.totalPages == 1)
  {
    var size := if perPage <= 0 then 20 else perPage;
    var pages := (total + size - 1) / size;
    assert total + size - 1 == pages * size + (total + size - 1) % size;
    if pages <= 0 {
      MulMonotone(pages, 0, size);
      assert total == 0;
    } else {
      assert (pages - 1) * size == pages * size - size;
      if total == 0 && pages > 1 {
        MulMonotone(2, pages, size);
        assert false;
      }
    }
  }

  /** Pages 1 to n are the whole result in order, and only an empty result has an empty page. */
  ghost predicate Partitioned<T(!new)>(rows: seq<T>, perPage: int, n: int) {
    && 0 <= n && (forall p :: 1 <= p <= n ==> OffsetOk(p, perPage))
    && Pages(rows, perPage, n) == rows
    && (rows != [] ==> forall p :: 1 <= p <= n ==> Page(rows, p, perPage) != [])
  }

  /** For a page size within the limit, the announced pages partition the result. */
  lemma PagesPartition<T(!new)>(rows: seq<T>, page: int, perPage: int)
    requires |rows| <= MAX_INT32 && perPage <= 100
    ensures Partitioned(rows, perPage, BuildPagination(|rows|, page, perPage).totalPages)
  {
    var p := BuildPagination(|rows|, page, perPage);
    TotalPagesReach(|rows|, page, perPage);
    assert p.perPage == PageSize(perPage);
    PagesArePrefix(rows, perPage, p.totalPages);
    forall k | 1 <= k <= p.totalPages && rows != [] ensures Page(rows, k, perPage) != [] {
      MulMonotone(k - 1, p.totalPages - 1, p.perPage);
      assert k * p.perPage == (k - 1) * p.perPage + p.perPage;
      PageIsSlice(rows, k, perPage);
    }
  }

  lemma {:induction false} SamePages<T>(rows: seq<T>, perPage: int, size: int, n: nat)
    requires size == PageSize(perPage) && forall p :: 1 <= p <= n ==> OffsetOk(p, size)
    ensures forall p :: 1 <= p <= n ==> OffsetOk(p, perPage) && Page(rows, p, perPage) == Page(rows, p, size)
    ensures Pages(rows, perPage, n) == Pages(rows, size, n)
  {
    assert PageSize(size) == size;
    assert forall p :: OffsetOk(p, perPage) <==> OffsetOk(p, size);
    if n > 0 { SamePages(rows, perPage, size, n - 1); }
  }

  lemma SamePartition<T(!new)>(rows: seq<T>, perPage: int, size: int, n: int)
    requires size == PageSize(perPage) && Partitioned(rows, size, n)
    ensures Partitioned(rows, perPage, n)
  {
    SamePages(rows, perPage, size, n);
  }

  /** A list that announces pages of the clamped size partitions whatever page size is asked for. */
  lemma ClampedPagesPartition<T(!new)>(rows: seq<T>, perPage: int)
    requires |rows| <= MAX_INT32
    ensures Partitioned(rows, perPage, BuildPagination(|rows|, 1, PageSize(perPage)).totalPages)
  {
    PagesPartition(rows, 1, PageSize(perPage));
    SamePartition(rows, perPage, PageSize(perPage), BuildPagination(|rows|, 1, PageSize(perPage)).totalPages);
  }

  lemma OnPage<T>(rows: seq<T>, page: int, perPage: int, x: T)
    requires OffsetOk(page, perPage) && x in Page(rows, page, perPage)
    ensures x in rows
  {
  }

  /** The footer's "start - end" text. */
  function FooterStart(page: int, perPage: int, total: int): int {
    if total == 0 then 0 else (page - 1) * perPage + 1
  }

  function FooterEnd(page: int, perPage: int, total: int): int {
    Min(page * perPage, total)
  }

  /** What the footer announces is what the page holds. */
  lemma FooterMatchesPage<T>(rows: seq<T>, page: int, perPage: int)
    requires |rows| <= MAX_INT32 && 1 <= perPage <= 100
    requires 1 <= page <= BuildPagination(|rows|, page, perPage).totalPages
    ensures OffsetOk(page, perPage)
    ensures var start, end := FooterStart(page, perPage, |rows|), FooterEnd(page, perPage, |rows|);
            if rows == [] then start == end == 0 && Page(rows, page, perPage) == []
            else 1 <= start <= end <= |rows| && Page(rows, page, perPage) == rows[start - 1..end]
  {
    var p := BuildPagination(|rows|, page, perPage);
    TotalPagesReach(|rows|, page, perPage);
    MulMonotone(page - 1, p.totalPages - 1, perPage);
    assert page * perPage == (page - 1) * perPage + perPage;
    MulMonotone(0, page - 1, perPage);
    PageIsSlice(rows, page, perPage);
  }

  /**
   Whatever page size a handler lets through, the pages its service announces partition the list, also where
   the service does not clamp the size itself: the repository's cap is out of reach.
   */
  lemma AcceptedPagesPartition<T(!new)>(rows: seq<T>, page: Query, perPage: Query)
    requires |rows| <= MAX_INT32 && AcceptedPage(page).Some? && AcceptedSize(perPage).Some?
    ensures var size := AcceptedSize(perPage).value;
            Partitioned(rows, size, BuildPagination(|rows|, AcceptedPage(page).value, size).totalPages)
  {
    PagesPartition(rows, AcceptedPage(page).value, AcceptedSize(perPage).value);
  }

  /** Integers from 1 to 100 are accepted as a page size, positive ones as a page number, and nothing malformed. */
  lemma AcceptedParameters(q: Query)
    ensures AcceptedSize(q).Some? <==> q == Absent || (q.Number? && 1 <= q.value <= 100)
    ensures AcceptedPage(q).Some? <==> q == Absent || (q.Number? && 1 <= q.value)
    ensures q.Number? && AcceptedSize(q).Some? ==> AcceptedSize(q) == Some(q.value)
    ensures q.Number? && AcceptedPage(q).Some? ==> AcceptedPage(q) == Some(q.value)
  {
  }

  /** A page asked for within the result, by any numbers: 20 rows by default, 100 at most, the first page by default. */
  lemma PageShows<T>(rows: seq<T>, page: int, perPage: int)
    requires |rows| <= MAX_INT32
    ensures var size := if perPage <= 0 then 20 else if perPage > 100 then 100 else perPage;
            var number := if page <= 0 then 1 else page;
            (number - 1) * size <= |rows| ==>
              && OffsetOk(page, perPage) && 0 <= (number - 1) * size
              && Page(rows, page, perPage)
                 == if |rows| <= number * size then rows[(number - 1) * size..]
                    else rows[(number - 1) * size..number * size]
    ensures var p := BuildPagination(|rows|, page, perPage);
            && p.currentPage == (if page <= 0 then 1 else page) && p.perPage == (if perPage <= 0 then 20 else perPage)
            && p.totalCount == |rows|
  {
    var number := PageNumber(page);
    if (number - 1) * PageSize(perPage) <= |rows| {
      PageIsSlice(rows, number, perPage);
    }
  }

  /**
   Why the services that do not clamp need the handlers' check: taken alone, with a size above the cap, their
   announced pages cover the list exactly when 100 rows for each of them are enough.
   */
  lemma AnnouncedPagesCover<T(!new)>(rows: seq<T>, perPage: int)
    requires |rows| <= MAX_INT32
    ensures var n := BuildPagination(|rows|, 1, perPage).totalPages;
            && (forall k :: 1 <= k <= n ==> OffsetOk(k, perPage))
            && (Pages(rows, perPage, n) == rows <==> perPage <= 100 || |rows| <= 100 * n)
  {
    var n := BuildPagination(|rows|, 1, perPage).totalPages;
    TotalPagesReach(|rows|, 1, perPage);
    if perPage <= 100 {
      PagesPartition(rows, 1, perPage);
    } else {
      MulMonotone(100, perPage, n - 1);
      PagesArePrefix(rows, perPage, n);
    }
  }
}
