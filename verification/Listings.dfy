/**
 The report lists. A list service filters, orders and pages the table, then dresses each row with its
 submitter's name. `ListAllReports` and `ListProcessed` order by a unique key; the order of the other
 lists is open where rows tie (`TiedPages`).
 */
module Listings {
  import opened Prelude
  import opened Domain
  import opened Tables
  import opened Requests
  import opened Invariant
  import opened Runs
  import opened Ordering
  import opened Paging
  import opened Persistence
  import opened TiedPages

  // ----- The rows each query selects -----

  datatype Filter = Filter(status: Option<Status>, from: Option<Date>, to: Option<Date>, user: Option<Uuid>)

  const NO_FILTER := Filter(None, None, None, None)

  predicate Selected(row: Report, t: Uuid, f: Filter) {
    && row.tenant == t && row.deletedAt.None?
    && (f.status.Some? ==> row.status == f.status.value)
    && (f.from.Some? ==> row.periodStart >= f.from.value)
    && (f.to.Some? ==> row.periodEnd <= f.to.value)
    && (f.user.Some? ==> row.owner == f.user.value)
  }

  function Filtered(reports: map<Uuid, Report>, t: Uuid, f: Filter): map<Uuid, Report> {
    map k | k in reports && Selected(reports[k], t, f) :: reports[k]
  }

  /** ListReportsByUser without further filters. */
  function Mine(db: Db, a: Actor): map<Uuid, Report> {
    Filtered(db.reports, a.tenant, NO_FILTER.(user := Some(a.user)))
  }

  /** ListPendingReports: the join with `users` needs the owner's row. */
  function Pending(db: Db, t: Uuid): map<Uuid, Report> {
    map k | k in db.reports && Selected(db.reports[k], t, NO_FILTER.(status := Some(Submitted)))
            && db.reports[k].owner in db.users
      :: db.reports[k]
  }

  /** ListProcessedReports: decided by the actor. */
  function Processed(db: Db, a: Actor): map<Uuid, Report> {
    map k | k in db.reports && Selected(db.reports[k], a.tenant, NO_FILTER) && DecidedBy(db.reports[k], a.user)
      :: db.reports[k]
  }

  predicate DecidedBy(row: Report, user: Uuid) {
    row.approvedBy == Some(user) || row.rejectedBy == Some(user)
  }

  // ----- Who may see a report -----

  function CanView(a: Actor, row: Report): Result<()> {
    if a.user == row.owner then Ok(())
    else
      match a.role
      case Admin => Ok(())
      case Accounting => Ok(())
      case Approver =>
        if row.status == Submitted || row.approvedBy == Some(a.user) || row.rejectedBy == Some(a.user) then Ok(())
        else Err(Forbidden)
      case Member => Err(Forbidden)
  }

  /** GetReport: the rows a single-report request shows. */
  function GetReport(db: Db, a: Actor, r: Uuid): Result<Report> {
    var row :- FindReport(db, a.tenant, r);
    var _ :- CanView(a, row);
    Ok(row)
  }

  /** The reports on the lists the actor's role is routed to. */
  function OnLists(db: Db, a: Actor): set<Uuid> {
    match a.role
    case Member => Mine(db, a).Keys
    case Approver => Mine(db, a).Keys + Pending(db, a.tenant).Keys + Processed(db, a).Keys
    case Accounting => Filtered(db.reports, a.tenant, NO_FILTER).Keys
    case Admin => Filtered(db.reports, a.tenant, NO_FILTER).Keys
  }

  /** In every reachable state a report can be opened exactly by those on whose lists it stands. */
  lemma ViewableIsListed(ws: seq<World>, i: nat, a: Actor, r: Uuid)
    requires IsRun(ws) && i < |ws|
    ensures GetReport(ws[i].db, a, r).Ok? <==> r in OnLists(ws[i].db, a)
  {
    Reachable(ws, i);
    var db := ws[i].db;
    OwnerIsUser(db, r);
    WhoseList(db, a, r);
    match a.role
    case Approver =>
      assert GetReport(db, a, r).Ok? <==> r in Mine(db, a) || r in Pending(db, a.tenant) || r in Processed(db, a);
    case Member =>
    case Accounting =>
    case Admin =>
  }

  /** Each list selects live reports of the tenant by one condition. */
  lemma WhoseList(db: Db, a: Actor, r: Uuid)
    requires r in db.reports ==> db.reports[r].owner in db.users
    ensures var found := FindReport(db, a.tenant, r);
            && (r in Filtered(db.reports, a.tenant, NO_FILTER) <==> found.Ok?)
            && (r in Mine(db, a) <==> found.Ok? && found.value.owner == a.user)
            && (r in Pending(db, a.tenant) <==> found.Ok? && found.value.status == Submitted)
            && (r in Processed(db, a) <==> found.Ok? && DecidedBy(found.value, a.user))
  {
  }

  lemma OwnerIsUser(db: Db, r: Uuid)
    requires Inv(db)
    ensures r in db.reports ==> db.reports[r].owner in db.users
  {
    if r in db.reports { assert ReportOk(db, r); }
  }

  function CreatedColumn(rows: map<Uuid, Report>): map<Uuid, Time> {
    map k | k in rows :: rows[k].createdAt
  }

  /** ORDER BY submitted_at; every pending row has one, and a missing one would sort by 0. */
  function SubmittedColumn(rows: map<Uuid, Report>): map<Uuid, Time> {
    map k | k in rows :: if rows[k].submittedAt.Some? then rows[k].submittedAt.value else 0
  }

  /** However ties come, own reports stand in order of creation, latest first. */
  lemma OwnOrderedByCreation(db: Db, a: Actor, mine: seq<Uuid>)
    requires Orders(mine, CreatedColumn(Mine(db, a)))
    ensures forall m, n :: 0 <= m < n < |mine| ==>
              && mine[m] in db.reports && mine[n] in db.reports
              && db.reports[mine[m]].createdAt >= db.reports[mine[n]].createdAt
  {
    var times := CreatedColumn(Mine(db, a));
    forall k | k in times ensures k in db.reports && times[k] == db.reports[k].createdAt {
      assert k in Mine(db, a);
    }
    forall m, n | 0 <= m < n < |mine| ensures mine[m] in times && mine[n] in times {
      assert mine[m] in mine && mine[n] in mine;
    }
  }

  /** In every reachable state pending reports stand in order of their submission, which they all have. */
  lemma PendingOrderedBySubmission(ws: seq<World>, i: nat, t: Uuid, pending: seq<Uuid>)
    requires IsRun(ws) && i < |ws| && Orders(pending, SubmittedColumn(Pending(ws[i].db, t)))
    ensures var reports := ws[i].db.reports;
            forall m, n :: 0 <= m < n < |pending| ==>
              && pending[m] in reports && pending[n] in reports
              && reports[pending[m]].submittedAt.Some? && reports[pending[n]].submittedAt.Some?
              && reports[pending[m]].submittedAt.value >= reports[pending[n]].submittedAt.value
  {
    var rows := Pending(ws[i].db, t);
    Reachable(ws, i);
    PendingSubmitted(ws[i].db, t);
    forall m, n | 0 <= m < n < |pending| ensures pending[m] in rows && pending[n] in rows {
      assert pending[m] in pending && pending[n] in pending;
    }
  }

  lemma PendingSubmitted(db: Db, t: Uuid)
    requires Inv(db)
    ensures forall k :: k in Pending(db, t) ==>
              && k in db.reports && Pending(db, t)[k] == db.reports[k]
              && db.reports[k].submittedAt.Some?
              && SubmittedColumn(Pending(db, t))[k] == db.reports[k].submittedAt.value
  {
    forall k | k in Pending(db, t) ensures db.reports[k].submittedAt.Some? {
      assert ReportOk(db, k);
    }
  }

  /** Walking through the pages, each queried on its own, shows every row and no other if no tie crosses a page end. */
  lemma PagesShowAll(ls: seq<seq<Uuid>>, times: map<Uuid, Time>, perPage: int, r: Uuid)
    requires Queried(ls, times, perPage) && |times| <= MAX_INT32 && perPage <= 100
    ensures IsShown(ls, perPage, r) ==> r in times
    ensures ls != [] && (NoTieAtPageEnd(ls[0], times, perPage) && r in times ==> IsShown(ls, perPage, r))
  {
    TotalPagesReach(|times|, 1, perPage);
    if p :| Shows(ls, perPage, p, r) {
      OnPage(ls[p - 1], p, perPage, r);
    }
    if NoTieAtPageEnd(ls[0], times, perPage) {
      ShownOnceIffNoTieAtPageEnd(ls[0], times, perPage);
      assert ShownOnce(ls, times, perPage);
    }
  }

  /** Every page answered from the same list. */
  ghost function Repeated(listed: seq<Uuid>, n: nat): seq<seq<Uuid>> {
    seq(n, _ => listed)
  }

  /** The pages an approver can ask for: every own and pending page in an order of its own. */
  ghost predicate ApproverPages(db: Db, a: Actor, perPage: int, mine: seq<seq<Uuid>>, pending: seq<seq<Uuid>>,
                                processed: seq<seq<Uuid>>)
  {
    && Queried(mine, CreatedColumn(Mine(db, a)), perPage)
    && Queried(pending, SubmittedColumn(Pending(db, a.tenant)), perPage)
    && IsRepeated(processed, AllProcessed(db, a), perPage)
  }

  ghost predicate NoTies(db: Db, a: Actor, perPage: int, mine: seq<Uuid>, pending: seq<Uuid>)
    requires Orders(mine, CreatedColumn(Mine(db, a))) && Orders(pending, SubmittedColumn(Pending(db, a.tenant)))
  {
    && NoTieAtPageEnd(mine, CreatedColumn(Mine(db, a)), perPage)
    && NoTieAtPageEnd(pending, SubmittedColumn(Pending(db, a.tenant)), perPage)
  }

  ghost predicate IsRepeated(ls: seq<seq<Uuid>>, listed: seq<Uuid>, perPage: int) {
    var n := BuildPagination(|listed|, 1, perPage).totalPages;
    0 <= n && ls == Repeated(listed, n)
  }

  /** A list with one order is shown completely by its pages. */
  lemma RepeatedShowsAll(ls: seq<seq<Uuid>>, listed: seq<Uuid>, perPage: int, r: Uuid)
    requires IsRepeated(ls, listed, perPage) && |listed| <= MAX_INT32 && perPage <= 100
    ensures IsShown(ls, perPage, r) <==> r in listed
  {
    if p :| Shows(ls, perPage, p, r) {
      OnPage(listed, p, perPage, r);
    }
    if r in listed {
      PagesPartition(listed, 1, perPage);
      InSomePage(listed, perPage, |ls|, r);
      var p :| 1 <= p <= |ls| && r in Page(listed, p, perPage);
      assert Shows(ls, perPage, p, r);
    }
  }

  /**
   For an approver: what some page of the own, pending or processed list shows can be opened, and what can be
   opened is on some page, if no tie crosses a page end of the two lists that are ordered by a time alone.
   */
  lemma ApproverSeesPages(ws: seq<World>, i: nat, a: Actor, r: Uuid, perPage: int,
                          mine: seq<seq<Uuid>>, pending: seq<seq<Uuid>>, processed: seq<seq<Uuid>>)
    requires IsRun(ws) && i < |ws| && a.role == Approver && perPage <= 100
    requires |ws[i].db.reports| <= MAX_INT32
    requires ApproverPages(ws[i].db, a, perPage, mine, pending, processed)
    ensures mine != [] && pending != []
    ensures var shown := IsShown(mine, perPage, r) || IsShown(pending, perPage, r) || IsShown(processed, perPage, r);
            && (shown ==> GetReport(ws[i].db, a, r).Ok?)
            && (NoTies(ws[i].db, a, perPage, mine[0], pending[0]) && GetReport(ws[i].db, a, r).Ok? ==> shown)
  {
    var db := ws[i].db;
    ViewableIsListed(ws, i, a, r);
    SelectedFit(db, a);
    PagesShowAll(mine, CreatedColumn(Mine(db, a)), perPage, r);
    PagesShowAll(pending, SubmittedColumn(Pending(db, a.tenant)), perPage, r);
    RepeatedShowsAll(processed, AllProcessed(db, a), perPage, r);
    DecidedLastRows(Processed(db, a));
  }

  /** A selection has no more rows than its table. */
  lemma SelectedFit(db: Db, a: Actor)
    ensures |CreatedColumn(Mine(db, a))| <= |db.reports|
    ensures |SubmittedColumn(Pending(db, a.tenant))| <= |db.reports|
    ensures |AllProcessed(db, a)| <= |db.reports|
  {
    KeysFit(CreatedColumn(Mine(db, a)), db.reports);
    KeysFit(SubmittedColumn(Pending(db, a.tenant)), db.reports);
    KeysFit(DecidedLast(Processed(db, a)), db.reports);
    InOrderIsSorted(DecidedLast(Processed(db, a)), 3);
  }

  lemma KeysFit<V, W>(part: map<Uuid, V>, whole: map<Uuid, W>)
    requires part.Keys <= whole.Keys
    ensures |part| <= |whole|
  {
    SubsetSize(part.Keys, whole.Keys);
    assert |part| == |part.Keys| && |whole| == |whole.Keys|;
  }

  // ----- All reports of the tenant -----

  /** ORDER BY submitted_at DESC NULLS LAST, created_at DESC, report_id DESC. */
  function LatestFirst(rows: map<Uuid, Report>): (keys: map<Uuid, SortKey>)
    ensures Distinct(keys, 4)
  {
    map k | k in rows ::
      if rows[k].submittedAt.Some? then [1, rows[k].submittedAt.value, rows[k].createdAt, k]
      else [0, 0, rows[k].createdAt, k]
  }

  /** The complete list, of which `ListAllReports` shows one page. */
  ghost function AllReports(reports: map<Uuid, Report>, t: Uuid, f: Filter): seq<Uuid> {
    InOrder(LatestFirst(Filtered(reports, t, f)), 4)
  }

  datatype UserSummary = UserSummary(id: Uuid, name: string)

  datatype Summary = Summary(
    id: Uuid, title: string, periodStart: Date, periodEnd: Date, status: Status, total: int,
    submittedAt: Option<Time>, createdAt: Time, updatedAt: Time, submitter: Option<UserSummary>)

  function ToSummary(id: Uuid, row: Report): Summary {
    Summary(id, row.title, row.periodStart, row.periodEnd, row.status, row.total, row.submittedAt, row.createdAt,
            row.updatedAt, None)
  }

  predicate IsOwner(u: UserSummary, row: Report, users: map<Uuid, string>) {
    row.owner in users && u == UserSummary(row.owner, users[row.owner])
  }

  /** The summary shows the row, and names nobody but its owner. */
  predicate Describes(s: Summary, id: Uuid, db: Db) {
    && id in db.reports && s.id == id && s.title == db.reports[id].title && s.status == db.reports[id].status
    && s.periodStart == db.reports[id].periodStart && s.periodEnd == db.reports[id].periodEnd
    && s.total == db.reports[id].total && s.submittedAt == db.reports[id].submittedAt
    && s.createdAt == db.reports[id].createdAt && s.updatedAt == db.reports[id].updatedAt
    && (s.submitter.Some? ==> IsOwner(s.submitter.value, db.reports[id], db.users))
  }

  predicate NamesOwner(s: Summary, id: Uuid, db: Db) {
    id in db.reports && (db.reports[id].owner in db.users ==> s.submitter.Some?)
  }

  /** The user lookup behind the submitter column; a failure leaves the column empty. */
  method GetUser(db: Database, u: Uuid) returns (res: Result<string>)
    modifies db`faults
    ensures db.faults >= old(db.faults)
    ensures res.Ok? ==> u in db.users && res.value == db.users[u]
    ensures u in db.users && db.faults == old(db.faults) ==> res.Ok?
  {
    var failed := db.Fails();
    if failed {
      return Err(Internal);
    }
    if u !in db.users {
      return Err(ResourceNotFound);
    }
    return Ok(db.users[u]);
  }

  /** Cached names are the users' own. */
  predicate CacheOk(cache: map<Uuid, UserSummary>, users: map<Uuid, string>) {
    forall u :: u in cache ==> u in users && cache[u] == UserSummary(u, users[u])
  }

  method CachedUser(db: Database, u: Uuid, cache: map<Uuid, UserSummary>) returns (cache': map<Uuid, UserSummary>)
    requires CacheOk(cache, db.users)
    modifies db`faults
    ensures db.faults >= old(db.faults) && CacheOk(cache', db.users)
    ensures forall v :: v in cache' <==> v in cache || (v == u && u in cache')
    ensures u in db.users && db.faults == old(db.faults) ==> u in cache'
  {
    cache' := cache;
    if u !in cache {
      var name := GetUser(db, u);
      if name.Ok? {
        cache' := cache[u := UserSummary(u, name.value)];
      }
    }
  }

  /** The loop over a page: one lookup per submitter; a submitter shown once is shown on all later rows. */
  method Summarize(db: Database, listed: seq<Uuid>) returns (summaries: seq<Summary>)
    requires forall k :: k in listed ==> k in db.reports
    modifies db`faults
    ensures db.faults >= old(db.faults) && DescribesAll(summaries, listed, db.State())
    ensures db.faults == old(db.faults) ==> NamesOwners(summaries, listed, db.State())
    ensures forall i, j :: 0 <= i < j < |listed| ==>
              (db.reports[listed[i]].owner == db.reports[listed[j]].owner && summaries[i].submitter.Some? ==>
                 summaries[j].submitter == summaries[i].submitter)
  {
    var cache: map<Uuid, UserSummary> := map[];
    summaries := [];
    for n := 0 to |listed|
      invariant |summaries| == n && CacheOk(cache, db.users) && db.faults >= old(db.faults)
      invariant forall i :: 0 <= i < n ==> Describes(summaries[i], listed[i], db.State())
      invariant db.faults == old(db.faults) ==>
                  forall i :: 0 <= i < n ==> NamesOwner(summaries[i], listed[i], db.State())
      invariant forall i :: 0 <= i < n && summaries[i].submitter.Some? ==> db.reports[listed[i]].owner in cache
      invariant forall i, j :: 0 <= i < j < n ==>
                  (db.reports[listed[i]].owner == db.reports[listed[j]].owner && summaries[i].submitter.Some? ==>
                     summaries[j].submitter == summaries[i].submitter)
    {
      var row := db.reports[listed[n]];
      var summary := ToSummary(listed[n], row);
      cache := CachedUser(db, row.owner, cache);
      if row.owner in cache {
        summary := summary.(submitter := Some(cache[row.owner]));
      }
      summaries := summaries + [summary];
    }
  }

  /** The count fits int4, and so does the offset. */
  predicate CanPage(count: int, page: int, perPage: int) {
    count <= MAX_INT32 && OffsetOk(page, perPage)
  }

  lemma LatestFirstSize(rows: map<Uuid, Report>)
    ensures |InOrder(LatestFirst(rows), 4)| == |rows|
    ensures forall k :: k in InOrder(LatestFirst(rows), 4) <==> k in rows
  {
    InOrderIsSorted(LatestFirst(rows), 4);
    SameSize(LatestFirst(rows), rows);
  }

  /** The repository's List and its count, for the tenant-wide list. */
  method ListPage(db: Database, t: Uuid, f: Filter, page: int, perPage: int)
    returns (res: Result<seq<Uuid>>, count: int)
    modifies db`faults
    ensures db.faults >= old(db.faults)
    ensures res.Ok? ==> count == |AllReports(db.reports, t, f)| <= MAX_INT32
    ensures res.Ok? ==> OffsetOk(page, perPage) && res.value == Page(AllReports(db.reports, t, f), page, perPage)
    ensures res.Ok? ==> forall k :: k in res.value ==> k in db.reports
    ensures CanPage(|AllReports(db.reports, t, f)|, page, perPage) && db.faults == old(db.faults) ==> res.Ok?
  {
    var rows := Filtered(db.reports, t, f);
    LatestFirstSize(rows);
    var failed := db.Fails();
    if failed || |rows| > MAX_INT32 {  // COUNT(*)::int
      return Err(Internal), 0;
    }
    var sorted := Sort(LatestFirst(rows), 4);
    var ok, shown := TakePage(sorted, page, perPage);
    if !ok {
      return Err(Internal), 0;
    }
    forall k | k in shown ensures k in db.reports {
      OnPage(sorted, page, perPage, k);
    }
    return Ok(shown), |rows|;
  }

  lemma SameSize<K, V, W>(a: map<K, V>, b: map<K, W>)
    requires a.Keys == b.Keys
    ensures |a| == |b|
  {
    assert |a| == |a.Keys| && |b| == |b.Keys|;
  }

  /** One summary per row, each describing its own. */
  predicate DescribesAll(summaries: seq<Summary>, shown: seq<Uuid>, db: Db) {
    |summaries| == |shown| && forall i :: 0 <= i < |shown| ==> Describes(summaries[i], shown[i], db)
  }

  predicate NamesOwners(summaries: seq<Summary>, shown: seq<Uuid>, db: Db) {
    |summaries| == |shown| && forall i :: 0 <= i < |shown| ==> NamesOwner(summaries[i], shown[i], db)
  }

  method ListAllReports(db: Database, a: Actor, f: Filter, page: int, perPage: int)
    returns (res: Result<seq<Summary>>, pagination: Pagination)
    modifies db`faults
    ensures db.faults >= old(db.faults)
    ensures res.Ok? ==> CanPage(|AllReports(db.reports, a.tenant, f)|, page, perPage)
    ensures db.faults == old(db.faults) && CanPage(|AllReports(db.reports, a.tenant, f)|, page, perPage) ==> res.Ok?
    ensures res.Ok? ==> DescribesAll(res.value, Page(AllReports(db.reports, a.tenant, f), page, perPage), db.State())
    ensures res.Ok? ==> pagination == BuildPagination(|AllReports(db.reports, a.tenant, f)|, page, PageSize(perPage))
    ensures db.faults == old(db.faults) && res.Ok? ==>
              NamesOwners(res.value, Page(AllReports(db.reports, a.tenant, f), page, perPage), db.State())
  {
    var size, number := perPage, page;
    if size <= 0 {
      size := 20;
    }
    if size > 100 {
      size := 100;
    }
    if number <= 0 {
      number := 1;
    }
    ClampedTwice(AllReports(db.reports, a.tenant, f), page, perPage);
    var listed, count := ListPage(db, a.tenant, f, number, size);
    pagination := BuildPagination(count, number, size);
    if listed.Err? {
      return Err(listed.error), pagination;
    }
    var summaries := Summarize(db, listed.value);
    return Ok(summaries), pagination;
  }

  /**
   Pages 1 to total_pages of ListAllReports, one after the other, are the filtered reports in order: none
   missing, none twice; only an empty list has an empty page.
   */
  lemma ListAllPagesPartition(reports: map<Uuid, Report>, t: Uuid, f: Filter, perPage: int)
    requires |AllReports(reports, t, f)| <= MAX_INT32
    ensures var rows := AllReports(reports, t, f);
            && (forall k :: k in rows <==> k in reports && Selected(reports[k], t, f))
            && |rows| == |Filtered(reports, t, f)|
            && Partitioned(rows, perPage, BuildPagination(|rows|, 1, PageSize(perPage)).totalPages)
  {
    LatestFirstSize(Filtered(reports, t, f));
    ClampedPagesPartition(AllReports(reports, t, f), perPage);
  }

  /** Row x stands before row y: the later submission, unsubmitted rows last, then the later creation. */
  predicate StandsBefore(x: Report, xId: Uuid, y: Report, yId: Uuid) {
    if x.submittedAt != y.submittedAt then
      y.submittedAt == None || (x.submittedAt != None && x.submittedAt.value > y.submittedAt.value)
    else if x.createdAt != y.createdAt then x.createdAt > y.createdAt
    else xId > yId
  }

  /** A live report of the tenant, in the status, of the user and within the period asked for, if any. */
  predicate IsAskedFor(row: Report, t: Uuid, f: Filter) {
    && row.tenant == t && row.deletedAt == None
    && (f.status == None || f.status == Some(row.status))
    && (f.user == None || f.user == Some(row.owner))
    && (f.from == None || f.from.value <= row.periodStart)
    && (f.to == None || row.periodEnd <= f.to.value)
  }

  /**
   The tenant's list holds exactly its live reports in the status, period and of the user asked for, in
   descending order of submission time, creation time and identifier, unsubmitted ones last.
   */
  lemma AllReportsInOrder(reports: map<Uuid, Report>, t: Uuid, f: Filter)
    ensures var listed := AllReports(reports, t, f);
            && (forall k :: k in listed <==> k in reports && IsAskedFor(reports[k], t, f))
            && (forall m, n :: 0 <= m < n < |listed| ==>
                  && listed[m] in reports && listed[n] in reports
                  && StandsBefore(reports[listed[m]], listed[m], reports[listed[n]], listed[n]))
  {
    var rows := Filtered(reports, t, f);
    var listed := AllReports(reports, t, f);
    LatestFirstSize(rows);
    LatestFirstInOrder(rows);
    forall k ensures k in listed <==> k in reports && IsAskedFor(reports[k], t, f) {
      SelectedMeans(reports, k, t, f);
    }
    forall m, n | 0 <= m < n < |listed|
      ensures listed[m] in reports && listed[n] in reports
      ensures StandsBefore(reports[listed[m]], listed[m], reports[listed[n]], listed[n])
    {
      assert rows[listed[m]] == reports[listed[m]] && rows[listed[n]] == reports[listed[n]];
    }
  }

  lemma SelectedMeans(reports: map<Uuid, Report>, k: Uuid, t: Uuid, f: Filter)
    ensures k in Filtered(reports, t, f) <==> k in reports && IsAskedFor(reports[k], t, f)
  {
  }

  lemma LatestFirstInOrder(rows: map<Uuid, Report>)
    ensures var listed := InOrder(LatestFirst(rows), 4);
            forall m, n :: 0 <= m < n < |listed| ==>
              && listed[m] in rows && listed[n] in rows
              && StandsBefore(rows[listed[m]], listed[m], rows[listed[n]], listed[n])
  {
    var listed := InOrder(LatestFirst(rows), 4);
    LatestFirstSize(rows);
    InOrderIsSorted(LatestFirst(rows), 4);
    forall m, n | 0 <= m < n < |listed|
      ensures listed[m] in rows && listed[n] in rows
      ensures StandsBefore(rows[listed[m]], listed[m], rows[listed[n]], listed[n])
    {
      assert listed[m] in listed && listed[n] in listed;
      GreaterStandsBefore(rows, listed[m], listed[n]);
    }
  }

  lemma GreaterStandsBefore(rows: map<Uuid, Report>, j: Uuid, k: Uuid)
    requires j in rows && k in rows && Greater(LatestFirst(rows)[j], LatestFirst(rows)[k])
    ensures StandsBefore(rows[j], j, rows[k], k)
  {
    var column := DecidingColumn(LatestFirst(rows)[j], LatestFirst(rows)[k]);
  }

  /** Who may open a report: its owner, Admin and Accounting; an approver if it is pending or decided by them. */
  lemma WhoMayOpen(db: Db, a: Actor, r: Uuid)
    ensures var found := r in db.reports && db.reports[r].tenant == a.tenant && db.reports[r].deletedAt == None;
            && (!found ==> GetReport(db, a, r) == Err(ResourceNotFound))
            && (found ==>
                  var row := db.reports[r];
                  GetReport(db, a, r) == if a.user == row.owner || a.role == Admin || a.role == Accounting
                                            || (a.role == Approver && (row.status == Submitted
                                                  || row.approvedBy == Some(a.user) || row.rejectedBy == Some(a.user)))
                                         then Ok(row) else Err(Forbidden))
  {
  }

  // ----- The processed list -----

  /** ORDER BY COALESCE(approved_at, rejected_at) DESC, report_id DESC; a missing time sorts first. */
  function DecidedLast(rows: map<Uuid, Report>): (keys: map<Uuid, SortKey>)
    ensures Distinct(keys, 3)
  {
    map k | k in rows ::
      var time := if rows[k].approvedAt.Some? then rows[k].approvedAt else rows[k].rejectedAt;
      if time.None? then [1, 0, k] else [0, time.value, k]
  }

  ghost function AllProcessed(db: Db, a: Actor): seq<Uuid> {
    InOrder(DecidedLast(Processed(db, a)), 3)
  }

  /** Go's zero time, shown when a time is missing. */
  const NO_TIME: Time := 0

  /** Go's zero UserSummary, shown when the lookup fails. */
  const NO_USER := UserSummary(0, "")

  datatype ProcessedReport = ProcessedReport(
    id: Uuid, title: string, total: int, submitter: UserSummary,
    decision: string, decidedAt: Time, currentStatus: Status)

  /** The decision column: the actor's own approval if there is one, else the actor's rejection. */
  function ToProcessed(id: Uuid, row: Report, user: Uuid): ProcessedReport {
    var none := ProcessedReport(id, row.title, row.total, NO_USER, "", NO_TIME, row.status);
    if row.approvedBy == Some(user) then
      none.(decision := "approved", decidedAt := if row.approvedAt.Some? then row.approvedAt.value else NO_TIME)
    else if row.rejectedBy == Some(user) then
      none.(decision := "rejected", decidedAt := if row.rejectedAt.Some? then row.rejectedAt.value else NO_TIME)
    else none
  }

  lemma DecidedLastRows(rows: map<Uuid, Report>)
    ensures forall k :: k in InOrder(DecidedLast(rows), 3) <==> k in rows
    ensures |InOrder(DecidedLast(rows), 3)| == |rows|
    ensures var listed := InOrder(DecidedLast(rows), 3);
            forall m, n :: 0 <= m < n < |listed| ==> Greater(DecidedLast(rows)[listed[m]], DecidedLast(rows)[listed[n]])
  {
    InOrderIsSorted(DecidedLast(rows), 3);
    SameSize(DecidedLast(rows), rows);
  }

  method ListProcessedPage(db: Database, a: Actor, page: int, perPage: int) returns (res: Result<seq<Uuid>>, count: int)
    modifies db`faults
    ensures db.faults >= old(db.faults)
    ensures res.Ok? ==> count == |AllProcessed(db.State(), a)| <= MAX_INT32
    ensures res.Ok? ==> OffsetOk(page, perPage) && res.value == Page(AllProcessed(db.State(), a), page, perPage)
    ensures res.Ok? ==> forall k :: k in res.value ==> k in db.reports
    ensures CanPage(|AllProcessed(db.State(), a)|, page, perPage) && db.faults == old(db.faults) ==> res.Ok?
  {
    var rows := Processed(db.State(), a);
    DecidedLastRows(rows);
    var failed := db.Fails();
    if failed || |rows| > MAX_INT32 {  // COUNT(*)::int
      return Err(Internal), 0;
    }
    var sorted := Sort(DecidedLast(rows), 3);
    var ok, shown := TakePage(sorted, page, perPage);
    if !ok {
      return Err(Internal), 0;
    }
    forall k | k in shown ensures k in db.reports {
      OnPage(sorted, page, perPage, k);
    }
    return Ok(shown), |rows|;
  }

  /** The row of the list: the decision of the row, and its owner or nobody as submitter. */
  predicate ShowsDecision(shown: ProcessedReport, id: Uuid, db: Db, user: Uuid) {
    && id in db.reports && shown.(submitter := NO_USER) == ToProcessed(id, db.reports[id], user)
    && (shown.submitter == NO_USER || IsOwner(shown.submitter, db.reports[id], db.users))
  }

  predicate NamesSubmitter(shown: ProcessedReport, id: Uuid, db: Db) {
    id in db.reports && (db.reports[id].owner in db.users ==> IsOwner(shown.submitter, db.reports[id], db.users))
  }

  /** The loop that builds the processed list from a page of rows. */
  method Decisions(db: Database, listed: seq<Uuid>, user: Uuid) returns (rows: seq<ProcessedReport>)
    requires forall k :: k in listed ==> k in db.reports
    modifies db`faults
    ensures db.faults >= old(db.faults)
    ensures |rows| == |listed| && forall i :: 0 <= i < |rows| ==> ShowsDecision(rows[i], listed[i], db.State(), user)
    ensures db.faults == old(db.faults) ==>
              forall i :: 0 <= i < |rows| ==> NamesSubmitter(rows[i], listed[i], db.State())
  {
    var cache: map<Uuid, UserSummary> := map[];
    rows := [];
    for n := 0 to |listed|
      invariant |rows| == n && CacheOk(cache, db.users) && db.faults >= old(db.faults)
      invariant forall i :: 0 <= i < n ==> ShowsDecision(rows[i], listed[i], db.State(), user)
      invariant db.faults == old(db.faults) ==>
                  forall i :: 0 <= i < n ==> NamesSubmitter(rows[i], listed[i], db.State())
    {
      var row := db.reports[listed[n]];
      cache := CachedUser(db, row.owner, cache);
      var decision, decidedAt := "", NO_TIME;
      if row.approvedBy == Some(user) {
        decision := "approved";
        if row.approvedAt.Some? {
          decidedAt := row.approvedAt.value;
        }
      } else if row.rejectedBy == Some(user) {
        decision := "rejected";
        if row.rejectedAt.Some? {
          decidedAt := row.rejectedAt.value;
        }
      }
      var submitter := if row.owner in cache then cache[row.owner] else NO_USER;
      rows := rows + [ProcessedReport(listed[n], row.title, row.total, submitter, decision, decidedAt, row.status)];
    }
  }

  method ListProcessed(db: Database, a: Actor, page: int, perPage: int)
    returns (res: Result<seq<ProcessedReport>>, pagination: Pagination)
    modifies db`faults
    ensures db.faults >= old(db.faults)
    ensures res.Ok? ==> CanPage(|AllProcessed(db.State(), a)|, page, perPage)
    ensures db.faults == old(db.faults) && CanPage(|AllProcessed(db.State(), a)|, page, perPage) ==> res.Ok?
    ensures res.Ok? ==>
              var shown := Page(AllProcessed(db.State(), a), page, perPage);
              && |res.value| == |shown|
              && (forall i :: 0 <= i < |shown| ==> ShowsDecision(res.value[i], shown[i], db.State(), a.user))
              && pagination == BuildPagination(|AllProcessed(db.State(), a)|, page, perPage)
    ensures db.faults == old(db.faults) && res.Ok? ==>
              var shown := Page(AllProcessed(db.State(), a), page, perPage);
              && |res.value| == |shown|
              && forall i :: 0 <= i < |shown| ==> NamesSubmitter(res.value[i], shown[i], db.State())
  {
    var listed, count := ListProcessedPage(db, a, page, perPage);
    if listed.Err? {
      return Err(listed.error), BuildPagination(0, page, perPage);
    }
    var rows := Decisions(db, listed.value, a.user);
    var size, number := perPage, page;
    if size <= 0 {
      size := 20;
    }
    if number <= 0 {
      number := 1;
    }
    var totalPages := (count + size - 1) / size;
    if totalPages == 0 {
      totalPages := 1;
    }
    return Ok(rows), Pagination(number, size, count, totalPages);
  }

  /** For every page size its handler accepts, the announced pages of the processed list partition it. */
  lemma ProcessedPagesPartition(db: Db, a: Actor, page: Query, perPage: Query)
    requires |AllProcessed(db, a)| <= MAX_INT32 && AcceptedPage(page).Some? && AcceptedSize(perPage).Some?
    ensures var rows, size := AllProcessed(db, a), AcceptedSize(perPage).value;
            && (forall k :: k in rows <==> k in Processed(db, a))
            && Partitioned(rows, size, BuildPagination(|rows|, AcceptedPage(page).value, size).totalPages)
  {
    DecidedLastRows(Processed(db, a));
    AcceptedPagesPartition(AllProcessed(db, a), page, perPage);
  }

  /** The decision shown is the one the report carries, with its time and a status that fits it. */
  predicate DecisionIsReal(shown: ProcessedReport, id: Uuid, row: Report, user: Uuid) {
    && shown.id == id && shown.title == row.title && shown.total == row.total && shown.currentStatus == row.status
    && (|| (shown.decision == "approved" && row.approvedBy == Some(user) && row.approvedAt == Some(shown.decidedAt)
            && shown.currentStatus in {Approved, Paid})
        || (shown.decision == "rejected" && row.rejectedBy == Some(user) && row.rejectedAt == Some(shown.decidedAt)
            && shown.currentStatus == Rejected))
  }

  lemma DecidedRow(db: Db, a: Actor, k: Uuid)
    requires Inv(db) && k in Processed(db, a)
    ensures var shown := ToProcessed(k, db.reports[k], a.user);
            && DecisionIsReal(shown, k, db.reports[k], a.user)
            && DecidedLast(Processed(db, a))[k] == [0, shown.decidedAt, k]
  {
    assert ReportOk(db, k);
  }

  /** Sorting by COALESCE sorts by the decision time shown. */
  lemma DecidedBefore(db: Db, a: Actor, j: Uuid, k: Uuid)
    requires Inv(db) && j in Processed(db, a) && k in Processed(db, a)
    requires Greater(DecidedLast(Processed(db, a))[j], DecidedLast(Processed(db, a))[k])
    ensures var x, y := ToProcessed(j, db.reports[j], a.user), ToProcessed(k, db.reports[k], a.user);
            x.decidedAt > y.decidedAt || (x.decidedAt == y.decidedAt && j > k)
  {
    DecidedRow(db, a, j);
    DecidedRow(db, a, k);
    var x, y := ToProcessed(j, db.reports[j], a.user), ToProcessed(k, db.reports[k], a.user);
    GreaterTimes(x.decidedAt, j, y.decidedAt, k);
  }

  lemma GreaterTimes(time: Time, j: Uuid, other: Time, k: Uuid)
    requires Greater([0, time, j], [0, other, k])
    ensures time > other || (time == other && j > k)
  {
    var column := DecidingColumn([0, time, j], [0, other, k]);
  }

  /**
   In every reachable state each row of the processed list shows a real decision, and the rows stand in
   descending order of the decision time shown and the identifier, although SQL sorts by another expression.
   */
  lemma ProcessedListIsSound(ws: seq<World>, i: nat, a: Actor)
    requires IsRun(ws) && i < |ws|
    ensures var db, listed := ws[i].db, AllProcessed(ws[i].db, a);
            && (forall k :: k in listed ==>
                  k in db.reports && DecisionIsReal(ToProcessed(k, db.reports[k], a.user), k, db.reports[k], a.user))
            && (forall m, n :: 0 <= m < n < |listed| ==>
                  var x := ToProcessed(listed[m], db.reports[listed[m]], a.user);
                  var y := ToProcessed(listed[n], db.reports[listed[n]], a.user);
                  x.decidedAt > y.decidedAt || (x.decidedAt == y.decidedAt && x.id > y.id))
  {
    Reachable(ws, i);
    ProcessedInOrder(ws[i].db, a);
  }

  lemma ProcessedInOrder(db: Db, a: Actor)
    requires Inv(db)
    ensures var listed := AllProcessed(db, a);
            && (forall k :: k in listed ==>
                  k in db.reports && DecisionIsReal(ToProcessed(k, db.reports[k], a.user), k, db.reports[k], a.user))
            && (forall m, n :: 0 <= m < n < |listed| ==>
                  var x := ToProcessed(listed[m], db.reports[listed[m]], a.user);
                  var y := ToProcessed(listed[n], db.reports[listed[n]], a.user);
                  x.decidedAt > y.decidedAt || (x.decidedAt == y.decidedAt && x.id > y.id))
  {
    var listed := AllProcessed(db, a);
    DecidedLastRows(Processed(db, a));
    forall k | k in listed
      ensures k in db.reports && DecisionIsReal(ToProcessed(k, db.reports[k], a.user), k, db.reports[k], a.user)
    {
      DecidedRow(db, a, k);
    }
    forall m, n | 0 <= m < n < |listed|
      ensures var x := ToProcessed(listed[m], db.reports[listed[m]], a.user);
              var y := ToProcessed(listed[n], db.reports[listed[n]], a.user);
              x.decidedAt > y.decidedAt || (x.decidedAt == y.decidedAt && x.id > y.id)
    {
      DecidedBefore(db, a, listed[m], listed[n]);
    }
  }
}
