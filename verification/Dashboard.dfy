/** The dashboard figures: counts by status, the pending count, and the monthly totals of paid reports. */
module Dashboard {
  import opened Prelude
  import opened Domain
  import opened Tables
  import opened Requests
  import opened Invariant
  import opened Runs
  import opened Listings
  import opened Persistence

  // ----- Counting -----

  function Ones<K, V>(rows: map<K, V>): map<K, int> {
    map k | k in rows :: 1
  }

  lemma {:induction false} SumOfOnes<K, V>(rows: map<K, V>)
    ensures Sum(Ones(rows)) == |rows|
    decreases |rows|
  {
    if rows == map[] {
      assert Ones(rows) == map[];
    } else {
      var k :| k in rows;
      SumRemove(Ones(rows), k);
      assert Ones(rows) - {k} == Ones(rows - {k});
      SumOfOnes(rows - {k});
      assert rows.Keys == (rows - {k}).Keys + {k};
      assert |rows.Keys| == |(rows - {k}).Keys| + 1;
    }
  }

  /** Counting group by group counts every row once. */
  lemma CountsAddUp<K, V, G>(rows: map<K, V>, key: map<K, G>)
    requires rows.Keys <= key.Keys
    ensures Sum(GroupSums(Ones(rows), key)) == |rows|
  {
    GroupSumsTotal(Ones(rows), key);
    SumOfOnes(rows);
  }

  function StatusColumn(rows: map<Uuid, Report>): map<Uuid, Status> {
    map k | k in rows :: rows[k].status
  }

  function OwnerColumn(rows: map<Uuid, Report>): map<Uuid, Uuid> {
    map k | k in rows :: rows[k].owner
  }

  function OfUser(user: Option<Uuid>): Filter { NO_FILTER.(user := user) }

  /** SELECT status, COUNT(*) ... GROUP BY status: no row for a status nobody is in. */
  ghost function CountsByStatus(db: Db, t: Uuid, user: Option<Uuid>): map<Status, int> {
    var rows := Filtered(db.reports, t, OfUser(user));
    GroupSums(Ones(rows), StatusColumn(rows))
  }

  /** Reading a Go map: 0 where there is no entry. */
  function CountOf(counts: map<Status, int>, s: Status): int {
    if s in counts then counts[s] else 0
  }

  /** The count shown for a status is the number of live reports in it. */
  lemma CountIsSize(db: Db, t: Uuid, user: Option<Uuid>, s: Status)
    ensures CountOf(CountsByStatus(db, t, user), s) == |InStatus(db, t, user, s)|
    ensures s in CountsByStatus(db, t, user) <==> InStatus(db, t, user, s) != map[]
  {
    var rows := Filtered(db.reports, t, OfUser(user));
    StatusGroup(db, t, user, s);
    SumOfOnes(InStatus(db, t, user, s));
    GroupSumOf(Ones(rows), StatusColumn(rows), s);
  }

  lemma StatusGroup(db: Db, t: Uuid, user: Option<Uuid>, s: Status)
    ensures var rows := Filtered(db.reports, t, OfUser(user));
            Group(Ones(rows), StatusColumn(rows), s) == Ones(InStatus(db, t, user, s))
    ensures Ones(InStatus(db, t, user, s)) == map[] <==> InStatus(db, t, user, s) == map[]
  {
    assert Ones(InStatus(db, t, user, s)).Keys == InStatus(db, t, user, s).Keys;
  }

  function StatusesIn(rows: map<Uuid, Report>): set<Status> {
    set k | k in rows :: rows[k].status
  }

  lemma StatusKeys(db: Db, t: Uuid, user: Option<Uuid>)
    ensures CountsByStatus(db, t, user).Keys == StatusesIn(Filtered(db.reports, t, OfUser(user)))
  {
    var rows := Filtered(db.reports, t, OfUser(user));
    forall s ensures s in CountsByStatus(db, t, user) <==> s in StatusesIn(rows) {
      CountIsSize(db, t, user, s);
      if s in StatusesIn(rows) {
        var k :| k in rows && rows[k].status == s;
        assert k in InStatus(db, t, user, s);
      }
      if k :| k in InStatus(db, t, user, s) { assert k in rows && rows[k].status == s; }
    }
  }

  function InStatus(db: Db, t: Uuid, user: Option<Uuid>, s: Status): map<Uuid, Report> {
    Filtered(db.reports, t, OfUser(user).(status := Some(s)))
  }

  lemma CountOfMinus(counts: map<Status, int>, s: Status)
    ensures Sum(counts) == CountOf(counts, s) + Sum(counts - {s})
    ensures forall u :: u != s ==> CountOf(counts - {s}, u) == CountOf(counts, u)
  {
    if s in counts { SumRemove(counts, s); } else { assert counts - {s} == counts; }
  }

  /** There are five statuses. */
  lemma FiveCounts(c: map<Status, int>)
    ensures Sum(c)
         == CountOf(c, Draft) + CountOf(c, Submitted) + CountOf(c, Approved) + CountOf(c, Rejected) + CountOf(c, Paid)
  {
    var c1 := c - {Draft};
    var c2 := c1 - {Submitted};
    var c3 := c2 - {Approved};
    var c4 := c3 - {Rejected};
    CountOfMinus(c, Draft);
    CountOfMinus(c1, Submitted);
    CountOfMinus(c2, Approved);
    CountOfMinus(c3, Rejected);
    CountOfMinus(c4, Paid);
    forall s ensures s !in c4 - {Paid} {
      match s
      case Draft =>
      case Submitted =>
      case Approved =>
      case Rejected =>
      case Paid =>
    }
    assert c4 - {Paid} == map[];
  }

  /** The counts of the five statuses add up to the number of live reports. */
  lemma StatusesAddUp(db: Db, t: Uuid, user: Option<Uuid>)
    ensures var c := CountsByStatus(db, t, user);
            CountOf(c, Draft) + CountOf(c, Submitted) + CountOf(c, Approved) + CountOf(c, Rejected) + CountOf(c, Paid)
            == |Filtered(db.reports, t, OfUser(user))|
  {
    var rows := Filtered(db.reports, t, OfUser(user));
    CountsAddUp(rows, StatusColumn(rows));
    FiveCounts(CountsByStatus(db, t, user));
  }

  /** Every user's own count of a status. */
  ghost function CountsByUser(db: Db, t: Uuid, s: Status): map<Uuid, int> {
    map u | u in db.users :: CountOf(CountsByStatus(db, t, Some(u)), s)
  }

  lemma OwnerGroup(db: Db, t: Uuid, s: Status, u: Uuid)
    ensures var rows := InStatus(db, t, None, s);
            Group(Ones(rows), OwnerColumn(rows), u) == Ones(InStatus(db, t, Some(u), s))
  {
  }

  lemma UserCountIsGroup(db: Db, t: Uuid, s: Status, u: Uuid)
    ensures var rows := InStatus(db, t, None, s);
            CountOf(CountsByStatus(db, t, Some(u)), s) == Sum(Group(Ones(rows), OwnerColumn(rows), u))
  {
    var rows := InStatus(db, t, None, s);
    CountIsSize(db, t, Some(u), s);
    SumOfOnes(InStatus(db, t, Some(u), s));
    OwnerGroup(db, t, s, u);
  }

  lemma UserCountPadded(db: Db, t: Uuid, s: Status, u: Uuid)
    requires u in db.users
    ensures var rows := InStatus(db, t, None, s);
            var groups := GroupSums(Ones(rows), OwnerColumn(rows));
            CountsByUser(db, t, s)[u] == if u in groups then groups[u] else 0
  {
    var rows := InStatus(db, t, None, s);
    UserCountIsGroup(db, t, s, u);
    GroupSumOf(Ones(rows), OwnerColumn(rows), u);
  }

  /** The tenant's count of a status is the sum of its users' own counts. */
  lemma UsersAddUp(db: Db, t: Uuid, s: Status)
    requires Inv(db)
    ensures CountOf(CountsByStatus(db, t, None), s) == Sum(CountsByUser(db, t, s))
  {
    var rows := InStatus(db, t, None, s);
    var groups := GroupSums(Ones(rows), OwnerColumn(rows));
    CountIsSumOfGroups(db, t, s);
    forall u | u in db.users ensures CountsByUser(db, t, s)[u] == if u in groups then groups[u] else 0 {
      UserCountPadded(db, t, s, u);
    }
    forall u | u in groups ensures u in db.users { GroupIsUser(db, t, s, u); }
    SumPadded(groups, CountsByUser(db, t, s));
  }

  lemma CountIsSumOfGroups(db: Db, t: Uuid, s: Status)
    ensures var rows := InStatus(db, t, None, s);
            CountOf(CountsByStatus(db, t, None), s) == Sum(GroupSums(Ones(rows), OwnerColumn(rows)))
  {
    var rows := InStatus(db, t, None, s);
    CountIsSize(db, t, None, s);
    CountsAddUp(rows, OwnerColumn(rows));
  }

  lemma GroupIsUser(db: Db, t: Uuid, s: Status, u: Uuid)
    requires Inv(db)
    requires var rows := InStatus(db, t, None, s); u in GroupSums(Ones(rows), OwnerColumn(rows))
    ensures u in db.users
  {
    OwnersAreUsers(db, InStatus(db, t, None, s));
  }

  lemma OwnersAreUsers(db: Db, rows: map<Uuid, Report>)
    requires Inv(db) && forall k :: k in rows ==> k in db.reports && db.reports[k] == rows[k]
    ensures forall k :: k in rows ==> rows[k].owner in db.users
  {
    forall k | k in rows ensures rows[k].owner in db.users { OwnerIsUser(db, k); }
  }

  // ----- The pending count -----

  /** Every group's COUNT(*) fits int4. */
  predicate CountsFit(db: Db, t: Uuid, user: Option<Uuid>) {
    forall s :: s in StatusesIn(Filtered(db.reports, t, OfUser(user))) ==> |InStatus(db, t, user, s)| <= MAX_INT32
  }

  /** The repository turns the grouped rows into a map, whatever order they come in. */
  method CountByStatus(db: Database, t: Uuid, user: Option<Uuid>) returns (res: Result<map<Status, int>>)
    modifies db`faults
    ensures db.faults >= old(db.faults)
    ensures res.Ok? ==> res.value == CountsByStatus(db.State(), t, user) && CountsFit(db.State(), t, user)
    ensures db.faults == old(db.faults) && CountsFit(db.State(), t, user) ==> res.Ok?
  {
    var failed := db.Fails();
    var state := db.State();
    if failed || !CountsFit(state, t, user) {  // COUNT(*)::int
      return Err(Internal);
    }
    var counts: map<Status, int> := map[];
    var left := StatusesIn(Filtered(state.reports, t, OfUser(user)));
    ghost var spec := CountsByStatus(state, t, user);
    StatusKeys(state, t, user);
    while left != {}
      invariant left <= spec.Keys && counts == spec - left
      invariant db.faults == old(db.faults) && db.State() == state
    {
      var s :| s in left;
      var count := |Filtered(state.reports, t, OfUser(user).(status := Some(s)))|;
      CountIsOfStatus(state, t, user, s);
      OneMoreRow(spec, left, s);
      counts := counts[s := count];
      left := left - {s};
    }
    return Ok(counts);
  }

  lemma CountIsOfStatus(db: Db, t: Uuid, user: Option<Uuid>, s: Status)
    requires s in CountsByStatus(db, t, user)
    ensures CountsByStatus(db, t, user)[s] == |Filtered(db.reports, t, OfUser(user).(status := Some(s)))|
  {
    CountIsSize(db, t, user, s);
  }

  lemma OneMoreRow<K, V>(m: map<K, V>, left: set<K>, k: K)
    requires k in left && k in m
    ensures (m - left)[k := m[k]] == m - (left - {k})
  {
  }

  /** Rows of the unfiltered pending list with IsOwnReport false. */
  function PendingForOthers(db: Db, a: Actor): map<Uuid, Report> {
    map k | k in Pending(db, a.tenant) && db.reports[k].owner != a.user :: db.reports[k]
  }

  method PendingApprovalCount(db: Database, a: Actor) returns (res: Result<int>)
    requires Inv(db.State())
    modifies db`faults
    ensures db.faults >= old(db.faults)
    ensures res.Ok? ==> res.value == |PendingForOthers(db.State(), a)|
    ensures CountsFit(db.State(), a.tenant, None) && CountsFit(db.State(), a.tenant, Some(a.user)) ==>
              db.faults > old(db.faults) || res.Ok?
  {
    var all :- CountByStatus(db, a.tenant, None);
    var mine :- CountByStatus(db, a.tenant, Some(a.user));
    PendingCountIsListed(db.State(), a);
    return Ok(CountOf(all, Submitted) - CountOf(mine, Submitted));
  }

  /** The difference of the two grouped counts is the number of rows an approver has left to decide. */
  lemma PendingCountIsListed(db: Db, a: Actor)
    requires Inv(db)
    ensures CountOf(CountsByStatus(db, a.tenant, None), Submitted)
            - CountOf(CountsByStatus(db, a.tenant, Some(a.user)), Submitted)
         == |PendingForOthers(db, a)|
  {
    var all, mine := InStatus(db, a.tenant, None, Submitted), InStatus(db, a.tenant, Some(a.user), Submitted);
    CountIsSize(db, a.tenant, None, Submitted);
    CountIsSize(db, a.tenant, Some(a.user), Submitted);
    PendingRows(db, a);
    SizeOfRest(all, mine, PendingForOthers(db, a));
  }

  lemma PendingRows(db: Db, a: Actor)
    requires Inv(db)
    ensures var all, mine := InStatus(db, a.tenant, None, Submitted), InStatus(db, a.tenant, Some(a.user), Submitted);
            mine.Keys <= all.Keys && PendingForOthers(db, a).Keys == all.Keys - mine.Keys
  {
    AllSubmittedArePending(db, a.tenant);
  }

  /** The join with users loses no submitted report. */
  lemma AllSubmittedArePending(db: Db, t: Uuid)
    requires Inv(db)
    ensures Pending(db, t) == InStatus(db, t, None, Submitted)
  {
    var rows := InStatus(db, t, None, Submitted);
    OwnersAreUsers(db, rows);
    PendingKeepsOwned(db, t);
  }

  lemma PendingKeepsOwned(db: Db, t: Uuid)
    requires forall k :: k in InStatus(db, t, None, Submitted) ==> db.reports[k].owner in db.users
    ensures Pending(db, t) == InStatus(db, t, None, Submitted)
  {
  }

  lemma SizeOfRest<K, V>(all: map<K, V>, part: map<K, V>, rest: map<K, V>)
    requires part.Keys <= all.Keys && rest.Keys == all.Keys - part.Keys
    ensures |rest| == |all| - |part|
  {
    assert |rest| == |rest.Keys| && |all| == |all.Keys| && |part| == |part.Keys|;
  }

  // ----- Monthly totals -----

  /** Dates are numbered 31 to a month, so that a month is a quotient. */
  function MonthOf(d: Date): int { d / 31 }

  /** Paid, live reports of the tenant whose period starts in the last `months` months. */
  function PaidSince(db: Db, t: Uuid, today: Date, months: int): map<Uuid, Report> {
    map k | k in db.reports && Selected(db.reports[k], t, NO_FILTER.(status := Some(Paid)))
            && MonthOf(db.reports[k].periodStart) >= MonthOf(today) - (months - 1)
      :: db.reports[k]
  }

  function TotalColumn(rows: map<Uuid, Report>): map<Uuid, int> {
    map k | k in rows :: rows[k].total
  }

  function MonthColumn(rows: map<Uuid, Report>): map<Uuid, int> {
    map k | k in rows :: MonthOf(rows[k].periodStart)
  }

  /** SUM(...)::int: the query fails when one of its sums does not fit. */
  ghost function CastSums(sums: map<int, int>): Result<map<int, int>> {
    if forall m :: m in sums ==> sums[m] <= MAX_INT32 then Ok(sums) else Err(Internal)
  }

  /** SELECT month, SUM(total_amount)::int ... GROUP BY month. */
  ghost function MonthlySummary(db: Db, t: Uuid, today: Date, months: int): Result<map<int, int>> {
    var rows := PaidSince(db, t, today, months);
    CastSums(GroupSums(TotalColumn(rows), MonthColumn(rows)))
  }

  /** The live items of those reports. */
  function ItemsOfReports(items: map<Uuid, Item>, rows: map<Uuid, Report>, t: Uuid): map<Uuid, Item> {
    map k | k in items && items[k].report in rows && ItemOf(items[k], t, items[k].report) :: items[k]
  }

  function ReportColumn(items: map<Uuid, Item>): map<Uuid, Uuid> {
    map k | k in items :: items[k].report
  }

  function ItemMonths(items: map<Uuid, Item>, rows: map<Uuid, Report>): map<Uuid, int>
    requires forall k :: k in items ==> items[k].report in rows
  {
    map k | k in items :: MonthOf(rows[items[k].report].periodStart)
  }

  /** Each stored total is the sum of the report's own live items, of which there is at least one. */
  predicate HasItems(items: map<Uuid, Item>, t: Uuid, r: Uuid) {
    exists k :: k in items && ItemOf(items[k], t, r)
  }

  ghost predicate TotalsMatch(items: map<Uuid, Item>, rows: map<Uuid, Report>, t: Uuid) {
    forall r :: r in rows ==> rows[r].total == LiveTotal(items, t, r) && HasItems(items, t, r)
  }

  lemma ReportGroup(items: map<Uuid, Item>, rows: map<Uuid, Report>, t: Uuid, r: Uuid)
    requires TotalsMatch(items, rows, t)
    ensures var under := ItemsOfReports(items, rows, t);
            var group := Group(AmountColumn(under), ReportColumn(under), r);
            (r in rows <==> group != map[]) && (r in rows ==> Sum(group) == rows[r].total)
  {
    var under := ItemsOfReports(items, rows, t);
    var group := Group(AmountColumn(under), ReportColumn(under), r);
    if r in rows {
      var k :| k in items && ItemOf(items[k], t, r);
      assert k in group;
      ItemGroup(items, rows, t, r);
    }
  }

  lemma ItemGroup(items: map<Uuid, Item>, rows: map<Uuid, Report>, t: Uuid, r: Uuid)
    requires r in rows
    ensures var under := ItemsOfReports(items, rows, t);
            Group(AmountColumn(under), ReportColumn(under), r) == AmountColumn(LiveItems(items, t, r))
  {
  }

  /** Summing stored totals over some reports sums the items under them. */
  lemma TotalsAreItems(items: map<Uuid, Item>, rows: map<Uuid, Report>, t: Uuid)
    requires TotalsMatch(items, rows, t)
    ensures Sum(TotalColumn(rows)) == Sum(AmountColumn(ItemsOfReports(items, rows, t)))
  {
    var under := ItemsOfReports(items, rows, t);
    GroupSumsTotal(AmountColumn(under), ReportColumn(under));
    forall r ensures Group(AmountColumn(under), ReportColumn(under), r) == map[] <==> r !in TotalColumn(rows)
             ensures r in TotalColumn(rows) ==>
                       Sum(Group(AmountColumn(under), ReportColumn(under), r)) == TotalColumn(rows)[r] {
      ReportGroup(items, rows, t, r);
    }
    GroupSumsAre(AmountColumn(under), ReportColumn(under), TotalColumn(rows));
  }

  lemma NoReportsNoItems(items: map<Uuid, Item>, rows: map<Uuid, Report>, t: Uuid)
    requires TotalsMatch(items, rows, t)
    ensures TotalColumn(rows) == map[] <==> AmountColumn(ItemsOfReports(items, rows, t)) == map[]
  {
    if r :| r in TotalColumn(rows) {
      var k :| k in items && ItemOf(items[k], t, r);
      assert k in AmountColumn(ItemsOfReports(items, rows, t));
    }
    if k :| k in AmountColumn(ItemsOfReports(items, rows, t)) {
      assert items[k].report in TotalColumn(rows);
    }
  }

  function InMonth(rows: map<Uuid, Report>, m: int): map<Uuid, Report> {
    map k | k in rows && MonthOf(rows[k].periodStart) == m :: rows[k]
  }

  lemma MonthGroups(items: map<Uuid, Item>, rows: map<Uuid, Report>, t: Uuid, m: int)
    ensures Group(TotalColumn(rows), MonthColumn(rows), m) == TotalColumn(InMonth(rows, m))
    ensures var under := ItemsOfReports(items, rows, t);
            Group(AmountColumn(under), ItemMonths(under, rows), m)
            == AmountColumn(ItemsOfReports(items, InMonth(rows, m), t))
  {
  }

  lemma MonthSums(items: map<Uuid, Item>, rows: map<Uuid, Report>, t: Uuid, m: int)
    requires TotalsMatch(items, rows, t)
    ensures var under := ItemsOfReports(items, rows, t);
            var byReport := Group(TotalColumn(rows), MonthColumn(rows), m);
            var byItem := Group(AmountColumn(under), ItemMonths(under, rows), m);
            Sum(byReport) == Sum(byItem) && (byReport == map[] <==> byItem == map[])
  {
    var some := InMonth(rows, m);
    MonthGroups(items, rows, t, m);
    assert TotalsMatch(items, some, t);
    TotalsAreItems(items, some, t);
    NoReportsNoItems(items, some, t);
  }

  /** Month by month, the sums of stored totals are the sums of the items under the reports of that month. */
  lemma MonthsAreItems(items: map<Uuid, Item>, rows: map<Uuid, Report>, t: Uuid)
    requires TotalsMatch(items, rows, t)
    ensures var under := ItemsOfReports(items, rows, t);
            GroupSums(TotalColumn(rows), MonthColumn(rows)) == GroupSums(AmountColumn(under), ItemMonths(under, rows))
  {
    var under := ItemsOfReports(items, rows, t);
    var byItem := GroupSums(AmountColumn(under), ItemMonths(under, rows));
    forall m ensures Group(TotalColumn(rows), MonthColumn(rows), m) == map[] <==> m !in byItem
             ensures m in byItem ==> Sum(Group(TotalColumn(rows), MonthColumn(rows), m)) == byItem[m] {
      MonthSums(items, rows, t, m);
      GroupSumOf(AmountColumn(under), ItemMonths(under, rows), m);
    }
    GroupSumsAre(TotalColumn(rows), MonthColumn(rows), byItem);
  }

  lemma PaidTotalsMatch(db: Db, t: Uuid, today: Date, months: int)
    requires Inv(db)
    ensures TotalsMatch(db.items, PaidSince(db, t, today, months), t)
  {
    forall r | r in PaidSince(db, t, today, months)
      ensures db.reports[r].total == LiveTotal(db.items, t, r) && HasItems(db.items, t, r)
    {
      assert ReportOk(db, r);
      var k :| k in LiveItems(db.items, t, r);
      assert k in db.items && ItemOf(db.items[k], t, r);
    }
  }

  /** A paid report is summed up exactly if it starts in one of the last `months` months, or later. */
  lemma PaidLately(ws: seq<World>, i: nat, t: Uuid, today: Date, months: int)
    requires IsRun(ws) && i < |ws|
    ensures var db := ws[i].db;
            forall r :: r in PaidSince(db, t, today, months) <==>
              && r in db.reports && db.reports[r].tenant == t && db.reports[r].status == Paid
              && MonthOf(today) - months < MonthOf(db.reports[r].periodStart)
  {
    Reachable(ws, i);
    var db := ws[i].db;
    forall r | r in db.reports && db.reports[r].status == Paid ensures db.reports[r].deletedAt == None {
      assert ReportOk(db, r);
    }
  }

  /**
   In every reachable state the monthly summary is, month by month, the sum of the item amounts of exactly
   the paid reports in the window, and fails exactly when one of these sums does not fit; and the months
   together lose nothing.
   */
  lemma MonthlySummaryIsPaidItems(ws: seq<World>, i: nat, t: Uuid, today: Date, months: int)
    requires IsRun(ws) && i < |ws|
    ensures var db := ws[i].db;
            var paid := PaidSince(db, t, today, months);
            var items := ItemsOfReports(db.items, paid, t);
            && MonthlySummary(db, t, today, months) == CastSums(GroupSums(AmountColumn(items), ItemMonths(items, paid)))
            && Sum(GroupSums(AmountColumn(items), ItemMonths(items, paid))) == Sum(AmountColumn(items))
            && (forall r :: r in paid <==>
                  && r in db.reports && db.reports[r].tenant == t && db.reports[r].status == Paid
                  && MonthOf(today) - months < MonthOf(db.reports[r].periodStart))
  {
    Reachable(ws, i);
    var db := ws[i].db;
    var paid := PaidSince(db, t, today, months);
    PaidLately(ws, i, t, today, months);
    var items := ItemsOfReports(db.items, paid, t);
    PaidTotalsMatch(db, t, today, months);
    MonthsAreItems(db.items, paid, t);
    GroupSumsTotal(AmountColumn(items), ItemMonths(items, paid));
  }
}
