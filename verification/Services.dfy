/**
 The services and the transaction wrapper around them, as they change the tables step by step. Each is
 proved to do what `Requests` says of its request, whatever statement fails on the way.
 */
module Services {
  import opened Prelude
  import opened Domain
  import opened Tables
  import opened Requests
  import opened Invariant
  import opened Persistence
  import opened Runs

  /** The object storage: writes are durable at once and may fail. */
  class ObjectStore {
    var objects: map<Key, seq<Byte>>
    ghost var faults: nat  // how many writes have failed

    constructor ()
      ensures objects == map[] && faults == 0
    {
      objects, faults := map[], 0;
    }

    method Upload(key: Key, content: seq<Byte>) returns (ok: bool)
      modifies this
      ensures objects == old(objects) + (if ok then map[key := content] else map[])
      ensures faults == old(faults) + if ok then 0 else 1
    {
      ok := *;
      if ok {
        objects := objects + map[key := content];
      } else {
        faults := faults + 1;
      }
    }
  }

  /**
   A service call answers as specified, and on success leaves the tables as specified; only if a statement
   failed on the way may it answer `Internal` instead.
   */
  predicate Answers(spec: Result<Effect>, res: Result<Response>, after: Db, faulted: bool) {
    || (faulted && res == Err(Internal))
    || (res.Err? && spec == Err(res.error))
    || (res.Ok? && spec == Ok(Effect(after, res.value)))
  }

  // ----- Authorization checks -----

  function CanModifyReport(a: Actor, row: Report): Result<()> {
    if a.user != row.owner then Err(Forbidden) else Ok(())
  }

  function CanApproveOrReject(a: Actor, row: Report): Result<()> {
    if a.user == row.owner then Err(SelfApprovalNotAllowed) else Ok(())
  }

  function CanMarkAsPaid(a: Actor, row: Report): Result<()> {
    if a.user == row.owner then Err(SelfPaymentNotAllowed) else Ok(())
  }

  // ----- Report service -----

  /** The part of the source that the first rounds of the copy loop have copied. */
  ghost function Part(source: map<Uuid, Item>, done: seq<Uuid>): map<Uuid, Item> {
    map k | k in source && k in done :: source[k]
  }

  lemma CopyOneMore(items: map<Uuid, Item>, source: map<Uuid, Item>, done: seq<Uuid>, k: Uuid, names: Names, t: Uuid,
                    r: Uuid, stamp: Time)
    requires names.Valid() && source.Keys <= names.copy.Keys && k in source && k !in done
    ensures items + Copies(Part(source, done + [k]), names, t, r, stamp)
         == (items + Copies(Part(source, done), names, t, r, stamp))[names.copy[k] := CopyOf(source[k], t, r, stamp)]
  {
    var part, copies := Part(source, done), Copies(Part(source, done), names, t, r, stamp);
    assert Part(source, done + [k]) == part[k := source[k]];
    CopiesWithOneMore(part, k, source[k], names, t, r, stamp);
    PutLast(items, copies, names.copy[k], CopyOf(source[k], t, r, stamp));
  }

  lemma CopiesWithOneMore(part: map<Uuid, Item>, k: Uuid, item: Item, names: Names, t: Uuid, r: Uuid, stamp: Time)
    requires names.Valid() && k in names.copy
    ensures Copies(part[k := item], names, t, r, stamp)
         == Copies(part, names, t, r, stamp)[names.copy[k] := CopyOf(item, t, r, stamp)]
  {
  }

  lemma PutLast<K, V>(a: map<K, V>, b: map<K, V>, k: K, v: V)
    ensures a + b[k := v] == (a + b)[k := v]
  {
  }

  /** After any round the new report holds the copies made so far, and their total is the part's. */
  lemma CopiedSoFar(items: map<Uuid, Item>, source: map<Uuid, Item>, done: seq<Uuid>, names: Names,
                    t: Uuid, r: Uuid, stamp: Time)
    requires names.Valid() && source.Keys <= names.copy.Keys
    requires forall i :: i in source ==> names.copy[i] !in items && 0 < source[i].amount <= MAX_INT32
    requires forall i :: i in items ==> items[i].report != r
    ensures LiveTotal(items + Copies(Part(source, done), names, t, r, stamp), t, r)
         == Sum(AmountColumn(Part(source, done)))
  {
    var part := Part(source, done);
    CopiesTotal(part, names, t, r, stamp);
    CopyRows(items, part, names, t, r, stamp);
    InsertedItemsOk(items, Copies(part, names, t, r, stamp), t, r);
  }

  method CheckReferenceReport(db: Database, a: Actor, reference: Option<Uuid>) returns (res: Result<()>)
    modifies db`faults
    ensures db.faults >= old(db.faults)
    ensures (res == Err(Internal) && db.faults > old(db.faults)) || res == CheckReference(db.State(), a, reference)
  {
    if reference.Some? {
      var row :- db.GetReport(a.tenant, reference.value);
      if row.owner != a.user {
        return Err(Forbidden);
      }
      if row.status != Rejected {
        return Err(InvalidPeriod);
      }
    }
    return Ok(());
  }

  /** Identifiers reserved for copies of `rows` into the new report `r`, and amounts that can be copied. */
  ghost predicate CanCopy(items: map<Uuid, Item>, rows: map<Uuid, Item>, names: Names, r: Uuid) {
    && names.Valid() && rows.Keys <= names.copy.Keys
    && (forall k :: k in rows ==>
          k in items && items[k] == rows[k] && names.copy[k] !in items && 0 < rows[k].amount <= MAX_INT32)
    && (forall k :: k in items ==> items[k].report != r)
    && Sum(AmountColumn(rows)) <= MAX_INT32
  }

  /** The tables after the copy loop has copied `done`: the copies inserted, the new draft's total recomputed. */
  ghost predicate Copied(db: Database, items: map<Uuid, Item>, reports: map<Uuid, Report>, rows: map<Uuid, Item>,
                         done: seq<Uuid>, row: Report, env: Env)
    requires CanCopy(items, rows, env.names, env.newId)
    reads db
  {
    && db.items == items + Copies(Part(rows, done), env.names, row.tenant, env.newId, env.stamp)
    && db.reports == reports[env.newId := row.(total := Sum(AmountColumn(Part(rows, done))))]
  }

  /** Copying rows never hides the originals. */
  lemma OriginalsVisible(items: map<Uuid, Item>, rows: map<Uuid, Item>, done: seq<Uuid>, names: Names, t: Uuid,
                         r: Uuid, stamp: Time, k: Uuid)
    requires CanCopy(items, rows, names, r) && k in rows
    ensures var now := items + Copies(Part(rows, done), names, t, r, stamp); k in now && now[k] == rows[k]
  {
    CopyRows(items, Part(rows, done), names, t, r, stamp);
  }

  lemma LastWriteWins<K, V>(m: map<K, V>, k: K, first: V, last: V)
    ensures m[k := first][k := last] == m[k := last]
  {
  }

  lemma NothingCopied(items: map<Uuid, Item>, rows: map<Uuid, Item>, names: Names, t: Uuid, r: Uuid, stamp: Time)
    ensures items + Copies(Part(rows, []), names, t, r, stamp) == items
    ensures Sum(AmountColumn(Part(rows, []))) == 0
  {
    assert AmountColumn(Part(rows, [])) == map[];
  }

  lemma TakeOneMore<T>(s: seq<T>, i: nat)
    requires i < |s|
    ensures s[..i + 1] == s[..i] + [s[i]]
    ensures (forall j, k :: 0 <= j < k < |s| ==> s[j] != s[k]) ==> s[i] !in s[..i]
  {
  }

  lemma WholePart(rows: map<Uuid, Item>, listed: seq<Uuid>)
    requires forall k :: k in rows ==> k in listed
    ensures Part(rows, listed[..|listed|]) == rows
  {
    assert listed[..|listed|] == listed;
  }

  /** The running total of the copies fits the column, because the source's does. */
  lemma CopyFits(items: map<Uuid, Item>, rows: map<Uuid, Item>, done: seq<Uuid>, k: Uuid, env: Env, t: Uuid)
    requires CanCopy(items, rows, env.names, env.newId) && k in rows
    ensures 0 <= Sum(AmountColumn(Part(rows, done + [k]))) <= MAX_INT32
  {
    SumNonNegative(AmountColumn(Part(rows, done + [k])));
    SumSubset(AmountColumn(Part(rows, done + [k])), AmountColumn(rows));
  }

  /** Storing the next copy adds it to the copies made so far, and cannot overflow the total. */
  lemma CopyStored(before: Db, items: map<Uuid, Item>, reports: map<Uuid, Report>, rows: map<Uuid, Item>,
                   done: seq<Uuid>, k: Uuid, row: Report, env: Env)
    requires CanCopy(items, rows, env.names, env.newId) && row.updatedAt == env.stamp && k in rows && k !in done
    requires before.items == items + Copies(Part(rows, done), env.names, row.tenant, env.newId, env.stamp)
    requires before.reports == reports[env.newId := row.(total := Sum(AmountColumn(Part(rows, done))))]
    ensures var copy := CopyOf(rows[k], row.tenant, env.newId, env.stamp);
            var items' := items + Copies(Part(rows, done + [k]), env.names, row.tenant, env.newId, env.stamp);
            var reports' := reports[env.newId := row.(total := Sum(AmountColumn(Part(rows, done + [k]))))];
            StoreItem(before, row.tenant, env.names.copy[k], copy, env.stamp)
            == Ok(Effect(before.(items := items', reports := reports'), ItemRow(env.names.copy[k], copy)))
  {
    var copy, total := CopyOf(rows[k], row.tenant, env.newId, env.stamp), Sum(AmountColumn(Part(rows, done + [k])));
    var items' := items + Copies(Part(rows, done + [k]), env.names, row.tenant, env.newId, env.stamp);
    assert before.items[env.names.copy[k] := copy] == items' by {
      CopyOneMore(items, rows, done, k, env.names, row.tenant, env.newId, env.stamp);
    }
    assert LiveTotal(items', row.tenant, env.newId) == total by {
      CopiedSoFar(items, rows, done + [k], env.names, row.tenant, env.newId, env.stamp);
    }
    CopyFits(items, rows, done, k, env, row.tenant);
    StoreItemOk(before, row.tenant, env.names.copy[k], copy, env.stamp, total);
    LastWriteWins(reports, env.newId, row.(total := Sum(AmountColumn(Part(rows, done)))), row.(total := total));
  }

  /** Storing a positive amount under a report succeeds when the new total fits. */
  lemma StoreItemOk(db: Db, t: Uuid, i: Uuid, item: Item, stamp: Time, total: int)
    requires item.amount > 0 && item.report in db.reports && db.reports[item.report].tenant == t
    requires LiveTotal(db.items[i := item], t, item.report) == total && 0 <= total <= MAX_INT32
    ensures var row := db.reports[item.report].(total := total, updatedAt := stamp);
            StoreItem(db, t, i, item, stamp)
            == Ok(Effect(db.(items := db.items[i := item], reports := db.reports[item.report := row]),
                         ItemRow(i, item)))
  {
  }

  method CopyItem(db: Database, k: Uuid, row: Report, env: Env, ghost items: map<Uuid, Item>,
                  ghost reports: map<Uuid, Report>, ghost rows: map<Uuid, Item>, ghost done: seq<Uuid>)
    returns (res: Result<()>)
    requires CanCopy(items, rows, env.names, env.newId) && row.updatedAt == env.stamp
    requires Copied(db, items, reports, rows, done, row, env) && k in rows && k !in done
    modifies db`items, db`reports, db`faults
    ensures db.faults >= old(db.faults)
    ensures res.Err? ==> res.error == Internal && db.faults > old(db.faults)
    ensures res.Ok? ==> Copied(db, items, reports, rows, done + [k], row, env)
  {
    CopyStored(db.State(), items, reports, rows, done, k, row, env);
    OriginalsVisible(items, rows, done, env.names, row.tenant, env.newId, env.stamp, k);
    var item := db.items[k];
    ToInt32Exact(item.amount);
    var _ :- db.CreateItem(env.names.copy[k], row.tenant, env.newId, item.date, item.amount, item.category,
                           item.description, env.stamp);
    return Ok(());
  }

  /** The loop that copies the listed items into the new draft, recomputing its total every round. */
  method CopyListed(db: Database, listed: seq<Uuid>, row: Report, env: Env, ghost items: map<Uuid, Item>,
                    ghost reports: map<Uuid, Report>, ghost rows: map<Uuid, Item>)
    returns (res: Result<()>)
    requires CanCopy(items, rows, env.names, env.newId) && row.updatedAt == env.stamp
    requires Copied(db, items, reports, rows, [], row, env)
    requires forall k :: k in listed ==> k in rows
    requires forall i, j :: 0 <= i < j < |listed| ==> listed[i] != listed[j]
    modifies db`items, db`reports, db`faults
    ensures db.faults >= old(db.faults)
    ensures res.Err? ==> res.error == Internal && db.faults > old(db.faults)
    ensures res.Ok? ==> Copied(db, items, reports, rows, listed[..|listed|], row, env)
  {
    assert listed[..0] == [];
    for i := 0 to |listed|
      invariant Copied(db, items, reports, rows, listed[..i], row, env) && db.faults >= old(db.faults)
    {
      TakeOneMore(listed, i);
      var copied := CopyItem(db, listed[i], row, env, items, reports, rows, listed[..i]);
      if copied.Err? {
        return copied;
      }
    }
    return Ok(());
  }

  method CopyItems(db: Database, source: Uuid, row: Report, env: Env) returns (res: Result<()>)
    requires CanCopy(db.items, LiveItems(db.items, row.tenant, source), env.names, env.newId)
    requires env.newId in db.reports && db.reports[env.newId] == row && row.updatedAt == env.stamp && row.total == 0
    modifies db`items, db`reports, db`faults
    ensures db.faults >= old(db.faults)
    ensures res.Err? ==> res.error == Internal && db.faults > old(db.faults)
    ensures res.Ok? ==>
      var rows := LiveItems(old(db.items), row.tenant, source);
      && db.items == old(db.items) + Copies(rows, env.names, row.tenant, env.newId, env.stamp)
      && db.reports == old(db.reports)[env.newId := row.(total := Sum(AmountColumn(rows)))]
  {
    ghost var items, reports := db.items, db.reports;
    ghost var rows := LiveItems(items, row.tenant, source);
    var listed :- db.ListItems(row.tenant, source);
    NothingCopied(items, rows, env.names, row.tenant, env.newId, env.stamp);
    assert reports[env.newId := row] == reports && row.(total := 0) == row;
    var _ :- CopyListed(db, listed, row, env, items, reports, rows);
    WholePart(rows, listed);
    return Ok(());
  }

  /** In a reachable state a rejected report of the actor can be copied under fresh identifiers. */
  ghost predicate ReadyToCopy(db: Db, a: Actor, reference: Option<Uuid>, env: Env) {
    reference.Some? && CheckReference(db, a, reference).Ok? ==>
      CanCopy(db.items, LiveItems(db.items, a.tenant, reference.value), env.names, env.newId)
  }

  lemma InvReadyToCopy(db: Db, a: Actor, reference: Option<Uuid>, env: Env)
    requires Inv(db) && Fresh(db, env)
    ensures ReadyToCopy(db, a, reference, env)
  {
    if CheckReference(db, a, reference).Ok? {
      SourceRows(db, a, reference);
    }
  }

  /** Insert the new draft and, for a resubmission, its copies; the row as it stands afterwards. */
  method InsertWithCopies(db: Database, a: Actor, row: Report, env: Env) returns (res: Result<Report>)
    requires row.reference.Some? ==>
              CanCopy(db.items, LiveItems(db.items, row.tenant, row.reference.value), env.names, env.newId)
    requires row.updatedAt == env.stamp && row.total == 0 && row.tenant == a.tenant && row.deletedAt.None?
    modifies db`reports, db`items, db`faults
    ensures db.faults >= old(db.faults)
    ensures res.Err? ==> res.error == Internal && (db.faults > old(db.faults) || row.periodStart > row.periodEnd)
    ensures res.Ok? ==>
      var source := if row.reference.None? then map[] else LiveItems(old(db.items), a.tenant, row.reference.value);
      && row.periodStart <= row.periodEnd
      && res.value == row.(total := Sum(AmountColumn(source)))
      && db.reports == old(db.reports)[env.newId := res.value]
      && db.items == old(db.items) + Copies(source, env.names, a.tenant, env.newId, env.stamp)
  {
    ghost var reports := db.reports;
    var _ :- db.InsertReport(env.newId, row);
    if row.reference.None? {
      NothingCopied(db.items, map[], env.names, a.tenant, env.newId, env.stamp);
      assert Part(map[], []) == map[];
      return Ok(row);
    }
    var _ :- CopyItems(db, row.reference.value, row, env);
    LastWriteWins(reports, env.newId, row, db.reports[env.newId]);
    var reloaded := db.GetReport(a.tenant, env.newId);
    return reloaded;
  }

  method CreateReport(db: Database, a: Actor, title: string, start: Date, end: Date, reference: Option<Uuid>, env: Env)
    returns (res: Result<Response>)
    requires ReadyToCopy(db.State(), a, reference, env)
    modifies db`reports, db`items, db`faults
    ensures db.faults >= old(db.faults)
    ensures Answers(ServeCreateReport(old(db.State()), a, title, start, end, reference, env), res, db.State(),
                    db.faults > old(db.faults))
  {
    var _ :- CheckReferenceReport(db, a, reference);
    var row := NewReport(a, title, start, end, reference, 0, env.stamp);
    var created :- InsertWithCopies(db, a, row, env);
    return Ok(ReportRow(env.newId, created));
  }

  method UpdateReport(db: Database, a: Actor, r: Uuid, title: string, start: Date, end: Date, version: Time, env: Env)
    returns (res: Result<Response>)
    modifies db
    ensures db.faults >= old(db.faults)
    ensures Answers(ServeUpdateReport(old(db.State()), a, r, title, start, end, version, env), res, db.State(),
                    db.faults > old(db.faults))
  {
    var row :- db.GetReport(a.tenant, r);
    var _ :- CanModifyReport(a, row);
    var report := new ExpenseReport(r, row);
    var _ :- report.CanEdit();
    if row.updatedAt != version {
      return Err(Conflict);
    }
    report.title := title;
    report.periodStart := start;
    report.periodEnd := end;
    row :- db.UpdateReport(a.tenant, r, report.title, report.periodStart, report.periodEnd, report.updatedAt,
                           env.stamp);
    return Ok(ReportRow(r, row));
  }

  method DeleteReport(db: Database, a: Actor, r: Uuid, env: Env) returns (res: Result<Response>)
    modifies db
    ensures db.faults >= old(db.faults)
    ensures Answers(ServeDeleteReport(old(db.State()), a, r, env), res, db.State(), db.faults > old(db.faults))
  {
    var row :- db.GetReport(a.tenant, r);
    var _ :- CanModifyReport(a, row);
    var report := new ExpenseReport(r, row);
    var _ :- report.Delete(env.clock);
    var _ :- db.DeleteReport(a.tenant, r, env.stamp);
    return Ok(NoContent);
  }

  /** The rows behind a listing, in its order, as the entities handed to the domain. */
  method FetchItems(db: Database, listed: seq<Uuid>) returns (rows: seq<Item>)
    requires forall k :: k in listed ==> k in db.items
    ensures |rows| == |listed| && forall i :: 0 <= i < |rows| ==> rows[i] == db.items[listed[i]]
  {
    rows := [];
    for i := 0 to |listed|
      invariant |rows| == i && forall j :: 0 <= j < i ==> rows[j] == db.items[listed[j]]
    {
      rows := rows + [db.items[listed[i]]];
    }
  }

  /** Adding up a listing from the front gives the SQL sum of the listed rows. */
  lemma {:induction false} ListingSum(items: map<Uuid, Item>, listed: seq<Uuid>, rows: seq<Item>)
    requires |rows| == |listed| == |items|
    requires forall i :: 0 <= i < |rows| ==> listed[i] in items && rows[i] == items[listed[i]]
    requires forall i, j :: 0 <= i < j < |listed| ==> listed[i] != listed[j]
    ensures Amounts(rows) == Sum(AmountColumn(items))
    decreases |rows|
  {
    if rows == [] {
      assert AmountColumn(items) == map[];
    } else {
      var last := |rows| - 1;
      var k := listed[last];
      SumRemove(AmountColumn(items), k);
      assert AmountColumn(items) - {k} == AmountColumn(items - {k});
      ListingSum(items - {k}, listed[..last], rows[..last]);
    }
  }

  lemma {:induction false} ListingSize(rows: map<Uuid, Item>, listed: seq<Uuid>)
    requires forall k :: k in listed <==> k in rows
    requires forall i, j :: 0 <= i < j < |listed| ==> listed[i] != listed[j]
    ensures |listed| == |rows|
    decreases |listed|
  {
    if listed == [] {
      assert rows == map[];
    } else {
      var last := |listed| - 1;
      ListingSize(rows - {listed[last]}, listed[..last]);
    }
  }

  /** The item list a submission is made of: as many rows as are live, adding up to their SQL sum. */
  method ListForSubmission(db: Database, t: Uuid, r: Uuid) returns (res: Result<seq<Item>>)
    modifies db`faults
    ensures db.faults >= old(db.faults)
    ensures res.Err? ==> res.error == Internal && db.faults > old(db.faults)
    ensures res.Ok? ==>
      var rows := LiveItems(db.items, t, r);
      |res.value| == |rows| && Amounts(res.value) == Sum(AmountColumn(rows))
  {
    var listed :- db.ListItems(t, r);
    var items := FetchItems(db, listed);
    ListingSize(LiveItems(db.items, t, r), listed);
    ListingSum(LiveItems(db.items, t, r), listed, items);
    return Ok(items);
  }

  method SubmitReport(db: Database, a: Actor, r: Uuid, version: Time, env: Env) returns (res: Result<Response>)
    modifies db
    ensures db.faults >= old(db.faults)
    ensures Answers(ServeSubmitReport(old(db.State()), a, r, version, env), res, db.State(), db.faults > old(db.faults))
  {
    var row :- db.GetReport(a.tenant, r);
    var _ :- CanModifyReport(a, row);
    if row.updatedAt != version {
      return Err(Conflict);
    }
    var hasApprover :- db.TenantHasApprover(a.tenant);
    var items :- ListForSubmission(db, a.tenant, r);
    var report := new ExpenseReport(r, row);
    var _ :- report.Submit(a.user, items, hasApprover, env.clock);
    row :- db.UpdateReportStatus(a.tenant, r, report.Row(), env.stamp);
    return Ok(ReportRow(r, row));
  }

  // ----- Workflow service -----

  method ApproveReport(db: Database, a: Actor, r: Uuid, comment: Option<string>, version: Time, env: Env)
    returns (res: Result<Response>)
    modifies db
    ensures db.faults >= old(db.faults)
    ensures Answers(ServeApproveReport(old(db.State()), a, r, comment, version, env), res, db.State(),
                    db.faults > old(db.faults))
  {
    var row :- db.GetReport(a.tenant, r);
    var _ :- CanApproveOrReject(a, row);
    if row.updatedAt != version {
      return Err(Conflict);
    }
    var report := new ExpenseReport(r, row);
    var _ :- report.Approve(a.user, comment, env.clock);
    row :- db.UpdateReportStatus(a.tenant, r, report.Row(), env.stamp);
    return Ok(ReportRow(r, row));
  }

  method RejectReport(db: Database, a: Actor, r: Uuid, reason: string, version: Time, env: Env)
    returns (res: Result<Response>)
    modifies db
    ensures db.faults >= old(db.faults)
    ensures Answers(ServeRejectReport(old(db.State()), a, r, reason, version, env), res, db.State(),
                    db.faults > old(db.faults))
  {
    var row :- db.GetReport(a.tenant, r);
    var _ :- CanApproveOrReject(a, row);
    if row.updatedAt != version {
      return Err(Conflict);
    }
    var report := new ExpenseReport(r, row);
    var _ :- report.Reject(a.user, reason, env.clock);
    row :- db.UpdateReportStatus(a.tenant, r, report.Row(), env.stamp);
    return Ok(ReportRow(r, row));
  }

  method PayReport(db: Database, a: Actor, r: Uuid, version: Time, env: Env) returns (res: Result<Response>)
    modifies db
    ensures db.faults >= old(db.faults)
    ensures Answers(ServePayReport(old(db.State()), a, r, version, env), res, db.State(), db.faults > old(db.faults))
  {
    var row :- db.GetReport(a.tenant, r);
    var _ :- CanMarkAsPaid(a, row);
    if row.updatedAt != version {
      return Err(Conflict);
    }
    var report := new ExpenseReport(r, row);
    var _ :- report.MarkAsPaid(a.user, env.clock);
    row :- db.UpdateReportStatus(a.tenant, r, report.Row(), env.stamp);
    return Ok(ReportRow(r, row));
  }

  // ----- Item service -----

  /** Fetch, owner check, draft check: how every change of a report's contents begins. */
  method FetchEditable(db: Database, a: Actor, r: Uuid) returns (res: Result<Report>)
    modifies db`faults
    ensures db.faults >= old(db.faults)
    ensures (res == Err(Internal) && db.faults > old(db.faults)) || res == Editable(db.State(), a, r)
  {
    var row :- db.GetReport(a.tenant, r);
    var _ :- CanModifyReport(a, row);
    var report := new ExpenseReport(r, row);
    var _ :- report.CanEdit();
    return Ok(row);
  }

  method CreateItem(db: Database, a: Actor, r: Uuid, date: Date, amount: int, category: Uuid, description: string,
                    env: Env)
    returns (res: Result<Response>)
    modifies db
    ensures db.faults >= old(db.faults)
    ensures Answers(ServeCreateItem(old(db.State()), a, r, date, amount, category, description, env), res, db.State(),
                    db.faults > old(db.faults))
  {
    var _ :- FetchEditable(db, a, r);
    if amount <= 0 {
      return Err(InvalidAmount);
    }
    var _ :- db.GetCategory(a.tenant, category);
    var row :- db.CreateItem(env.newId, a.tenant, r, date, amount, category, description, env.stamp);
    return Ok(ItemRow(env.newId, row));
  }

  method UpdateItem(db: Database, a: Actor, r: Uuid, i: Uuid, date: Date, amount: int, category: Uuid,
                    description: string,
                    version: Time, env: Env) returns (res: Result<Response>)
    modifies db
    ensures db.faults >= old(db.faults)
    ensures Answers(ServeUpdateItem(old(db.State()), a, r, i, date, amount, category, description, version, env), res,
                    db.State(), db.faults > old(db.faults))
  {
    var _ :- FetchEditable(db, a, r);
    var item :- db.GetItem(a.tenant, r, i);
    if amount <= 0 {
      return Err(InvalidAmount);
    }
    var _ :- db.GetCategory(a.tenant, category);
    var row :- db.ReplaceItem(i, item.(date := date, amount := amount, category := category, description := description,
                                       updatedAt := version), env.stamp);
    return Ok(ItemRow(i, row));
  }

  method DeleteItem(db: Database, a: Actor, r: Uuid, i: Uuid, env: Env) returns (res: Result<Response>)
    modifies db
    ensures db.faults >= old(db.faults)
    ensures Answers(ServeDeleteItem(old(db.State()), a, r, i, env), res, db.State(), db.faults > old(db.faults))
  {
    var _ :- FetchEditable(db, a, r);
    var _ :- db.GetItem(a.tenant, r, i);
    var _ :- db.DeleteItem(a.tenant, r, i, env.stamp);
    return Ok(NoContent);
  }

  // ----- Attachment service -----

  method ValidateUpload(db: Database, a: Actor, r: Uuid, i: Uuid, mime: Mime, content: seq<Byte>, env: Env)
    returns (res: Result<Key>)
    modifies db`faults
    ensures db.faults >= old(db.faults)
    ensures || (res == Err(Internal) && db.faults > old(db.faults))
            || res == CheckUpload(db.State(), a, r, i, mime, content, env)
  {
    var _ :- FetchEditable(db, a, r);
    var _ :- db.GetItem(a.tenant, r, i);
    if |content| > MAX_FILE_SIZE {
      return Err(FileTooLarge);
    }
    if !AllowedMime(mime) {
      return Err(InvalidFileType);
    }
    if DetectMime(content, env.sniffed) != mime {
      return Err(InvalidFileType);
    }
    return Ok(Key(a.tenant, r, env.newId));
  }

  /** The file goes to storage before the row is inserted; `stored` tells whether it got there. */
  method UploadAttachment(db: Database, store: ObjectStore, a: Actor, r: Uuid, i: Uuid, fileName: string, mime: Mime,
                          content: seq<Byte>, env: Env) returns (res: Result<Response>, stored: bool)
    modifies db`attachments, db`faults, store
    ensures db.faults >= old(db.faults)
    ensures store.faults >= old(store.faults)
    ensures Answers(ServeUploadAttachment(old(db.State()), a, r, i, fileName, mime, content, env), res, db.State(),
                    db.faults > old(db.faults) || store.faults > old(store.faults))
    ensures var req := Request.UploadAttachment(r, i, fileName, mime, content);
            store.objects == old(store.objects) + (if stored then StoredObject(old(db.State()), a, req, env) else map[])
    ensures res.Ok? ==> stored
  {
    var key := ValidateUpload(db, a, r, i, mime, content, env);
    if key.Err? {
      assert store.objects + map[] == store.objects;
      return Err(key.error), false;
    }
    stored := store.Upload(key.value, content);
    if !stored {
      return Err(Internal), stored;
    }
    var row := Attachment(i, r, a.tenant, fileName, |content|, mime, key.value, env.stamp, None);
    var inserted := db.InsertAttachment(env.newId, row);
    if inserted.Err? {
      return Err(inserted.error), stored;
    }
    return Ok(AttachmentRow(env.newId, row)), stored;
  }

  method DeleteAttachment(db: Database, a: Actor, r: Uuid, i: Uuid, att: Uuid, env: Env) returns (res: Result<Response>)
    modifies db
    ensures db.faults >= old(db.faults)
    ensures Answers(ServeDeleteAttachment(old(db.State()), a, r, i, att, env), res, db.State(),
                    db.faults > old(db.faults))
  {
    var _ :- FetchEditable(db, a, r);
    var _ :- db.GetAttachment(a.tenant, r, i, att);
    var _ :- db.SoftDeleteAttachment(a.tenant, r, i, att, env.stamp);
    return Ok(NoContent);
  }

  // ----- Routing and the transaction around a request -----

  /** Requests on items and attachments. */
  predicate OnContents(req: Request) {
    req.CreateItem? || req.UpdateItem? || req.DeleteItem? || req.UploadAttachment? || req.DeleteAttachment?
  }

  method DispatchContents(db: Database, store: ObjectStore, a: Actor, req: Request, env: Env)
    returns (res: Result<Response>, stored: bool)
    requires OnContents(req)
    modifies db, store
    ensures db.faults >= old(db.faults)
    ensures store.faults >= old(store.faults)
    ensures Answers(Serve(old(db.State()), a, req, env), res, db.State(),
                    db.faults > old(db.faults) || store.faults > old(store.faults))
    ensures store.objects == old(store.objects) + (if stored then StoredObject(old(db.State()), a, req, env) else map[])
    ensures res.Ok? ==> stored
  {
    stored := true;
    match req
    case CreateItem(r, date, amount, category, description) =>
      res := CreateItem(db, a, r, date, amount, category, description, env);
    case UpdateItem(r, i, date, amount, category, description, version) =>
      res := UpdateItem(db, a, r, i, date, amount, category, description, version, env);
    case DeleteItem(r, i) => res := DeleteItem(db, a, r, i, env);
    case UploadAttachment(r, i, fileName, mime, content) =>
      res, stored := UploadAttachment(db, store, a, r, i, fileName, mime, content, env);
    case DeleteAttachment(r, i, att) => res := DeleteAttachment(db, a, r, i, att, env);
  }

  method DispatchReports(db: Database, a: Actor, req: Request, env: Env) returns (res: Result<Response>)
    requires !OnContents(req) && RoleAllows(a.role, req)
    requires req.CreateReport? ==> ReadyToCopy(db.State(), a, req.reference, env)
    modifies db
    ensures db.faults >= old(db.faults)
    ensures Answers(Serve(old(db.State()), a, req, env), res, db.State(), db.faults > old(db.faults))
  {
    match req
    case CreateReport(title, start, end, reference) => res := CreateReport(db, a, title, start, end, reference, env);
    case UpdateReport(r, title, start, end, version) => res := UpdateReport(db, a, r, title, start, end, version, env);
    case DeleteReport(r) => res := DeleteReport(db, a, r, env);
    case SubmitReport(r, version) => res := SubmitReport(db, a, r, version, env);
    case ApproveReport(r, comment, version) => res := ApproveReport(db, a, r, comment, version, env);
    case RejectReport(r, reason, version) => res := RejectReport(db, a, r, reason, version, env);
    case PayReport(r, version) => res := PayReport(db, a, r, version, env);
  }

  method Dispatch(db: Database, store: ObjectStore, a: Actor, req: Request, env: Env)
    returns (res: Result<Response>, stored: bool)
    requires req.CreateReport? ==> ReadyToCopy(db.State(), a, req.reference, env)
    modifies db, store
    ensures db.faults >= old(db.faults)
    ensures store.faults >= old(store.faults)
    ensures Answers(Serve(old(db.State()), a, req, env), res, db.State(),
                    db.faults > old(db.faults) || store.faults > old(store.faults))
    ensures store.objects == old(store.objects) + (if stored then StoredObject(old(db.State()), a, req, env) else map[])
    ensures res.Ok? ==> stored
  {
    if !RoleAllows(a.role, req) {
      return Err(Forbidden), false;
    }
    if OnContents(req) {
      res, stored := DispatchContents(db, store, a, req, env);
      return;
    }
    res := DispatchReports(db, a, req, env);
    stored := true;
  }

  /**
   What a request may come to. It is one step of `Runs`. If it commits, answer and tables are the specified
   ones; otherwise the tables are as they were. Without a fault the specified success commits and the specified
   error is answered; an error is the specified one or, after a fault, `Internal`.
   */
  ghost predicate Handles(w: World, a: Actor, req: Request, env: Env, res: Result<Response>, stored: bool,
                          committed: bool, w': World, faulted: bool)
  {
    && Step(w, Handled(a, req, env, stored, committed), w')
    && (committed ==> res.Ok? && Serve(w.db, a, req, env) == Ok(Effect(w'.db, res.value)))
    && (!committed ==> w'.db == w.db)
    && (res.Err? ==> !committed)
    && (!faulted ==>
          match Serve(w.db, a, req, env)
          case Ok(effect) => committed && stored && res == Ok(effect.response) && w'.db == effect.db
          case Err(error) => !committed && res == Err(error))
    && (res.Err? ==> Serve(w.db, a, req, env) == Err(res.error) || (res.error == Internal && faulted))
  }

  lemma NothingHandled(w: World, a: Actor, req: Request, env: Env)
    requires Authenticated(w.db, a) && EnvOk(w, req, env)
    ensures Handles(w, a, req, env, Err(Internal), false, false, w, true)
  {
    assert w.objects + map[] == w.objects;
  }

  /** Whether the request's file went to storage, and nothing else did. */
  ghost predicate Uploads(w: World, a: Actor, req: Request, env: Env, stored: bool, objects: map<Key, seq<Byte>>) {
    objects == w.objects + (if stored then StoredObject(w.db, a, req, env) else map[])
  }

  lemma CommitHandled(w: World, a: Actor, req: Request, env: Env, res: Result<Response>, w': World, faulted: bool)
    requires Authenticated(w.db, a) && EnvOk(w, req, env) && Uploads(w, a, req, env, true, w'.objects)
    requires res.Ok? && Serve(w.db, a, req, env) == Ok(Effect(w'.db, res.value))
    ensures Handles(w, a, req, env, res, true, true, w', faulted)
  {
  }

  lemma RollbackHandled(w: World, a: Actor, req: Request, env: Env, res: Result<Response>, stored: bool, w': World,
                        faulted: bool)
    requires Authenticated(w.db, a) && EnvOk(w, req, env) && Uploads(w, a, req, env, stored, w'.objects)
    requires w'.db == w.db
    requires if res.Ok? then faulted
             else (res.error == Internal && faulted) || Serve(w.db, a, req, env) == Err(res.error)
    ensures Handles(w, a, req, env, res, stored, false, w', faulted)
  {
  }

  /** After the handler: COMMIT for an answer below 400, ROLLBACK otherwise. A panic in the handler is a fault. */
  method EndTransaction(db: Database, begin: Db, answer: Result<Response>)
    returns (res: Result<Response>, committed: bool)
    modifies db
    ensures db.faults >= old(db.faults)
    ensures db.State() == if committed then old(db.State()) else begin
    ensures res == answer || (res == Err(Internal) && db.faults > old(db.faults))
    ensures committed ==> res == answer && answer.Ok?
    ensures db.faults == old(db.faults) ==> committed == answer.Ok?
  {
    res, committed := answer, false;
    var panicked := db.Fails();
    if panicked {
      res := Err(Internal);
    } else if res.Ok? {
      var commitFailed := db.Fails();
      committed := !commitFailed;
    }
    if !committed {
      db.Rollback(begin);
    }
  }

  /** The request between BEGIN and the end of the transaction. */
  method HandleBegun(db: Database, store: ObjectStore, a: Actor, req: Request, env: Env)
    returns (res: Result<Response>, stored: bool, committed: bool)
    requires Authenticated(db.State(), a) && EnvOk(World(db.State(), store.objects), req, env)
    requires req.CreateReport? ==> ReadyToCopy(db.State(), a, req.reference, env)
    modifies db, store
    ensures db.faults >= old(db.faults) && store.faults >= old(store.faults)
    ensures Handles(old(World(db.State(), store.objects)), a, req, env, res, stored, committed,
                    World(db.State(), store.objects), db.faults > old(db.faults) || store.faults > old(store.faults))
  {
    var begin := db.State();
    ghost var w := World(begin, store.objects);
    res, stored := Dispatch(db, store, a, req, env);
    assert Uploads(w, a, req, env, stored, store.objects);
    res, committed := EndTransaction(db, begin, res);
    ghost var faulted := db.faults > old(db.faults) || store.faults > old(store.faults);
    if committed {
      CommitHandled(w, a, req, env, res, World(db.State(), store.objects), faulted);
    } else {
      RollbackHandled(w, a, req, env, res, stored, World(db.State(), store.objects), faulted);
    }
  }

  /**
   TenantContext: BEGIN, set_config, the request, then COMMIT if it answered below 400 and ROLLBACK otherwise.
   BEGIN and set_config may fail, COMMIT may fail after the answer was sent, and a panic is rolled back
   (there is no answer then, which counts as `Internal`).
   */
  method HandleInTransaction(db: Database, store: ObjectStore, a: Actor, req: Request, env: Env)
    returns (res: Result<Response>, stored: bool, committed: bool)
    requires Inv(db.State()) && Authenticated(db.State(), a)
    requires EnvOk(World(db.State(), store.objects), req, env)
    modifies db, store
    ensures db.faults >= old(db.faults) && store.faults >= old(store.faults)
    ensures Handles(old(World(db.State(), store.objects)), a, req, env, res, stored, committed,
                    World(db.State(), store.objects), db.faults > old(db.faults) || store.faults > old(store.faults))
  {
    if req.CreateReport? {
      InvReadyToCopy(db.State(), a, req.reference, env);
    }
    NothingHandled(World(db.State(), store.objects), a, req, env);
    var failed := db.Fails();  // acquiring a connection and BEGIN
    if failed {
      return Err(Internal), false, false;
    }
    failed := db.Fails();  // set_config
    if failed {
      return Err(Internal), false, false;
    }
    res, stored, committed := HandleBegun(db, store, a, req, env);
  }
}
