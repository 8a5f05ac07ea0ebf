/**
 A reachable state in which two pending reports tie: submission times come from the application clock, so
 two reports can be submitted at the same one.
 */
module TiedRun {
  import opened Prelude
  import opened Domain
  import opened Tables
  import opened Requests
  import opened Invariant
  import opened Runs
  import opened Paging
  import opened TiedPages
  import opened Listings

  const OWNER := Actor(1, 1, Member)

  const NAMES := Names(map[20 := 30, 21 := 31], map[30 := 20, 31 := 21])

  function DraftOf(total: int, stamp: Time): Report {
    NewReport(OWNER, "t", 0, 0, None, total, 0).(updatedAt := stamp)
  }

  /** The draft once submitted at clock 100. */
  function Handed(stamp: Time): Report {
    DraftOf(5, stamp).(status := Submitted, submittedAt := Some(100), submittedBy := Some(1))
  }

  function ItemIn(r: Uuid, stamp: Time): Item {
    Item(r, 1, 0, 5, 1, "d", stamp, stamp, None)
  }

  function Populated(reports: map<Uuid, Report>, items: map<Uuid, Item>): World {
    World(Db(map[1 := "o", 2 := "p"], map[1 := Membership(1, Member), 2 := Membership(1, Approver)],
             map[1 := Category(None, true)],
             reports, items, map[]), map[])
  }

  /** The environment of each request: the application clock always reads 100. */
  function At(stamp: Time, newId: Uuid): Env {
    Env(stamp, 100, newId, NAMES, Jpeg)
  }

  // ----- One request each -----

  predicate CanServe(reports: map<Uuid, Report>, items: map<Uuid, Item>, newId: Uuid) {
    newId !in reports && newId !in items && items.Keys <= {20, 21}
  }

  lemma ActorAndNames(reports: map<Uuid, Report>, items: map<Uuid, Item>, stamp: Time, newId: Uuid)
    requires CanServe(reports, items, newId)
    ensures var w := Populated(reports, items);
            Authenticated(w.db, OWNER) && Fresh(w.db, At(stamp, newId)) && HasApprover(w.db, 1)
  {
    assert Populated(reports, items).db.members[2] == Membership(1, Approver);
  }

  /** A committed request that stores no file is a step from table to table. */
  lemma OneRequest(w: World, req: Request, env: Env, w': World)
    requires Authenticated(w.db, OWNER) && EnvOk(w, req, env) && !req.UploadAttachment? && w'.objects == w.objects
    requires Serve(w.db, OWNER, req, env).Ok? && Serve(w.db, OWNER, req, env).value.db == w'.db
    ensures Next(w, w')
  {
    var none: map<Key, seq<Byte>> := map[];
    assert w.objects + none == w'.objects;
    assert Step(w, Handled(OWNER, req, env, true, true), w');
  }

  lemma NoRows(r: Uuid)
    ensures Sum(AmountColumn(map[])) == 0 && Copies(map[], NAMES, 1, r, 0) == map[]
  {
    var none: map<Uuid, Item> := map[];
    assert AmountColumn(none) == map[];
  }

  lemma DraftServed(reports: map<Uuid, Report>, r: Uuid)
    ensures var db := Populated(reports, map[]).db;
            ServeCreateReport(db, OWNER, "t", 0, 0, None, At(0, r))
            == Ok(Effect(db.(reports := reports[r := DraftOf(0, 0)]), ReportRow(r, DraftOf(0, 0))))
  {
    var none: map<Uuid, Item> := map[];
    NoRows(r);
    assert none + none == none;
  }

  lemma Drafted(reports: map<Uuid, Report>, r: Uuid)
    requires CanServe(reports, map[], r)
    ensures Next(Populated(reports, map[]), Populated(reports[r := DraftOf(0, 0)], map[]))
  {
    ActorAndNames(reports, map[], 0, r);
    DraftServed(reports, r);
    OneRequest(Populated(reports, map[]), CreateReport("t", 0, 0, None), At(0, r),
               Populated(reports[r := DraftOf(0, 0)], map[]));
  }

  lemma OneRow(items: map<Uuid, Item>, r: Uuid, i: Uuid, item: Item)
    requires LiveItems(items, 1, r) == map[i := item] && item.amount == 5
    ensures LiveTotal(items, 1, r) == 5
  {
    var column := AmountColumn(map[i := item]);
    SumRemove(column, i);
    assert column - {i} == map[];
  }

  predicate CanFill(reports: map<Uuid, Report>, items: map<Uuid, Item>, r: Uuid, i: Uuid) {
    && CanServe(reports, items, i) && r in reports && reports[r] == DraftOf(0, 0) && i in {20, 21}
    && forall k :: k in items ==> items[k].report != r
  }

  lemma FillServed(reports: map<Uuid, Report>, items: map<Uuid, Item>, r: Uuid, i: Uuid, stamp: Time)
    requires CanFill(reports, items, r, i)
    ensures var db, items' := Populated(reports, items).db, items[i := ItemIn(r, stamp)];
            ServeCreateItem(db, OWNER, r, 0, 5, 1, "d", At(stamp, i))
            == Ok(Effect(db.(reports := reports[r := DraftOf(5, stamp)], items := items'),
                         ItemRow(i, ItemIn(r, stamp))))
  {
    var items' := items[i := ItemIn(r, stamp)];
    assert LiveItems(items', 1, r) == map[i := ItemIn(r, stamp)];
    OneRow(items', r, i, ItemIn(r, stamp));
    assert ToInt32(5) == 5;
  }

  lemma Filled(reports: map<Uuid, Report>, items: map<Uuid, Item>, r: Uuid, i: Uuid, stamp: Time)
    requires CanFill(reports, items, r, i)
    ensures Next(Populated(reports, items), Populated(reports[r := DraftOf(5, stamp)], items[i := ItemIn(r, stamp)]))
  {
    ActorAndNames(reports, items, stamp, i);
    FillServed(reports, items, r, i, stamp);
    OneRequest(Populated(reports, items), CreateItem(r, 0, 5, 1, "d"), At(stamp, i),
               Populated(reports[r := DraftOf(5, stamp)], items[i := ItemIn(r, stamp)]));
  }

  lemma Handover(reports: map<Uuid, Report>, items: map<Uuid, Item>, r: Uuid, i: Uuid, version: Time, stamp: Time,
                 newId: Uuid)
    requires CanServe(reports, items, newId) && r in reports && reports[r] == DraftOf(5, version)
    requires LiveItems(items, 1, r) == map[i := ItemIn(r, version)]
    ensures Next(Populated(reports, items), Populated(reports[r := Handed(stamp)], items))
  {
    ActorAndNames(reports, items, stamp, newId);
    OneRow(items, r, i, ItemIn(r, version));
    OneRequest(Populated(reports, items), SubmitReport(r, version), At(stamp, newId),
               Populated(reports[r := Handed(stamp)], items));
  }

  // ----- The run -----

  const DRAFTED := map[10 := DraftOf(0, 0)][11 := DraftOf(0, 0)]
  const FILLED := DRAFTED[10 := DraftOf(5, 3)][11 := DraftOf(5, 4)]
  const HANDED := FILLED[10 := Handed(5)][11 := Handed(6)]
  const ITEMS := map[20 := ItemIn(10, 3)][21 := ItemIn(11, 4)]

  /** The owner makes two drafts with an item each and submits both. */
  function WorldAt(k: nat): World {
    var empty := Db(map[], map[], map[1 := Category(None, true)], map[], map[], map[]);
    if k == 0 then World(empty, map[])
    else if k == 1 then World(empty.(users := map[1 := "o"], members := map[1 := Membership(1, Member)]), map[])
    else if k == 2 then Populated(map[], map[])
    else if k == 3 then Populated(map[10 := DraftOf(0, 0)], map[])
    else if k == 4 then Populated(DRAFTED, map[])
    else if k == 5 then Populated(DRAFTED[10 := DraftOf(5, 3)], map[20 := ItemIn(10, 3)])
    else if k == 6 then Populated(FILLED, ITEMS)
    else if k == 7 then Populated(FILLED[10 := Handed(5)], ITEMS)
    else Populated(HANDED, ITEMS)
  }

  lemma Provisioning()
    ensures Next(WorldAt(0), WorldAt(1)) && Next(WorldAt(1), WorldAt(2))
  {
    assert Step(WorldAt(0), Provisioned(1, "o", Membership(1, Member)), WorldAt(1));
    assert Step(WorldAt(1), Provisioned(2, "p", Membership(1, Approver)), WorldAt(2));
  }

  lemma Drafting()
    ensures Next(Populated(map[], map[]), Populated(map[10 := DraftOf(0, 0)], map[]))
    ensures Next(Populated(map[10 := DraftOf(0, 0)], map[]), Populated(DRAFTED, map[]))
  {
    Drafted(map[], 10);
    Drafted(map[10 := DraftOf(0, 0)], 11);
  }

  lemma FillFirst()
    ensures Next(Populated(DRAFTED, map[]), Populated(DRAFTED[10 := DraftOf(5, 3)], map[20 := ItemIn(10, 3)]))
  {
    Filled(DRAFTED, map[], 10, 20, 3);
  }

  lemma FillSecond()
    ensures Next(Populated(DRAFTED[10 := DraftOf(5, 3)], map[20 := ItemIn(10, 3)]), Populated(FILLED, ITEMS))
  {
    Filled(DRAFTED[10 := DraftOf(5, 3)], map[20 := ItemIn(10, 3)], 11, 21, 4);
  }

  lemma HandFirst()
    ensures Next(Populated(FILLED, ITEMS), Populated(FILLED[10 := Handed(5)], ITEMS))
  {
    assert LiveItems(ITEMS, 1, 10) == map[20 := ItemIn(10, 3)];
    Handover(FILLED, ITEMS, 10, 20, 3, 5, 40);
  }

  lemma HandSecond()
    ensures Next(Populated(FILLED[10 := Handed(5)], ITEMS), Populated(HANDED, ITEMS))
  {
    assert LiveItems(ITEMS, 1, 11) == map[21 := ItemIn(11, 4)];
    Handover(FILLED[10 := Handed(5)], ITEMS, 11, 21, 4, 6, 41);
  }

  lemma AllSteps(k: nat)
    requires k < 8
    ensures Next(WorldAt(k), WorldAt(k + 1))
  {
    if k < 2 {
      Provisioning();
    } else if k < 4 {
      Drafting();
    } else if k == 4 {
      FillFirst();
    } else if k == 5 {
      FillSecond();
    } else if k == 6 {
      HandFirst();
    } else {
      HandSecond();
    }
  }

  lemma RunOf(f: nat -> World, n: nat) returns (ws: seq<World>)
    requires Init(f(0)) && forall k: nat :: k < n ==> Next(f(k), f(k + 1))
    ensures IsRun(ws) && |ws| == n + 1 && ws[n] == f(n)
  {
    ws := seq(n + 1, k requires 0 <= k => f(k));
    forall i: nat | i + 1 < |ws| ensures StepsAt(ws, i) {
      assert ws[i] == f(i) && ws[i + 1] == f(i + 1);
    }
  }

  lemma Run() returns (ws: seq<World>)
    ensures IsRun(ws) && |ws| == 9 && ws[8] == Populated(HANDED, ITEMS)
  {
    forall k: nat | k < 8 ensures Next(WorldAt(k), WorldAt(k + 1)) {
      AllSteps(k);
    }
    ws := RunOf(WorldAt, 8);
  }

  lemma PendingRows(reports: map<Uuid, Report>, items: map<Uuid, Item>)
    requires reports == map[10 := Handed(5), 11 := Handed(6)]
    ensures Pending(Populated(reports, items).db, 1) == reports
    ensures SubmittedColumn(reports) == map[10 := 100, 11 := 100]
  {
    assert forall k :: k in reports ==> Selected(reports[k], 1, NO_FILTER.(status := Some(Submitted)));
  }

  /**
   In this reachable state the approver's pending list, walked one row at a time, need not show every report
   once, nor even at all: the two rows tie across the page end.
   */
  lemma PendingCanTie() returns (ws: seq<World>)
    ensures IsRun(ws)
    ensures var times := SubmittedColumn(Pending(ws[|ws| - 1].db, 1));
            times == map[10 := 100, 11 := 100] && !AlwaysShownOnce(times, 1) && !AlwaysCovers(times, 1)
  {
    ws := Run();
    PendingRows(HANDED, ITEMS);
    TieOfTwo(SubmittedColumn(HANDED));
  }

  lemma TieOfTwo(times: map<Uuid, Time>)
    requires times == map[10 := 100, 11 := 100]
    ensures !AlwaysShownOnce(times, 1) && !AlwaysCovers(times, 1)
  {
    var listed := [10, 11];
    assert Orders(listed, times);
    OrderSize(listed, times);
    assert PageEnd(1, 1) == 1 && !Cut(listed, times, 1);
    ShownOnceIffNoTieAtPageEnd(listed, times, 1);
  }
}
