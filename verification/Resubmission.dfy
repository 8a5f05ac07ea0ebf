/** What a resubmission carries over, and what an item request stores of the amount it was asked for. */
module Resubmission {
  import opened Prelude
  import opened Domain
  import opened Tables
  import opened Requests
  import opened Invariant
  import opened Runs

  /** What a person entered on an item. */
  datatype Content = Content(date: Date, amount: int, category: Uuid, description: string)

  function ContentOf(item: Item): Content {
    Content(item.date, item.amount, item.category, item.description)
  }

  function Contents(items: map<Uuid, Item>): map<Uuid, Content> {
    map k | k in items :: ContentOf(items[k])
  }

  /** The values of a map, counted, whatever their keys and order. */
  ghost function Bag<K, V>(m: map<K, V>): multiset<V>
    decreases |m|
  {
    if m == map[] then multiset{}
    else
      var k :| k in m;
      Bag(m - {k}) + multiset{m[k]}
  }

  lemma SwapLast<V>(bag: multiset<V>, x: V, y: V)
    ensures bag + multiset{x} + multiset{y} == bag + multiset{y} + multiset{x}
  {
  }

  lemma {:induction false} BagRemove<K, V>(m: map<K, V>, k: K)
    requires k in m
    ensures Bag(m) == Bag(m - {k}) + multiset{m[k]}
    decreases |m|
  {
    var j :| j in m && Bag(m) == Bag(m - {j}) + multiset{m[j]};
    if j != k {
      var x, y := m[j], m[k];
      var rest := Bag(m - {j} - {k});
      assert m - {j} - {k} == m - {k} - {j};
      assert Bag(m - {j}) == rest + multiset{y} by { BagRemove(m - {j}, k); }
      assert Bag(m - {k}) == rest + multiset{x} by { BagRemove(m - {k}, j); }
      SwapLast(rest, y, x);
    }
  }

  /** Renaming the keys one to one keeps the values. */
  lemma {:induction false} BagRename<K, L, V>(m: map<K, V>, name: map<K, L>, renamed: map<L, V>)
    requires m.Keys <= name.Keys
    requires forall i, j :: i in m && j in m && name[i] == name[j] ==> i == j
    requires forall k :: k in m ==> name[k] in renamed && renamed[name[k]] == m[k]
    requires forall l :: l in renamed ==> exists k :: k in m && name[k] == l
    ensures Bag(renamed) == Bag(m)
    decreases |m|
  {
    if m == map[] {
      assert renamed == map[];
    } else {
      var k :| k in m;
      BagRemove(m, k);
      BagRemove(renamed, name[k]);
      BagRename(m - {k}, name, renamed - {name[k]});
    }
  }

  lemma CopiesKeepContents(source: map<Uuid, Item>, names: Names, t: Uuid, r: Uuid, stamp: Time)
    requires names.Valid() && source.Keys <= names.copy.Keys
    ensures Bag(Contents(Copies(source, names, t, r, stamp))) == Bag(Contents(source))
  {
    BagRename(Contents(source), names.copy, Contents(Copies(source, names, t, r, stamp)));
  }

  /** The tables after a resubmission, for the rows under the new report. */
  lemma InsertedCopies(db: Db, a: Actor, title: string, start: Date, end: Date, source: Uuid, env: Env)
    requires Inv(db) && Fresh(db, env)
    requires ServeCreateReport(db, a, title, start, end, Some(source), env).Ok?
    ensures var db' := ServeCreateReport(db, a, title, start, end, Some(source), env).value.db;
            LiveItems(db'.items, a.tenant, env.newId)
            == Copies(LiveItems(db.items, a.tenant, source), env.names, a.tenant, env.newId, env.stamp)
  {
    CopiesInserted(db, LiveItems(db.items, a.tenant, source), a, source, env);
  }

  lemma CopiesInserted(db: Db, rows: map<Uuid, Item>, a: Actor, source: Uuid, env: Env)
    requires Inv(db) && Fresh(db, env) && CheckReference(db, a, Some(source)).Ok?
    requires rows == LiveItems(db.items, a.tenant, source)
    ensures var copies := Copies(rows, env.names, a.tenant, env.newId, env.stamp);
            LiveItems(db.items + copies, a.tenant, env.newId) == copies
  {
    SourceRows(db, a, Some(source));
    CopyRows(db.items, rows, env.names, a.tenant, env.newId, env.stamp);
    InsertedItemsOk(db.items, Copies(rows, env.names, a.tenant, env.newId, env.stamp), a.tenant, env.newId);
  }

  /**
   In every reachable state, a resubmission that succeeds makes a new draft with the rejected report's item
   contents, its total and no attachments, and leaves the rejected report and everything under it alone.
   */
  lemma ResubmissionCopiesContents(ws: seq<World>, i: nat, a: Actor, title: string, start: Date, end: Date,
                                   source: Uuid, env: Env)
    requires IsRun(ws) && i < |ws| && Authenticated(ws[i].db, a) && Fresh(ws[i].db, env)
    requires ServeCreateReport(ws[i].db, a, title, start, end, Some(source), env).Ok?
    ensures var db := ws[i].db;
            var db' := ServeCreateReport(db, a, title, start, end, Some(source), env).value.db;
            && source in db.reports && env.newId in db'.reports
            && var rejected, draft := db.reports[source], db'.reports[env.newId];
               && rejected.status == Rejected && draft.status == Draft && draft.reference == Some(source)
               && Bag(Contents(LiveItems(db'.items, a.tenant, env.newId)))
                  == Bag(Contents(LiveItems(db.items, a.tenant, source)))
               && draft.total == rejected.total
               && LiveAttachments(db'.attachments, a.tenant, env.newId) == map[]
               && Frozen(db, db', source) && db'.reports[source] == rejected
  {
    Reachable(ws, i);
    var db := ws[i].db;
    var rows := LiveItems(db.items, a.tenant, source);
    assert ReportOk(db, source);
    InsertedCopies(db, a, title, start, end, source, env);
    CopiesKeepContents(rows, env.names, a.tenant, env.newId, env.stamp);
    SourceUntouched(db, a, title, start, end, source, env);
  }

  lemma SourceUntouched(db: Db, a: Actor, title: string, start: Date, end: Date, source: Uuid, env: Env)
    requires Inv(db) && Authenticated(db, a) && Fresh(db, env)
    requires ServeCreateReport(db, a, title, start, end, Some(source), env).Ok?
    ensures var db' := ServeCreateReport(db, a, title, start, end, Some(source), env).value.db;
            && Frozen(db, db', source) && db'.reports[source] == db.reports[source]
            && LiveAttachments(db'.attachments, a.tenant, env.newId) == map[]
  {
    var db' := ServeCreateReport(db, a, title, start, end, Some(source), env).value.db;
    CreateReportKeeps(db, a, title, start, end, Some(source), env);
    UntouchedReport(db, a, db', env.newId, source);
    FrozenItself(db, source);
  }

  /**
   Amounts are validated as positive but stored through int32. A created item carries the amount asked for
   exactly when that amount fits; otherwise it is stored with another one.
   */
  lemma AmountStored(db: Db, a: Actor, r: Uuid, date: Date, amount: int, category: Uuid, description: string, env: Env)
    requires ServeCreateItem(db, a, r, date, amount, category, description, env).Ok?
    ensures var effect := ServeCreateItem(db, a, r, date, amount, category, description, env).value;
            && env.newId in effect.db.items
            && effect.response == ItemRow(env.newId, effect.db.items[env.newId])
            && 0 < effect.db.items[env.newId].amount <= MAX_INT32
            && (effect.db.items[env.newId].amount == amount <==> amount <= MAX_INT32)
  {
    ToInt32Exact(amount);
  }

  /** The same of an update, which goes through the same conversion. */
  lemma AmountUpdated(db: Db, a: Actor, r: Uuid, i: Uuid, date: Date, amount: int, category: Uuid, description: string,
                      version: Time, env: Env)
    requires ServeUpdateItem(db, a, r, i, date, amount, category, description, version, env).Ok?
    ensures var effect := ServeUpdateItem(db, a, r, i, date, amount, category, description, version, env).value;
            && i in effect.db.items
            && effect.response == ItemRow(i, effect.db.items[i])
            && 0 < effect.db.items[i].amount <= MAX_INT32
            && (effect.db.items[i].amount == amount <==> amount <= MAX_INT32)
  {
    ToInt32Exact(amount);
  }

  /** A request for 2^32 + 1 is accepted, and stores 1. */
  lemma AmountMisstored()
    ensures var a := Actor(1, 1, Member);
            var report := NewReport(a, "t", 0, 0, None, 0, 0);
            var db := Db(map[1 := "u"], map[1 := Membership(1, Member)], map[1 := Category(None, true)],
                         map[2 := report], map[], map[]);
            var env := Env(1, 1, 3, Names(map[], map[]), Jpeg);
            var res := ServeCreateItem(db, a, 2, 0, 0x1_0000_0001, 1, "d", env);
            Fresh(db, env) && res.Ok? && res.value.response.ItemRow? && res.value.response.item.amount == 1
  {
    var item := Item(2, 1, 0, 1, 1, "d", 1, 1, None);
    var items := map[3 := item];
    assert ToInt32(0x1_0000_0001) == 1;
    assert LiveItems(items, 1, 2) == items;
    SumRemove(AmountColumn(items), 3);
    assert AmountColumn(items) - {3} == map[];
    assert LiveTotal(items, 1, 2) == 1;
  }
}
