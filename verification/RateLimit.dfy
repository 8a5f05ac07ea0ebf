/**
 The rate-limit store: one token bucket per key, created on first use and evicted in the background.

 A token is worth `window / limit` nanoseconds (integer division). A bucket's credit is kept in
 nanoseconds: it grows with time up to `limit` tokens, and a request costs one token. This is the documented
 behaviour of `x/time/rate` in exact arithmetic.
 */
module RateLimit {

  type Key = string
  type Nanos = int

  datatype Config = Config(limit: nat, window: nat)

  datatype Bucket = Bucket(credit: int, last: Nanos, lastSeen: Nanos)

  /** The price of one request. */
  function Price(c: Config): nat
    requires c.limit > 0
  {
    c.window / c.limit
  }

  function Cap(c: Config): int
    requires c.limit > 0
  {
    c.limit * Price(c)
  }

  /** rate.NewLimiter: a full bucket. */
  function NewBucket(c: Config, now: Nanos): Bucket
    requires c.limit > 0
  {
    Bucket(Cap(c), now, now)
  }

  function Level(c: Config, b: Bucket, now: Nanos): int
    requires c.limit > 0
  {
    var grown := b.credit + (if now > b.last then now - b.last else 0);
    if grown > Cap(c) then Cap(c) else grown
  }

  function Find(c: Config, buckets: map<Key, Bucket>, key: Key, now: Nanos): Bucket
    requires c.limit > 0
  {
    if key in buckets then buckets[key].(lastSeen := now) else NewBucket(c, now)
  }

  /** Allow: take a token if there is a whole one. */
  function Spend(c: Config, b: Bucket, now: Nanos): Bucket
    requires c.limit > 0
  {
    if Level(c, b, now) >= Price(c) then b.(credit := Level(c, b, now) - Price(c), last := now) else b
  }

  function Admits(c: Config, buckets: map<Key, Bucket>, key: Key, now: Nanos): bool
    requires c.limit > 0
  {
    Level(c, Find(c, buckets, key, now), now) >= Price(c)
  }

  function AfterHit(c: Config, buckets: map<Key, Bucket>, key: Key, now: Nanos): map<Key, Bucket>
    requires c.limit > 0
  {
    buckets[key := Spend(c, Find(c, buckets, key, now), now)]
  }

  predicate Stale(b: Bucket, now: Nanos, ttl: int) {
    b.lastSeen < now - ttl
  }

  function AfterCleanup(buckets: map<Key, Bucket>, now: Nanos, ttl: int): map<Key, Bucket> {
    map k | k in buckets && !Stale(buckets[k], now, ttl) :: buckets[k]
  }

  // ----- The store -----

  class Entry {
    var credit: int
    var last: Nanos
    var lastSeen: Nanos

    constructor (b: Bucket)
      ensures Value() == b
    {
      credit, last, lastSeen := b.credit, b.last, b.lastSeen;
    }

    function Value(): Bucket
      reads this
    {
      Bucket(credit, last, lastSeen)
    }

    method Allow(c: Config, now: Nanos) returns (ok: bool)
      requires c.limit > 0
      modifies this
      ensures ok <==> Level(c, old(Value()), now) >= Price(c)
      ensures Value() == Spend(c, old(Value()), now)
    {
      var elapsed := if now > last then now - last else 0;
      var level := credit + elapsed;
      if level > c.limit * Price(c) {
        level := c.limit * Price(c);
      }
      if level < Price(c) {
        return false;
      }
      credit := level - Price(c);
      last := now;
      return true;
    }
  }

  class Store {
    const config: Config
    var entries: map<Key, Entry>

    constructor (c: Config)
      requires c.limit > 0
      ensures Valid() && config == c && Buckets() == map[] && entries == map[]
    {
      config, entries := c, map[];
    }

    /** No two keys share an entry. */
    ghost predicate Valid()
      reads this
    {
      config.limit > 0 && forall i, j :: i in entries && j in entries && i != j ==> entries[i] != entries[j]
    }

    ghost function Buckets(): map<Key, Bucket>
      reads this, entries.Values
    {
      map k | k in entries :: entries[k].Value()
    }

    /** LoadOrStore, then the access time. */
    method Get(key: Key, now: Nanos) returns (entry: Entry)
      requires Valid()
      modifies this, entries.Values
      ensures Valid() && key in entries && entries[key] == entry
      ensures forall k :: k in entries ==> k == key || (k in old(entries) && entries[k] == old(entries[k]))
      ensures fresh(entry) || (key in old(entries) && entry == old(entries[key]))
      ensures Buckets() == old(Buckets())[key := Find(config, old(Buckets()), key, now)]
    {
      if key !in entries {
        var created := new Entry(NewBucket(config, now));
        entries := entries[key := created];
      }
      entry := entries[key];
      entry.lastSeen := now;
    }

    /** A request of `key`: admitted or answered with 429. */
    method Hit(key: Key, now: Nanos) returns (admitted: bool)
      requires Valid()
      modifies this, entries.Values
      ensures Valid()
      ensures admitted == Admits(config, old(Buckets()), key, now)
      ensures Buckets() == AfterHit(config, old(Buckets()), key, now)
    {
      var entry := Get(key, now);
      assert entry.Value() == Buckets()[key];
      admitted := entry.Allow(config, now);
    }

    /** Range over the entries, deleting those last seen before the cutoff. */
    method Cleanup(now: Nanos, ttl: int)
      requires Valid()
      modifies this
      ensures Valid()
      ensures Buckets() == AfterCleanup(old(Buckets()), now, ttl)
      ensures forall k :: k in entries <==> k in old(entries) && old(entries[k].lastSeen) >= now - ttl
      ensures forall k :: k in entries ==> entries[k] == old(entries[k])
    {
      var cutoff := now - ttl;
      ghost var was := entries;
      var left := entries.Keys;
      while left != {}
        invariant left <= was.Keys
        invariant forall k :: k in entries <==> k in was && (k in left || !(was[k].lastSeen < cutoff))
        invariant forall k :: k in entries ==> entries[k] == was[k]
      {
        var k :| k in left;
        left := left - {k};
        if entries[k].lastSeen < cutoff {
          entries := entries - {k};
        }
      }
    }
  }

  // ----- Schedules -----

  datatype Op = Request(key: Key, at: Nanos) | Tick(at: Nanos)

  /** Requests and cleanup ticks in the order of their times, none before `start`. */
  predicate Ordered(ops: seq<Op>, start: Nanos) {
    ops != [] ==> start <= ops[0].at && Ordered(ops[1..], ops[0].at)
  }

  /** One operation; ticks evict only where `evicting`. */
  function AfterOp(c: Config, buckets: map<Key, Bucket>, op: Op, evicting: bool): map<Key, Bucket>
    requires c.limit > 0
  {
    match op
    case Request(key, at) => AfterHit(c, buckets, key, at)
    case Tick(at) => if evicting then AfterCleanup(buckets, at, 2 * c.window) else buckets
  }

  /** The decisions on the requests of a schedule, in order. */
  function Decisions(c: Config, buckets: map<Key, Bucket>, ops: seq<Op>, evicting: bool): seq<bool>
    requires c.limit > 0
    decreases |ops|
  {
    if ops == [] then []
    else
      (if ops[0].Request? then [Admits(c, buckets, ops[0].key, ops[0].at)] else [])
      + Decisions(c, AfterOp(c, buckets, ops[0], evicting), ops[1..], evicting)
  }

  // ----- Eviction is invisible -----

  predicate BucketOk(c: Config, b: Bucket, now: Nanos)
    requires c.limit > 0
  {
    0 <= b.credit <= Cap(c) && b.last <= b.lastSeen <= now
  }

  /** The evicting store holds the same buckets, except for some that are full. */
  predicate Agree(c: Config, some: map<Key, Bucket>, all: map<Key, Bucket>, now: Nanos)
    requires c.limit > 0
  {
    && (forall k :: k in some ==> k in all && some[k] == all[k])
    && (forall k :: k in all ==> BucketOk(c, all[k], now) && (k !in some ==> Level(c, all[k], now) == Cap(c)))
  }

  lemma CapFitsWindow(c: Config)
    requires c.limit > 0
    ensures Price(c) <= Cap(c) <= c.window
  {
    assert c.window == c.limit * (c.window / c.limit) + c.window % c.limit;
    Product(c.limit, Price(c));
  }

  lemma Product(a: nat, b: nat)
    requires a > 0
    ensures b <= a * b
  {
    assert a * b == b + (a - 1) * b;
  }

  /** A full bucket stays full, and levels never fall with time. */
  lemma LevelGrows(c: Config, b: Bucket, now: Nanos, later: Nanos)
    requires c.limit > 0 && now <= later
    ensures Level(c, b, now) <= Level(c, b, later) <= Cap(c)
    ensures b.last <= now ==> Level(c, b, later) <= Level(c, b, now) + (later - now)
  {
  }

  lemma AgreeLater(c: Config, some: map<Key, Bucket>, all: map<Key, Bucket>, now: Nanos, later: Nanos)
    requires c.limit > 0 && now <= later && Agree(c, some, all, now)
    ensures Agree(c, some, all, later)
  {
    forall k | k in all && k !in some ensures Level(c, all[k], later) == Cap(c) {
      LevelGrows(c, all[k], now, later);
    }
  }

  lemma SpendKeepsOk(c: Config, b: Bucket, now: Nanos)
    requires c.limit > 0 && BucketOk(c, b, now)
    ensures BucketOk(c, Spend(c, b.(lastSeen := now), now), now)
  {
  }

  lemma HitAgrees(c: Config, some: map<Key, Bucket>, all: map<Key, Bucket>, key: Key, now: Nanos)
    requires c.limit > 0 && Agree(c, some, all, now)
    ensures Admits(c, some, key, now) == Admits(c, all, key, now)
    ensures Agree(c, AfterHit(c, some, key, now), AfterHit(c, all, key, now), now)
  {
    CapFitsWindow(c);
    SpendKeepsOk(c, Find(c, all, key, now), now);
    assert Spend(c, Find(c, some, key, now), now) == Spend(c, Find(c, all, key, now), now);
  }

  lemma CleanupAgrees(c: Config, some: map<Key, Bucket>, all: map<Key, Bucket>, now: Nanos)
    requires c.limit > 0 && Agree(c, some, all, now)
    ensures Agree(c, AfterCleanup(some, now, 2 * c.window), all, now)
  {
    CapFitsWindow(c);
  }

  lemma {:induction false} EvictionFrom(c: Config, some: map<Key, Bucket>, all: map<Key, Bucket>, ops: seq<Op>,
                                        now: Nanos)
    requires c.limit > 0 && Ordered(ops, now) && Agree(c, some, all, now)
    ensures Decisions(c, some, ops, true) == Decisions(c, all, ops, false)
    decreases |ops|
  {
    if ops != [] {
      var at := ops[0].at;
      AgreeLater(c, some, all, now, at);
      match ops[0] {
        case Request(key, _) => HitAgrees(c, some, all, key, at);
        case Tick(_) => CleanupAgrees(c, some, all, at);
      }
      EvictionFrom(c, AfterOp(c, some, ops[0], true), AfterOp(c, all, ops[0], false), ops[1..], at);
    }
  }

  /**
   Eviction is invisible: on every schedule of requests and cleanup ticks the store admits and denies exactly
   the requests that a store which never evicts would.
   */
  lemma EvictionIsInvisible(c: Config, ops: seq<Op>, start: Nanos)
    requires c.limit > 0 && Ordered(ops, start)
    ensures Decisions(c, map[], ops, true) == Decisions(c, map[], ops, false)
  {
    EvictionFrom(c, map[], map[], ops, start);
  }

  // ----- How many requests are admitted -----

  function State(c: Config, buckets: map<Key, Bucket>, ops: seq<Op>): map<Key, Bucket>
    requires c.limit > 0
    decreases |ops|
  {
    if ops == [] then buckets else State(c, AfterOp(c, buckets, ops[0], true), ops[1..])
  }

  /** How many requests of one key a schedule admits. */
  function Admitted(c: Config, buckets: map<Key, Bucket>, ops: seq<Op>, key: Key): nat
    requires c.limit > 0
    decreases |ops|
  {
    if ops == [] then 0
    else
      (if ops[0] == Request(key, ops[0].at) && Admits(c, buckets, key, ops[0].at) then 1 else 0)
      + Admitted(c, AfterOp(c, buckets, ops[0], true), ops[1..], key)
  }

  predicate StoreOk(c: Config, buckets: map<Key, Bucket>, now: Nanos)
    requires c.limit > 0
  {
    forall k :: k in buckets ==> BucketOk(c, buckets[k], now)
  }

  /** What the key could spend at once: its level, or a full bucket if it has none. */
  function Potential(c: Config, buckets: map<Key, Bucket>, key: Key, now: Nanos): int
    requires c.limit > 0
  {
    if key in buckets then Level(c, buckets[key], now) else Cap(c)
  }

  lemma PotentialGrows(c: Config, buckets: map<Key, Bucket>, key: Key, now: Nanos, later: Nanos)
    requires c.limit > 0 && now <= later && StoreOk(c, buckets, now)
    ensures StoreOk(c, buckets, later) && 0 <= Potential(c, buckets, key, later) <= Cap(c)
    ensures Potential(c, buckets, key, later) <= Potential(c, buckets, key, now) + (later - now)
  {
  }

  /** One operation: an admission is paid for out of the key's potential, an eviction leaves it as it was. */
  lemma OpPaysPotential(c: Config, buckets: map<Key, Bucket>, op: Op, key: Key)
    requires c.limit > 0 && StoreOk(c, buckets, op.at)
    ensures var buckets' := AfterOp(c, buckets, op, true);
            && StoreOk(c, buckets', op.at)
            && Potential(c, buckets', key, op.at)
               == Potential(c, buckets, key, op.at)
                  - (if op == Request(key, op.at) && Admits(c, buckets, key, op.at) then Price(c) else 0)
  {
    CapFitsWindow(c);
    match op
    case Request(k, at) => SpendKeepsOk(c, Find(c, buckets, k, at), at);
    case Tick(at) =>
  }

  lemma OneMore(n: nat, price: nat)
    ensures (1 + n) * price == n * price + price
  {
  }

  lemma {:induction false} AdmissionsArePaid(c: Config, buckets: map<Key, Bucket>, ops: seq<Op>, key: Key, now: Nanos,
                                             end: Nanos)
    requires c.limit > 0 && StoreOk(c, buckets, now) && Ordered(ops, now)
    requires now <= end && forall i :: 0 <= i < |ops| ==> ops[i].at <= end
    ensures Admitted(c, buckets, ops, key) * Price(c) <= Potential(c, buckets, key, now) + (end - now)
    decreases |ops|
  {
    if ops == [] {
      PotentialGrows(c, buckets, key, now, now);
    } else {
      var at := ops[0].at;
      var buckets' := AfterOp(c, buckets, ops[0], true);
      PotentialGrows(c, buckets, key, now, at);
      OpPaysPotential(c, buckets, ops[0], key);
      AdmissionsArePaid(c, buckets', ops[1..], key, at, end);
      OneMore(Admitted(c, buckets', ops[1..], key), Price(c));
    }
  }

  lemma {:induction false} StateOk(c: Config, buckets: map<Key, Bucket>, ops: seq<Op>, now: Nanos, end: Nanos)
    requires c.limit > 0 && StoreOk(c, buckets, now) && Ordered(ops, now)
    requires now <= end && forall i :: 0 <= i < |ops| ==> ops[i].at <= end
    ensures StoreOk(c, State(c, buckets, ops), end)
    decreases |ops|
  {
    if ops != [] {
      PotentialGrows(c, buckets, "", now, ops[0].at);
      OpPaysPotential(c, buckets, ops[0], "");
      StateOk(c, AfterOp(c, buckets, ops[0], true), ops[1..], ops[0].at, end);
    }
  }

  lemma MulMonotone(a: int, b: int, p: nat)
    requires a <= b
    ensures a * p <= b * p
  {
  }

  lemma Cancel(a: int, b: int, p: nat)
    requires a * p < b * p
    ensures a < b
  {
    if b <= a {
      MulMonotone(b, a, p);
      assert false;
    }
  }

  lemma AtMost(count: nat, limit: nat, price: nat, span: nat)
    requires price > 0 && count * price <= limit * price + span
    ensures count <= limit + span / price
  {
    var q := span / price;
    assert span == q * price + span % price;
    assert (limit + q + 1) * price == limit * price + q * price + price;
    Cancel(count, limit + q + 1, price);
  }

  lemma AtLeast(n: nat, price: nat, span: nat)
    requires price > 0 && n * price <= span
    ensures n <= span / price
  {
    var q := span / price;
    assert span == q * price + span % price;
    assert (q + 1) * price == q * price + price;
    Cancel(n, q + 1, price);
  }

  /**
   Whatever happened before, and evictions included, at most limit + T / (window / limit) requests of a key
   are admitted within any interval of length T.
   */
  lemma AdmissionBound(c: Config, before: seq<Op>, during: seq<Op>, key: Key, origin: Nanos, start: Nanos, end: Nanos)
    requires 0 < c.limit <= c.window
    requires origin <= start <= end && Ordered(before, origin) && Ordered(during, start)
    requires forall i :: 0 <= i < |before| ==> before[i].at <= start
    requires forall i :: 0 <= i < |during| ==> during[i].at <= end
    ensures Admitted(c, State(c, map[], before), during, key) <= c.limit + (end - start) / (c.window / c.limit)
  {
    AtLeast(1, c.limit, c.window);
    StateOk(c, map[], before, origin, start);
    var buckets := State(c, map[], before);
    AdmissionsArePaid(c, buckets, during, key, start, end);
    PotentialGrows(c, buckets, key, start, start);
    AtMost(Admitted(c, buckets, during, key), c.limit, Price(c), end - start);
  }

  // ----- The bound is reached -----

  function Burst(key: Key, n: nat): seq<Op> {
    if n == 0 then [] else [Request(key, 0)] + Burst(key, n - 1)
  }

  /** One request per price, the first at time `from * price`. */
  function Paced(key: Key, price: nat, from: nat, n: nat): seq<Op>
    decreases n
  {
    if n == 0 then [] else [Request(key, from * price)] + Paced(key, price, from + 1, n - 1)
  }

  lemma {:induction false} PacedIsOrdered(key: Key, price: nat, from: nat, n: nat, start: Nanos)
    requires start <= from * price
    ensures Ordered(Paced(key, price, from, n), start)
    ensures |Paced(key, price, from, n)| == n
    ensures forall i :: 0 <= i < n ==> Paced(key, price, from, n)[i].at == (from + i) * price
    decreases n
  {
    if n > 0 {
      assert (from + 1) * price == from * price + price;
      PacedIsOrdered(key, price, from + 1, n - 1, from * price);
      var ops, rest := Paced(key, price, from, n), Paced(key, price, from + 1, n - 1);
      forall i | 0 <= i < n ensures |ops| == n && ops[i].at == (from + i) * price {
        if i > 0 { assert ops[i] == rest[i - 1] && from + i == from + 1 + (i - 1); }
      }
    }
  }

  lemma {:induction false} PacedAdmitsAll(c: Config, buckets: map<Key, Bucket>, key: Key, from: nat, n: nat)
    requires c.limit > 0 && Price(c) > 0 && from > 0
    requires key in buckets && buckets[key].credit == 0 && buckets[key].last == (from - 1) * Price(c)
    ensures Admitted(c, buckets, Paced(key, Price(c), from, n), key) == n
    decreases n
  {
    if n > 0 {
      CapFitsWindow(c);
      var at := from * Price(c);
      assert at == (from - 1) * Price(c) + Price(c);
      var buckets' := AfterHit(c, buckets, key, at);
      assert buckets'[key].credit == 0 && buckets'[key].last == at;
      PacedAdmitsAll(c, buckets', key, from + 1, n - 1);
      var ops := Paced(key, Price(c), from, n);
      assert ops[0] == Request(key, at) && ops[1..] == Paced(key, Price(c), from + 1, n - 1);
    }
  }

  lemma {:induction false} BurstAdmitsAll(c: Config, buckets: map<Key, Bucket>, key: Key, n: nat, m: nat)
    requires c.limit > 0 && Price(c) > 0
    requires key in buckets && buckets[key].credit == n * Price(c) <= Cap(c) && buckets[key].last == 0
    ensures Admitted(c, buckets, Burst(key, n) + Paced(key, Price(c), 1, m), key) == n + m
    decreases n
  {
    var ops := Burst(key, n) + Paced(key, Price(c), 1, m);
    if n == 0 {
      assert ops == Paced(key, Price(c), 1, m);
      PacedAdmitsAll(c, buckets, key, 1, m);
    } else {
      assert n * Price(c) == (n - 1) * Price(c) + Price(c);
      assert ops[0] == Request(key, 0) && ops[1..] == Burst(key, n - 1) + Paced(key, Price(c), 1, m);
      BurstAdmitsAll(c, AfterHit(c, buckets, key, 0), key, n - 1, m);
    }
  }

  lemma {:induction false} BurstThenIsOrdered(key: Key, n: nat, tail: seq<Op>, end: Nanos)
    requires Ordered(tail, 0) && 0 <= end && forall i :: 0 <= i < |tail| ==> tail[i].at <= end
    ensures var ops := Burst(key, n) + tail;
            Ordered(ops, 0) && forall i :: 0 <= i < |ops| ==> ops[i].at <= end
    decreases n
  {
    var ops := Burst(key, n) + tail;
    if n == 0 {
      assert ops == tail;
    } else {
      BurstThenIsOrdered(key, n - 1, tail, end);
      assert ops[0] == Request(key, 0) && ops[1..] == Burst(key, n - 1) + tail;
    }
  }

  lemma PacedWithin(key: Key, price: nat, m: nat, span: nat)
    requires m * price <= span
    ensures Ordered(Paced(key, price, 1, m), 0)
    ensures forall i :: 0 <= i < |Paced(key, price, 1, m)| ==> Paced(key, price, 1, m)[i].at <= span
  {
    PacedIsOrdered(key, price, 1, m, 0);
    var ops := Paced(key, price, 1, m);
    forall i | 0 <= i < |ops| ensures ops[i].at <= span {
      if m > 0 { MulMonotone(1 + i, m, price); }
    }
  }

  /** A full burst and then `m` paced requests, all admitted by a new store. */
  lemma BurstThenPaced(c: Config, key: Key, m: nat)
    requires c.limit > 0 && Price(c) > 0
    ensures Admitted(c, map[], Burst(key, c.limit) + Paced(key, Price(c), 1, m), key) == c.limit + m
  {
    var rest := Burst(key, c.limit - 1) + Paced(key, Price(c), 1, m);
    var ops := Burst(key, c.limit) + Paced(key, Price(c), 1, m);
    assert ops[0] == Request(key, 0) && ops[1..] == rest;
    CapFitsWindow(c);
    assert c.limit * Price(c) == (c.limit - 1) * Price(c) + Price(c);
    BurstAdmitsAll(c, AfterHit(c, map[], key, 0), key, c.limit - 1, m);
  }

  /**
   The bound is attained, by a burst and then one request per price. In particular one window's length admits
   at least twice the limit, although the limit is documented as requests per window.
   */
  lemma BoundIsAttained(c: Config, key: Key, span: nat)
    requires 0 < c.limit <= c.window
    ensures exists ops: seq<Op> :: Ordered(ops, 0) && (forall i :: 0 <= i < |ops| ==> ops[i].at <= span)
                          && Admitted(c, map[], ops, key) == c.limit + span / (c.window / c.limit)
    ensures c.limit + c.window / (c.window / c.limit) >= 2 * c.limit
  {
    AtLeast(1, c.limit, c.window);
    var m := span / Price(c);
    var paced := Paced(key, Price(c), 1, m);
    assert m * Price(c) <= span by { assert span == m * Price(c) + span % Price(c); }
    PacedWithin(key, Price(c), m, span);
    BurstThenIsOrdered(key, c.limit, paced, span);
    BurstThenPaced(c, key, m);
    CapFitsWindow(c);
    AtLeast(c.limit, Price(c), c.window);
  }

  // ----- Exactly which requests are admitted -----

  /** The times at which a schedule admits requests of the key. */
  function AdmittedTimes(c: Config, buckets: map<Key, Bucket>, ops: seq<Op>, key: Key): seq<Nanos>
    requires c.limit > 0
    decreases |ops|
  {
    if ops == [] then []
    else
      AdmittedBy(c, buckets, ops[0], key) + AdmittedTimes(c, AfterOp(c, buckets, ops[0], true), ops[1..], key)
  }

  /** The level of a bucket at time t that has admitted requests at the given times and none since. */
  function LevelFrom(c: Config, times: seq<Nanos>, t: Nanos): int
    requires c.limit > 0
  {
    if times == [] then Cap(c)
    else
      var last := |times| - 1;
      Lower(Cap(c), LevelFrom(c, times[..last], times[last]) - Price(c) + (t - times[last]))
  }

  function Lower(a: int, b: int): int {
    if a < b then a else b
  }

  lemma LevelFromGrows(c: Config, times: seq<Nanos>, now: Nanos, later: Nanos)
    requires c.limit > 0 && now <= later
    ensures LevelFrom(c, times, later) == Lower(Cap(c), LevelFrom(c, times, now) + (later - now))
  {
  }

  lemma LevelFromAdmits(c: Config, times: seq<Nanos>, at: Nanos)
    requires c.limit > 0
    ensures LevelFrom(c, times + [at], at) == LevelFrom(c, times, at) - Price(c)
  {
    assert (times + [at])[..|times|] == times;
    CapFitsWindow(c);
  }

  lemma PotentialGrowsTo(c: Config, buckets: map<Key, Bucket>, key: Key, now: Nanos, later: Nanos)
    requires c.limit > 0 && now <= later && StoreOk(c, buckets, now)
    ensures Potential(c, buckets, key, later) == Lower(Cap(c), Potential(c, buckets, key, now) + (later - now))
  {
  }

  /** The times at which one operation admits a request of the key. */
  function AdmittedBy(c: Config, buckets: map<Key, Bucket>, op: Op, key: Key): seq<Nanos>
    requires c.limit > 0
  {
    if op == Request(key, op.at) && Admits(c, buckets, key, op.at) then [op.at] else []
  }

  lemma OpKeepsLevel(c: Config, buckets: map<Key, Bucket>, op: Op, key: Key, times: seq<Nanos>, now: Nanos)
    requires c.limit > 0 && StoreOk(c, buckets, now) && now <= op.at
    requires Potential(c, buckets, key, now) == LevelFrom(c, times, now)
    ensures StoreOk(c, AfterOp(c, buckets, op, true), op.at)
    ensures Potential(c, AfterOp(c, buckets, op, true), key, op.at)
         == LevelFrom(c, times + AdmittedBy(c, buckets, op, key), op.at)
  {
    PotentialGrows(c, buckets, key, now, op.at);
    PotentialGrowsTo(c, buckets, key, now, op.at);
    LevelFromGrows(c, times, now, op.at);
    OpPaysPotential(c, buckets, op, key);
    LevelFromAdmits(c, times, op.at);
    assert times + [] == times;
  }

  /** The store knows of its past what the admitted times tell, evictions or not. */
  lemma {:induction false} PotentialIsLevel(c: Config, buckets: map<Key, Bucket>, ops: seq<Op>, key: Key,
                                            times: seq<Nanos>, now: Nanos, end: Nanos)
    requires c.limit > 0 && StoreOk(c, buckets, now) && Ordered(ops, now)
    requires now <= end && forall i :: 0 <= i < |ops| ==> ops[i].at <= end
    requires Potential(c, buckets, key, now) == LevelFrom(c, times, now)
    ensures Potential(c, State(c, buckets, ops), key, end)
         == LevelFrom(c, times + AdmittedTimes(c, buckets, ops, key), end)
    decreases |ops|
  {
    if ops == [] {
      PotentialGrowsTo(c, buckets, key, now, end);
      LevelFromGrows(c, times, now, end);
      assert times + [] == times;
    } else {
      OpKeepsLevel(c, buckets, ops[0], key, times, now);
      var buckets', admitted := AfterOp(c, buckets, ops[0], true), AdmittedBy(c, buckets, ops[0], key);
      PotentialIsLevel(c, buckets', ops[1..], key, times + admitted, ops[0].at, end);
      assert (times + admitted) + AdmittedTimes(c, buckets', ops[1..], key)
          == times + (admitted + AdmittedTimes(c, buckets', ops[1..], key));
    }
  }

  /** A level suffices exactly when no interval since an admission has been charged too much. */
  lemma {:induction false} LevelSuffices(c: Config, times: seq<Nanos>, t: Nanos, x: int)
    requires c.limit > 0
    ensures LevelFrom(c, times, t) >= x <==>
            x <= Cap(c)
            && forall j :: 0 <= j < |times| ==> (|times| - j) * Price(c) + x <= Cap(c) + (t - times[j])
  {
    if times != [] {
      var last := |times| - 1;
      var y := x + Price(c) - (t - times[last]);
      LevelSuffices(c, times[..last], times[last], y);
      forall j | 0 <= j < last
        ensures (|times| - j) * Price(c) + x <= Cap(c) + (t - times[j]) <==>
                (last - j) * Price(c) + y <= Cap(c) + (times[last] - times[..last][j])
      {
        OneMore(last - j, Price(c));
        assert |times| - j == 1 + (last - j);
      }
      assert (|times| - last) * Price(c) == Price(c);
    }
  }

  lemma Affordable(n: nat, limit: nat, price: nat, span: int)
    requires price > 0 && span >= 0
    ensures n * price + price <= limit * price + span <==> n + 1 <= limit + span / price
  {
    var q := span / price;
    OneMore(n, price);
    if n * price + price <= limit * price + span {
      AtMost(n + 1, limit, price, span);
    }
    if n + 1 <= limit + q {
      MulMonotone(n + 1, limit + q, price);
      assert (limit + q) * price == limit * price + q * price;
      assert span == q * price + span % price;
    }
  }

  lemma {:induction false} TimesBefore(c: Config, buckets: map<Key, Bucket>, ops: seq<Op>, key: Key, end: Nanos)
    requires c.limit > 0 && forall i :: 0 <= i < |ops| ==> ops[i].at <= end
    ensures forall j :: 0 <= j < |AdmittedTimes(c, buckets, ops, key)| ==> AdmittedTimes(c, buckets, ops, key)[j] <= end
    decreases |ops|
  {
    if ops != [] {
      TimesBefore(c, AfterOp(c, buckets, ops[0], true), ops[1..], key, end);
    }
  }

  /**
   A request is admitted exactly when the bound allows it: counted with all requests of its key admitted since
   any earlier one, it makes no more than limit + T / (window / limit) for the time T since that one.
   */
  lemma AdmittedIffBoundAllows(c: Config, before: seq<Op>, key: Key, origin: Nanos, now: Nanos)
    requires 0 < c.limit <= c.window
    requires origin <= now && Ordered(before, origin) && forall i :: 0 <= i < |before| ==> before[i].at <= now
    ensures var times := AdmittedTimes(c, map[], before, key);
            Admits(c, State(c, map[], before), key, now) <==>
            forall j :: 0 <= j < |times| ==> |times| - j + 1 <= c.limit + (now - times[j]) / (c.window / c.limit)
  {
    var times := AdmittedTimes(c, map[], before, key);
    AdmitsIfLevel(c, before, key, origin, now);
    AtLeast(1, c.limit, c.window);
    TimesBefore(c, map[], before, key, now);
    LevelIffCounts(c, times, now);
  }

  lemma AdmitsIfPotential(c: Config, buckets: map<Key, Bucket>, key: Key, now: Nanos)
    requires c.limit > 0
    ensures Admits(c, buckets, key, now) <==> Potential(c, buckets, key, now) >= Price(c)
  {
    CapFitsWindow(c);
  }

  lemma AdmitsIfLevel(c: Config, before: seq<Op>, key: Key, origin: Nanos, now: Nanos)
    requires c.limit > 0
    requires origin <= now && Ordered(before, origin) && forall i :: 0 <= i < |before| ==> before[i].at <= now
    ensures Admits(c, State(c, map[], before), key, now) <==>
            LevelFrom(c, AdmittedTimes(c, map[], before, key), now) >= Price(c)
  {
    var times := AdmittedTimes(c, map[], before, key);
    PotentialIsLevel(c, map[], before, key, [], origin, now);
    assert [] + times == times;
    AdmitsIfPotential(c, State(c, map[], before), key, now);
  }

  lemma LevelIffCounts(c: Config, times: seq<Nanos>, now: Nanos)
    requires c.limit > 0 && Price(c) > 0 && forall j :: 0 <= j < |times| ==> times[j] <= now
    ensures LevelFrom(c, times, now) >= Price(c) <==>
            forall j :: 0 <= j < |times| ==> |times| - j + 1 <= c.limit + (now - times[j]) / Price(c)
  {
    CapFitsWindow(c);
    LevelSuffices(c, times, now, Price(c));
    forall j | 0 <= j < |times|
      ensures (|times| - j) * Price(c) + Price(c) <= Cap(c) + (now - times[j]) <==>
              |times| - j + 1 <= c.limit + (now - times[j]) / Price(c)
    {
      Affordable(|times| - j, c.limit, Price(c), now - times[j]);
    }
  }

  /** With more requests to a window than it has nanoseconds, every request is admitted. */
  lemma FreeRequestsAreAdmitted(c: Config, before: seq<Op>, key: Key, origin: Nanos, now: Nanos)
    requires c.limit > c.window
    requires origin <= now && Ordered(before, origin) && forall i :: 0 <= i < |before| ==> before[i].at <= now
    ensures Admits(c, State(c, map[], before), key, now)
  {
    NoPrice(c);
    StateOk(c, map[], before, origin, now);
    PotentialGrows(c, State(c, map[], before), key, now, now);
  }

  lemma NoPrice(c: Config)
    requires c.limit > c.window
    ensures Price(c) == 0
  {
    assert c.window == Price(c) * c.limit + c.window % c.limit;
    Cancel(Price(c), 1, c.limit);
  }

  /** A tick leaves the keys seen within the last two windows, with their buckets. */
  lemma TickEvictsIdle(c: Config, buckets: map<Key, Bucket>, at: Nanos)
    requires c.limit > 0
    ensures var left := AfterOp(c, buckets, Tick(at), true);
            && (forall k :: k in left <==> k in buckets && buckets[k].lastSeen >= at - 2 * c.window)
            && (forall k :: k in left ==> left[k] == buckets[k])
  {
  }
}
