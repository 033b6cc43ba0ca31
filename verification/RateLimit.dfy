/** The fixed-window rate limiters: in memory with pruning
    (packages/security/src/rate-limit.ts) and as one SQL upsert
    (packages/persistence/src/rate-limit-store.ts). Times are integer milliseconds. */
module RateLimit {
  import opened Basics

  datatype Bucket = Bucket(count: nat, resetAt: int)

  datatype Decision = Decision(allowed: bool, limit: nat, remaining: nat, resetAt: int)

  datatype Request = Request(key: string, now: int)

  datatype Failure = KeyRequired | InvalidBucket

  type Buckets = map<string, Bucket>

  predicate ValidConfiguration(limit: int, windowMs: int) {
    limit >= 1 && windowMs >= 1000
  }

  function Lookup<K(==), V>(m: map<K, V>, k: K): Option<V> {
    if k in m then Some(m[k]) else None
  }

  // ----- one request

  /** The bucket after one more request: a fresh window once the old one is over. */
  function Touch(b: Option<Bucket>, now: int, windowMs: int): Bucket {
    if b.None? || b.value.resetAt <= now
    then Bucket(1, now + windowMs)
    else Bucket(b.value.count + 1, b.value.resetAt)
  }

  function Decide(b: Bucket, limit: nat): Decision {
    Decision(b.count <= limit, limit, if b.count <= limit then limit - b.count else 0, b.resetAt)
  }

  /** The buckets whose window is still open. */
  ghost function Live(b: Buckets, now: int): Buckets {
    map k | k in b && b[k].resetAt > now :: b[k]
  }

  class InMemoryRateLimiter {
    const limit: nat
    const windowMs: nat
    var buckets: Buckets
    var operations: nat

    constructor (limit: int, windowMs: int)
      requires ValidConfiguration(limit, windowMs)
      ensures this.limit == limit && this.windowMs == windowMs
      ensures buckets == map[] && operations == 0
    {
      this.limit, this.windowMs := limit, windowMs;
      buckets, operations := map[], 0;
    }

    method Consume(key: string, now: int) returns (d: Decision)
      modifies this
      ensures operations == old(operations) + 1
      ensures buckets == PrunedStep(old(buckets), old(operations), Request(key, now), windowMs)
      ensures d == Decide(buckets[key], limit)
    {
      operations := operations + 1;
      if operations % 100 == 0 {
        Prune(now);
      }
      var current := Lookup(buckets, key);
      var bucket := if current.None? || current.value.resetAt <= now
                    then Bucket(0, now + windowMs) else current.value;
      bucket := bucket.(count := bucket.count + 1);
      buckets := buckets[key := bucket];
      d := Decision(bucket.count <= limit, limit,
                    if limit - bucket.count > 0 then limit - bucket.count else 0, bucket.resetAt);
    }

    method Prune(now: int)
      modifies this`buckets
      ensures buckets == Live(old(buckets), now)
    {
      ghost var before := buckets;
      var rest := buckets.Keys;
      while rest != {}
        invariant rest <= buckets.Keys <= before.Keys
        invariant forall k :: k in buckets ==> buckets[k] == before[k]
        invariant forall k :: k in before && k !in rest ==> (k in buckets <==> before[k].resetAt > now)
        decreases rest
      {
        var key :| key in rest;
        rest := rest - {key};
        if buckets[key].resetAt <= now {
          buckets := buckets - {key};
        }
      }
    }
  }

  datatype Row = Row(count: nat, resetAt: int, updatedAt: int)

  ghost predicate Injective(hash: string -> string) {
    forall a, b :: hash(a) == hash(b) ==> a == b
  }

  /** The database table behind the shared limiter; `hash` is SHA-256 in hexadecimal. */
  class BucketTable {
    const namespace: string
    const hash: string -> string
    var rows: map<string, Row>

    constructor (namespace: string, hash: string -> string)
      ensures this.namespace == namespace && this.hash == hash && rows == map[]
    {
      this.namespace, this.hash := namespace, hash;
      rows := map[];
    }

    function RowKey(key: string): string {
      hash(namespace + ":" + key)
    }

    /** INSERT ... ON CONFLICT DO UPDATE ... RETURNING count, reset_at */
    method Increment(key: string, now: int, resetAt: int) returns (b: Bucket)
      modifies this`rows
      ensures RowKey(key) in rows
      ensures rows == old(rows)[RowKey(key) := Upsert(Lookup(old(rows), RowKey(key)), now, resetAt)]
      ensures b == Bucket(rows[RowKey(key)].count, rows[RowKey(key)].resetAt)
    {
      var rowKey := RowKey(key);
      if rowKey !in rows {
        rows := rows[rowKey := Row(1, resetAt, now)];
      } else {
        var row := rows[rowKey];
        rows := rows[rowKey := Row(
                       if row.resetAt <= now then 1 else row.count + 1,
                       if row.resetAt <= now then resetAt else row.resetAt,
                       now)];
      }
      b := Bucket(rows[rowKey].count, rows[rowKey].resetAt);
    }
  }

  ghost function Upsert(row: Option<Row>, now: int, resetAt: int): Row {
    if row.None? || row.value.resetAt <= now then Row(1, resetAt, now)
    else Row(row.value.count + 1, row.value.resetAt, now)
  }

  class SharedRateLimiter {
    const limit: nat
    const windowMs: nat
    const store: BucketTable

    constructor (limit: int, windowMs: int, store: BucketTable)
      requires ValidConfiguration(limit, windowMs)
      ensures this.limit == limit && this.windowMs == windowMs && this.store == store
    {
      this.limit, this.windowMs, this.store := limit, windowMs, store;
    }

    /** The check for an invalid bucket never fires on this store. */
    method Consume(key: string, now: int) returns (r: Result<Decision, Failure>)
      requires ValidConfiguration(limit, windowMs)
      modifies store
      ensures key == "" ==> r == Err(KeyRequired) && store.rows == old(store.rows)
      ensures key != "" ==>
                && store.rows == SqlStep(old(store.rows), store.RowKey(key), now, windowMs)
                && r == Ok(Decide(Touch(RowBucket(old(store.rows), store.RowKey(key)), now, windowMs), limit))
    {
      if key == "" {
        return Err(KeyRequired);
      }
      var bucket := store.Increment(key, now, now + windowMs);
      if bucket.count < 1 || bucket.resetAt <= now {
        return Err(InvalidBucket);
      }
      return Ok(Decision(bucket.count <= limit, limit,
                         if limit - bucket.count > 0 then limit - bucket.count else 0, bucket.resetAt));
    }
  }

  ghost function RowBucket(rows: map<string, Row>, rowKey: string): Option<Bucket> {
    if rowKey in rows then Some(Bucket(rows[rowKey].count, rows[rowKey].resetAt)) else None
  }

  // ----- request sequences

  ghost function Step(b: Buckets, req: Request, windowMs: int): Buckets {
    b[req.key := Touch(Lookup(b, req.key), req.now, windowMs)]
  }

  ghost function PrunedStep(b: Buckets, operations: nat, req: Request, windowMs: int): Buckets {
    Step(if (operations + 1) % 100 == 0 then Live(b, req.now) else b, req, windowMs)
  }

  ghost function SqlStep(rows: map<string, Row>, rowKey: string, now: int, windowMs: int): map<string, Row> {
    rows[rowKey := Upsert(Lookup(rows, rowKey), now, now + windowMs)]
  }

  /** The decisions of a limiter that never prunes. */
  ghost function Decisions(b: Buckets, reqs: seq<Request>, limit: nat, windowMs: int): (ds: seq<Decision>)
    ensures |ds| == |reqs|
    decreases |reqs|
  {
    if reqs == [] then []
    else
      var b' := Step(b, reqs[0], windowMs);
      [Decide(b'[reqs[0].key], limit)] + Decisions(b', reqs[1..], limit, windowMs)
  }

  /** The decisions of the in-memory limiter, which prunes on every hundredth operation. */
  ghost function PrunedDecisions(b: Buckets, operations: nat, reqs: seq<Request>, limit: nat, windowMs: int): (ds: seq<Decision>)
    ensures |ds| == |reqs|
    decreases |reqs|
  {
    if reqs == [] then []
    else
      var b' := PrunedStep(b, operations, reqs[0], windowMs);
      [Decide(b'[reqs[0].key], limit)] + PrunedDecisions(b', operations + 1, reqs[1..], limit, windowMs)
  }

  /** The decisions of the shared limiter over the table `rows`. */
  ghost function SqlDecisions(rows: map<string, Row>, rowKey: string -> string, reqs: seq<Request>, limit: nat, windowMs: int): seq<Decision>
    decreases |reqs|
  {
    if reqs == [] then []
    else
      var k := rowKey(reqs[0].key);
      [Decide(Touch(RowBucket(rows, k), reqs[0].now, windowMs), limit)]
      + SqlDecisions(SqlStep(rows, k, reqs[0].now, windowMs), rowKey, reqs[1..], limit, windowMs)
  }

  /** The clock never runs backwards, starting at `now`. */
  ghost predicate Monotone(now: int, reqs: seq<Request>)
    decreases |reqs|
  {
    reqs != [] ==> now <= reqs[0].now && Monotone(reqs[0].now, reqs[1..])
  }

  /** The two bucket maps hold the same open windows at `now`. */
  ghost predicate SameOpenWindows(a: Buckets, b: Buckets, now: int) {
    Live(a, now) == Live(b, now)
  }

  lemma SameWindowsSameBucket(a: Buckets, b: Buckets, now: int, key: string, windowMs: int)
    requires SameOpenWindows(a, b, now)
    ensures Touch(Lookup(a, key), now, windowMs) == Touch(Lookup(b, key), now, windowMs)
  {
    assert key in Live(a, now) <==> key in Live(b, now);
    assert key in Live(a, now) ==> Live(a, now)[key] == Live(b, now)[key];
  }

  lemma WindowsClose(a: Buckets, b: Buckets, now: int, later: int)
    requires SameOpenWindows(a, b, now) && now <= later
    ensures SameOpenWindows(a, b, later)
  {
    forall k ensures k in Live(a, later) <==> k in Live(b, later) {
      assert k in Live(a, now) <==> k in Live(b, now);
      assert k in Live(a, now) ==> Live(a, now)[k] == Live(b, now)[k];
    }
    forall k | k in Live(a, later) ensures Live(a, later)[k] == Live(b, later)[k] {
      assert Live(a, now)[k] == Live(b, now)[k];
    }
  }

  lemma SameUpdate(a: Buckets, b: Buckets, now: int, key: string, bucket: Bucket)
    requires SameOpenWindows(a, b, now)
    ensures SameOpenWindows(a[key := bucket], b[key := bucket], now)
  {
    var l := Live(a, now);
    assert Live(a[key := bucket], now) == if bucket.resetAt > now then l[key := bucket] else l - {key};
    assert Live(b[key := bucket], now) == if bucket.resetAt > now then l[key := bucket] else l - {key} by {
      assert l == Live(b, now);
    }
  }

  /** Pruning closed windows cannot be seen in any decision as long as the clock
      does not run backwards. */
  lemma {:induction false} PruningIsInvisible(a: Buckets, b: Buckets, operations: nat, now: int, reqs: seq<Request>, limit: nat, windowMs: int)
    requires SameOpenWindows(a, b, now)
    requires Monotone(now, reqs)
    ensures PrunedDecisions(a, operations, reqs, limit, windowMs) == Decisions(b, reqs, limit, windowMs)
    decreases |reqs|
  {
    if reqs == [] {
    } else {
      var req := reqs[0];
      WindowsClose(a, b, now, req.now);
      var a' := if (operations + 1) % 100 == 0 then Live(a, req.now) else a;
      assert Live(Live(a, req.now), req.now) == Live(a, req.now);
      assert SameOpenWindows(a', b, req.now);
      SameWindowsSameBucket(a', b, req.now, req.key, windowMs);
      SameUpdate(a', b, req.now, req.key, Touch(Lookup(b, req.key), req.now, windowMs));
      PruningIsInvisible(PrunedStep(a, operations, req, windowMs), Step(b, req, windowMs),
                         operations + 1, req.now, reqs[1..], limit, windowMs);
    }
  }

  /** The table restricted to one limiter's keys holds the same buckets as the map. */
  ghost predicate Represents(rows: map<string, Row>, rowKey: string -> string, b: Buckets) {
    forall k :: RowBucket(rows, rowKey(k)) == Lookup(b, k)
  }

  lemma {:induction false} UpsertMatchesMemory(rows: map<string, Row>, rowKey: string -> string, b: Buckets, reqs: seq<Request>, limit: nat, windowMs: int)
    requires Injective(rowKey)
    requires Represents(rows, rowKey, b)
    ensures SqlDecisions(rows, rowKey, reqs, limit, windowMs) == Decisions(b, reqs, limit, windowMs)
    decreases |reqs|
  {
    if reqs == [] {
    } else {
      var req := reqs[0];
      var rows' := SqlStep(rows, rowKey(req.key), req.now, windowMs);
      var b' := Step(b, req, windowMs);
      assert RowBucket(rows, rowKey(req.key)) == Lookup(b, req.key);
      forall k ensures RowBucket(rows', rowKey(k)) == Lookup(b', k) {
        assert RowBucket(rows, rowKey(k)) == Lookup(b, k);
        assert rowKey(k) == rowKey(req.key) ==> k == req.key;
      }
      UpsertMatchesMemory(rows', rowKey, b', reqs[1..], limit, windowMs);
    }
  }

  /** Started empty, all three limiters decide every request sequence alike. */
  lemma LimitersAgree(reqs: seq<Request>, start: int, namespace: string, hash: string -> string, limit: nat, windowMs: int)
    requires ValidConfiguration(limit, windowMs)
    requires Monotone(start, reqs)
    requires Injective(hash)
    ensures PrunedDecisions(map[], 0, reqs, limit, windowMs) == Decisions(map[], reqs, limit, windowMs)
    ensures SqlDecisions(map[], k => hash(namespace + ":" + k), reqs, limit, windowMs)
         == Decisions(map[], reqs, limit, windowMs)
  {
    PruningIsInvisible(map[], map[], 0, start, reqs, limit, windowMs);
    var rowKey := (k: string) => hash(namespace + ":" + k);
    forall a, b | rowKey(a) == rowKey(b) ensures a == b {
      assert a == (namespace + ":" + a)[|namespace| + 1..];
      assert b == (namespace + ":" + b)[|namespace| + 1..];
    }
    assert Represents(map[], rowKey, map[]);
    UpsertMatchesMemory(map[], rowKey, map[], reqs, limit, windowMs);
  }

  // ----- clocks that run backwards

  /** The buckets after a history of requests, without and with pruning. */
  ghost function After(b: Buckets, reqs: seq<Request>, windowMs: int): Buckets
    decreases |reqs|
  {
    if reqs == [] then b else After(Step(b, reqs[0], windowMs), reqs[1..], windowMs)
  }

  ghost function PrunedAfter(b: Buckets, operations: nat, reqs: seq<Request>, windowMs: int): Buckets
    decreases |reqs|
  {
    if reqs == [] then b else PrunedAfter(PrunedStep(b, operations, reqs[0], windowMs), operations + 1, reqs[1..], windowMs)
  }

  /** The decisions on `more` are those of the state that `past` has led to. */
  lemma {:induction false} DecisionsAfter(b: Buckets, past: seq<Request>, more: seq<Request>, limit: nat, windowMs: int)
    ensures Decisions(b, past + more, limit, windowMs)
         == Decisions(b, past, limit, windowMs) + Decisions(After(b, past, windowMs), more, limit, windowMs)
    decreases |past|
  {
    if past == [] {
      assert past + more == more;
    } else {
      assert (past + more)[1..] == past[1..] + more;
      DecisionsAfter(Step(b, past[0], windowMs), past[1..], more, limit, windowMs);
    }
  }

  lemma Regroup(d: Decision, x: seq<Decision>, y: seq<Decision>)
    ensures [d] + (x + y) == ([d] + x) + y
  {}

  lemma {:induction false} PrunedDecisionsAfter(b: Buckets, operations: nat, past: seq<Request>, more: seq<Request>, limit: nat, windowMs: int)
    ensures PrunedDecisions(b, operations, past + more, limit, windowMs)
         == PrunedDecisions(b, operations, past, limit, windowMs)
            + PrunedDecisions(PrunedAfter(b, operations, past, windowMs), operations + |past|, more, limit, windowMs)
    decreases |past|
  {
    if past == [] {
      assert past + more == more;
    } else {
      var b' := PrunedStep(b, operations, past[0], windowMs);
      var x := PrunedDecisions(b', operations + 1, past[1..], limit, windowMs);
      var y := PrunedDecisions(PrunedAfter(b, operations, past, windowMs), operations + |past|, more, limit, windowMs);
      assert PrunedDecisions(b, operations, past + more, limit, windowMs) == [Decide(b'[past[0].key], limit)] + (x + y) by {
        assert (past + more)[0] == past[0] && (past + more)[1..] == past[1..] + more;
        PrunedDecisionsAfter(b', operations + 1, past[1..], more, limit, windowMs);
      }
      Regroup(Decide(b'[past[0].key], limit), x, y);
    }
  }

  /** Started empty, the limiters with and without pruning decide the history alike. */
  ghost predicate Agree(reqs: seq<Request>, limit: nat, windowMs: int) {
    PrunedDecisions(map[], 0, reqs, limit, windowMs) == Decisions(map[], reqs, limit, windowMs)
  }

  /** A history whose clock never ran backwards and has not passed `now`. */
  ghost predicate PastOf(past: seq<Request>, now: int) {
    && (forall i, j :: 0 <= i < j < |past| ==> past[i].now <= past[j].now)
    && (forall i :: 0 <= i < |past| ==> past[i].now <= now)
  }

  /** Whatever orderly history led up to `t`, and whoever asks, requests read at `t` and then at
      `u` are decided alike. */
  ghost predicate AgreeOnReadings(t: int, u: int, limit: nat, windowMs: int) {
    forall past, k, l :: PastOf(past, t) ==> Agree(past + [Request(k, t), Request(l, u)], limit, windowMs)
  }

  lemma {:induction false} OrderlyIsMonotone(start: int, reqs: seq<Request>)
    requires forall i, j :: 0 <= i < j < |reqs| ==> reqs[i].now <= reqs[j].now
    requires reqs != [] ==> start <= reqs[0].now
    ensures Monotone(start, reqs)
    decreases |reqs|
  {
    if reqs == [] {
    } else {
      OrderlyIsMonotone(reqs[0].now, reqs[1..]);
    }
  }

  function Repeated(key: string, now: int, n: nat): (reqs: seq<Request>)
    ensures |reqs| == n && forall i :: 0 <= i < n ==> reqs[i] == Request(key, now)
  {
    seq(n, _ => Request(key, now))
  }

  /** Requests of one key at one time fill one bucket, which no pruning touches before it closes. */
  lemma {:induction false} RepeatedFill(b: Buckets, operations: nat, key: string, now: int, n: nat, windowMs: int)
    requires windowMs > 0 && (b == map[] || (b.Keys == {key} && b[key].resetAt == now + windowMs))
    ensures var reqs := Repeated(key, now, n);
            var full := if n == 0 then b else map[key := Bucket((if key in b then b[key].count else 0) + n, now + windowMs)];
            After(b, reqs, windowMs) == full && PrunedAfter(b, operations, reqs, windowMs) == full
    decreases n
  {
    if n == 0 {
    } else {
      assert Repeated(key, now, n)[1..] == Repeated(key, now, n - 1);
      assert Live(b, now) == b;
      var next := Step(b, Request(key, now), windowMs);
      assert next == map[key := Bucket((if key in b then b[key].count else 0) + 1, now + windowMs)];
      RepeatedFill(next, operations + 1, key, now, n - 1, windowMs);
    }
  }

  /** For every two readings of which the second is earlier there is an orderly history that the
      limiters decide differently: a window that closes at the first reading is pruned there, and
      the second reading lies inside it. */
  lemma BackwardsReadingsDisagree(t: int, u: int, limit: nat, windowMs: int) returns (past: seq<Request>)
    requires ValidConfiguration(limit, windowMs) && u < t
    ensures PastOf(past, t)
    ensures !Agree(past + [Request("b", t), Request("a", u)], limit, windowMs)
  {
    var n := 100 * limit - 1;
    past := Repeated("a", t - windowMs, n);
    var more := [Request("b", t), Request("a", u)];
    RepeatedFill(map[], 0, "a", t - windowMs, n, windowMs);
    var full: Buckets := map["a" := Bucket(n, t)];
    DecisionsAfter(map[], past, more, limit, windowMs);
    PrunedDecisionsAfter(map[], 0, past, more, limit, windowMs);
    LastPairDiffers(full, n, t, u, limit, windowMs);
    var pruned, plain := PrunedDecisions(full, n, more, limit, windowMs), Decisions(full, more, limit, windowMs);
    assert PrunedDecisions(map[], 0, past + more, limit, windowMs)[n..] == pruned;
    assert Decisions(map[], past + more, limit, windowMs)[n..] == plain;
  }

  lemma LastPairDiffers(full: Buckets, n: nat, t: int, u: int, limit: nat, windowMs: int)
    requires ValidConfiguration(limit, windowMs) && u < t && n == 100 * limit - 1
    requires full == map["a" := Bucket(n, t)]
    ensures var more := [Request("b", t), Request("a", u)];
            PrunedDecisions(full, n, more, limit, windowMs) != Decisions(full, more, limit, windowMs)
  {
    var more := [Request("b", t), Request("a", u)];
    assert more[1..] == [Request("a", u)] && more[1..][1..] == [];
    assert (n + 1) % 100 == 0;
    var pruned, plain := PrunedStep(full, n, more[0], windowMs), Step(full, more[0], windowMs);
    assert "a" != "b" by { assert "a"[0] != "b"[0]; }
    assert "a" !in pruned && plain["a"] == Bucket(n, t);
    assert (n + 2) % 100 != 0;
    assert PrunedDecisions(full, n, more, limit, windowMs)[1].allowed;
    assert !Decisions(full, more, limit, windowMs)[1].allowed;
  }

  /** Pruning is invisible for two readings of the clock exactly when they do not run backwards. */
  lemma PruningIsInvisibleIff(t: int, u: int, limit: nat, windowMs: int)
    requires ValidConfiguration(limit, windowMs)
    ensures AgreeOnReadings(t, u, limit, windowMs) <==> t <= u
  {
    if t <= u {
      forall past, k, l | PastOf(past, t) ensures Agree(past + [Request(k, t), Request(l, u)], limit, windowMs) {
        var reqs := past + [Request(k, t), Request(l, u)];
        OrderlyIsMonotone(reqs[0].now, reqs);
        PruningIsInvisible(map[], map[], 0, reqs[0].now, reqs, limit, windowMs);
      }
    } else {
      var past := BackwardsReadingsDisagree(t, u, limit, windowMs);
    }
  }

  /** So a window pruned at 6000 can be missed by a request dated 4000. */
  lemma PruningNeedsMonotoneClock()
    ensures !AgreeOnReadings(6000, 4000, 1, 1000)
  {
    PruningIsInvisibleIff(6000, 4000, 1, 1000);
  }

  // ----- quotas

  /** How many of the key's requests the decisions allow. */
  ghost function AllowedFor(key: string, reqs: seq<Request>, ds: seq<Decision>): nat
    requires |reqs| == |ds|
  {
    if reqs == [] then 0
    else (if reqs[0].key == key && ds[0].allowed then 1 else 0) + AllowedFor(key, reqs[1..], ds[1..])
  }

  ghost function TimesOf(key: string, reqs: seq<Request>): seq<int> {
    if reqs == [] then []
    else (if reqs[0].key == key then [reqs[0].now] else []) + TimesOf(key, reqs[1..])
  }

  /** The same count, computed from the key's own bucket and request times alone. */
  ghost function AllowedAt(b: Option<Bucket>, times: seq<int>, limit: nat, windowMs: int): nat
    decreases |times|
  {
    if times == [] then 0
    else
      var b' := Touch(b, times[0], windowMs);
      (if b'.count <= limit then 1 else 0) + AllowedAt(Some(b'), times[1..], limit, windowMs)
  }

  /** Keys do not influence each other. */
  lemma {:induction false} KeysAreIndependent(key: string, b: Buckets, reqs: seq<Request>, limit: nat, windowMs: int)
    ensures AllowedFor(key, reqs, Decisions(b, reqs, limit, windowMs))
         == AllowedAt(Lookup(b, key), TimesOf(key, reqs), limit, windowMs)
    decreases |reqs|
  {
    if reqs == [] {
    } else {
      var b' := Step(b, reqs[0], windowMs);
      KeysAreIndependent(key, b', reqs[1..], limit, windowMs);
      assert Decisions(b, reqs, limit, windowMs)[1..] == Decisions(b', reqs[1..], limit, windowMs);
      if reqs[0].key == key {
        assert TimesOf(key, reqs)[1..] == TimesOf(key, reqs[1..]);
      } else {
        assert TimesOf(key, reqs) == TimesOf(key, reqs[1..]);
      }
    }
  }

  ghost function Left(b: Bucket, limit: nat): nat {
    if b.count <= limit then limit - b.count else 0
  }

  lemma {:induction false} QuotaInOpenWindow(b: Bucket, times: seq<int>, limit: nat, windowMs: int)
    requires forall i :: 0 <= i < |times| ==> times[i] < b.resetAt
    ensures AllowedAt(Some(b), times, limit, windowMs) <= Left(b, limit)
    decreases |times|
  {
    if times == [] {
    } else {
      QuotaInOpenWindow(Touch(Some(b), times[0], windowMs), times[1..], limit, windowMs);
    }
  }

  /** When every window opened after `b` outlasts `end`, one more quota is all there is. */
  lemma {:induction false} QuotaUntil(b: Bucket, times: seq<int>, end: int, limit: nat, windowMs: int)
    requires limit >= 1
    requires forall i :: 0 <= i < |times| ==> times[i] <= end
    requires forall i, j :: 0 <= i < j < |times| ==> times[i] <= times[j]
    requires b.resetAt > end - windowMs
    ensures AllowedAt(Some(b), times, limit, windowMs) <= limit + Left(b, limit)
    decreases |times|
  {
    if times == [] {
    } else {
      var b' := Touch(Some(b), times[0], windowMs);
      if b.resetAt <= times[0] {
        QuotaInOpenWindow(b', times[1..], limit, windowMs);
      } else {
        QuotaUntil(b', times[1..], end, limit, windowMs);
      }
    }
  }

  lemma {:induction false} TimesAreOrdered(key: string, now: int, reqs: seq<Request>)
    requires Monotone(now, reqs)
    ensures forall i :: 0 <= i < |TimesOf(key, reqs)| ==> now <= TimesOf(key, reqs)[i]
    ensures forall i, j :: 0 <= i < j < |TimesOf(key, reqs)| ==> TimesOf(key, reqs)[i] <= TimesOf(key, reqs)[j]
    decreases |reqs|
  {
    if reqs == [] {
    } else {
      TimesAreOrdered(key, reqs[0].now, reqs[1..]);
    }
  }

  lemma {:induction false} TimesAreBounded(key: string, reqs: seq<Request>, end: int)
    requires forall i :: 0 <= i < |reqs| ==> reqs[i].now <= end
    ensures forall i :: 0 <= i < |TimesOf(key, reqs)| ==> TimesOf(key, reqs)[i] <= end
  {
    if reqs == [] {
    } else {
      TimesAreBounded(key, reqs[1..], end);
    }
  }

  /** Whatever happened before, a key is allowed at most twice its limit in any closed
      time interval as long as one window. */
  lemma QuotaPerInterval(key: string, b: Buckets, now: int, reqs: seq<Request>, limit: nat, windowMs: int)
    requires ValidConfiguration(limit, windowMs)
    requires Monotone(now, reqs)
    requires forall i :: 0 <= i < |reqs| ==> reqs[i].now <= now + windowMs
    ensures AllowedFor(key, reqs, Decisions(b, reqs, limit, windowMs)) <= 2 * limit
  {
    KeysAreIndependent(key, b, reqs, limit, windowMs);
    TimesAreOrdered(key, now, reqs);
    TimesAreBounded(key, reqs, now + windowMs);
    var times := TimesOf(key, reqs);
    if times != [] {
      var first := Touch(Lookup(b, key), times[0], windowMs);
      QuotaUntil(first, times[1..], now + windowMs, limit, windowMs);
    }
  }

  /** All decisions for the key announce the end of the same window. */
  ghost predicate OneWindow(key: string, reqs: seq<Request>, ds: seq<Decision>, resetAt: int)
    requires |reqs| == |ds|
  {
    forall i :: 0 <= i < |reqs| && reqs[i].key == key ==> ds[i].resetAt == resetAt
  }

  /** A key is allowed at most its limit in one window. */
  lemma {:induction false} QuotaPerWindow(key: string, b: Buckets, reqs: seq<Request>, resetAt: int, limit: nat, windowMs: int)
    requires ValidConfiguration(limit, windowMs)
    requires OneWindow(key, reqs, Decisions(b, reqs, limit, windowMs), resetAt)
    ensures var allowed := AllowedFor(key, reqs, Decisions(b, reqs, limit, windowMs));
            allowed <= limit && (key in b && b[key].resetAt == resetAt ==> allowed <= Left(b[key], limit))
    decreases |reqs|
  {
    if reqs == [] {
    } else {
      var b' := Step(b, reqs[0], windowMs);
      var ds := Decisions(b, reqs, limit, windowMs);
      assert ds[1..] == Decisions(b', reqs[1..], limit, windowMs);
      forall i | 0 <= i < |reqs[1..]| && reqs[1..][i].key == key ensures ds[1..][i].resetAt == resetAt {
        assert reqs[i + 1].key == key;
      }
      QuotaPerWindow(key, b', reqs[1..], resetAt, limit, windowMs);
    }
  }
}
