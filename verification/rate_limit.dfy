/** The fixed-window rate limiter of `server/auth/rate-limit.ts`. Times are milliseconds. */
module RateLimit {

  datatype Bucket = Bucket(count: nat, resetAt: int)
  datatype Answer = Answer(allowed: bool, retryAfterMs: int)

  type Buckets = map<string, Bucket>

  predicate Expired(b: Bucket, now: int) {
    b.resetAt <= now
  }

  function Decide(buckets: Buckets, key: string, limit: int, windowMs: int, now: int): (Answer, Buckets) {
    if key !in buckets || Expired(buckets[key], now) then
      (Answer(true, 0), buckets[key := Bucket(1, now + windowMs)])
    else if buckets[key].count < limit then
      (Answer(true, 0), buckets[key := buckets[key].(count := buckets[key].count + 1)])
    else
      (Answer(false, buckets[key].resetAt - now), buckets)
  }

  function Swept(buckets: Buckets, now: int): Buckets {
    map k | k in buckets && !Expired(buckets[k], now) :: buckets[k]
  }

  class Limiter {
    var buckets: Buckets

    constructor ()
      ensures buckets == map[]
    {
      buckets := map[];
    }

    method Check(key: string, limit: int, windowMs: int, now: int) returns (r: Answer)
      modifies this
      ensures (r, buckets) == Decide(old(buckets), key, limit, windowMs, now)
    {
      if key !in buckets || buckets[key].resetAt <= now {
        buckets := buckets[key := Bucket(1, now + windowMs)];
        return Answer(true, 0);
      }
      var existing := buckets[key];
      if existing.count < limit {
        buckets := buckets[key := existing.(count := existing.count + 1)];
        return Answer(true, 0);
      }
      return Answer(false, existing.resetAt - now);
    }

    method Reset(key: string)
      modifies this
      ensures buckets == old(buckets) - {key}
    {
      buckets := buckets - {key};
    }

    method Sweep(now: int) returns (removed: nat)
      modifies this
      ensures buckets == Swept(old(buckets), now)
      ensures removed == |old(buckets)| - |buckets|
    {
      removed := 0;
      var todo := buckets.Keys;
      ghost var start := buckets;
      while todo != {}
        invariant todo <= start.Keys
        invariant buckets == map k | k in start && (k in todo || !Expired(start[k], now)) :: start[k]
        invariant |buckets| + removed == |start|
        decreases todo
      {
        var k :| k in todo;
        if buckets[k].resetAt <= now {
          assert buckets.Keys == (buckets - {k}).Keys + {k};
          buckets := buckets - {k};
          removed := removed + 1;
        }
        todo := todo - {k};
      }
    }
  }

  // ---------- Sweeping is invisible ----------

  datatype Op = CheckOp(key: string, limit: int, windowMs: int, now: int) | SweepOp(now: int)

  /** The clock does not run backwards, starting no earlier than `from`. */
  ghost predicate Clocked(ops: seq<Op>, from: int)
    decreases |ops|
  {
    ops == [] || (from <= ops[0].now && Clocked(ops[1..], ops[0].now))
  }

  function Answers(buckets: Buckets, ops: seq<Op>): seq<Answer>
    decreases |ops|
  {
    if ops == [] then []
    else
      match ops[0]
      case SweepOp(now) => Answers(Swept(buckets, now), ops[1..])
      case CheckOp(key, limit, windowMs, now) =>
        var (a, next) := Decide(buckets, key, limit, windowMs, now);
        [a] + Answers(next, ops[1..])
  }

  function WithoutSweeps(ops: seq<Op>): seq<Op> {
    if ops == [] then []
    else (if ops[0].SweepOp? then [] else [ops[0]]) + WithoutSweeps(ops[1..])
  }

  /** The tables agree except on buckets that have expired by `now` and may have been swept. */
  ghost predicate Agree(swept: Buckets, kept: Buckets, now: int) {
    forall k :: if k in swept then k in kept && kept[k] == swept[k] else k in kept ==> Expired(kept[k], now)
  }

  lemma {:induction false} SweepsInvisible(swept: Buckets, kept: Buckets, ops: seq<Op>, from: int)
    requires Clocked(ops, from) && Agree(swept, kept, from)
    ensures Answers(swept, ops) == Answers(kept, WithoutSweeps(ops))
    decreases |ops|
  {
    if ops != [] {
      var now := ops[0].now;
      var rest := WithoutSweeps(ops[1..]);
      if ops[0].SweepOp? {
        assert WithoutSweeps(ops) == rest;
        SweepsInvisible(Swept(swept, now), kept, ops[1..], now);
      } else {
        var s := Decide(swept, ops[0].key, ops[0].limit, ops[0].windowMs, now);
        var k := Decide(kept, ops[0].key, ops[0].limit, ops[0].windowMs, now);
        assert s.0 == k.0;
        SweepsInvisible(s.1, k.1, ops[1..], now);
        assert WithoutSweeps(ops) == [ops[0]] + rest;
        assert ([ops[0]] + rest)[1..] == rest;
      }
    }
  }

  /** MAIN: inserting sweeps anywhere in a run of checks changes no answer. */
  lemma SweepsChangeNoAnswer(ops: seq<Op>, from: int)
    requires Clocked(ops, from)
    ensures Answers(map[], ops) == Answers(map[], WithoutSweeps(ops))
  {
    SweepsInvisible(map[], map[], ops, from);
  }

  // ---------- How many calls a window can let through ----------

  /** The allowed checks of `key` in the half-open interval from `a` of length `w`. */
  function AllowedIn(buckets: Buckets, ops: seq<Op>, key: string, a: int, w: int): nat
    decreases |ops|
  {
    if ops == [] then 0
    else
      match ops[0]
      case SweepOp(now) => AllowedIn(Swept(buckets, now), ops[1..], key, a, w)
      case CheckOp(k, limit, windowMs, now) =>
        var (ans, next) := Decide(buckets, k, limit, windowMs, now);
        (if k == key && ans.allowed && a <= now < a + w then 1 else 0) + AllowedIn(next, ops[1..], key, a, w)
  }

  /** Every check of `key` uses this limit and window. */
  ghost predicate Uniform(ops: seq<Op>, key: string, limit: int, w: int) {
    forall i :: 0 <= i < |ops| && ops[i].CheckOp? && ops[i].key == key ==> ops[i].limit == limit && ops[i].windowMs == w
  }

  /** What is left to allow in the interval, given the bucket of the key at time `now`. */
  function Room(buckets: Buckets, key: string, limit: int, w: int, a: int, now: int): int {
    if key !in buckets || Expired(buckets[key], now) then
      if now >= a then limit else 2 * limit - 1
    else
      var b := buckets[key];
      if a + w <= b.resetAt then limit - b.count
      else if a <= b.resetAt then 2 * limit - b.count
      else 2 * limit - 1
  }

  ghost predicate BucketOk(buckets: Buckets, key: string, limit: int) {
    key in buckets ==> 1 <= buckets[key].count <= limit
  }

  /** What one check leaves of the room, and that it is worth the call it lets through. */
  predicate RoomKept(
    buckets: Buckets, next: Buckets, counted: int, key: string, limit: int, w: int, a: int, from: int, now: int) {
    counted + (if now >= a + w then 0 else Room(next, key, limit, w, a, now))
    <= if from >= a + w then 0 else Room(buckets, key, limit, w, a, from)
  }

  /** The call that a check of the key by `Decide` adds to the interval. */
  function Counted(buckets: Buckets, key: string, limit: int, w: int, a: int, now: int): int {
    if Decide(buckets, key, limit, w, now).0.allowed && a <= now < a + w then 1 else 0
  }

  /** A check that opens a bucket. */
  lemma RoomOfFresh(buckets: Buckets, key: string, limit: int, w: int, a: int, from: int, now: int)
    requires limit >= 1 && w > 0 && from <= now && BucketOk(buckets, key, limit)
    requires key !in buckets || Expired(buckets[key], now)
    ensures RoomKept(buckets, Decide(buckets, key, limit, w, now).1, Counted(buckets, key, limit, w, a, now), key,
        limit, w, a, from, now)
  {
  }

  /** A check that a live bucket allows. */
  lemma RoomOfAllowed(buckets: Buckets, key: string, limit: int, w: int, a: int, from: int, now: int)
    requires limit >= 1 && w > 0 && from <= now && BucketOk(buckets, key, limit)
    requires key in buckets && !Expired(buckets[key], now) && buckets[key].count < limit
    ensures RoomKept(buckets, Decide(buckets, key, limit, w, now).1, Counted(buckets, key, limit, w, a, now), key,
        limit, w, a, from, now)
  {
  }

  /** Time that passes, sweeps and other keys take no room. */
  lemma RoomLater(buckets: Buckets, next: Buckets, key: string, limit: int, w: int, a: int, from: int, now: int)
    requires limit >= 1 && w > 0 && from <= now && BucketOk(buckets, key, limit)
    requires key in next ==> key in buckets && next[key] == buckets[key]
    requires key in buckets && key !in next ==> Expired(buckets[key], now)
    ensures RoomKept(buckets, next, 0, key, limit, w, a, from, now)
  {
  }

  lemma RoomNotNegative(buckets: Buckets, key: string, limit: int, w: int, a: int, now: int)
    requires limit >= 1 && BucketOk(buckets, key, limit)
    ensures Room(buckets, key, limit, w, a, now) >= 0
  {
  }

  lemma CheckKeepsRoom(buckets: Buckets, key: string, limit: int, w: int, a: int, from: int, now: int)
    requires limit >= 1 && w > 0 && from <= now && BucketOk(buckets, key, limit)
    ensures
      var next := Decide(buckets, key, limit, w, now).1;
      && RoomKept(buckets, next, Counted(buckets, key, limit, w, a, now), key, limit, w, a, from, now)
      && BucketOk(next, key, limit)
  {
    hide RoomKept;
    if key !in buckets || Expired(buckets[key], now) {
      RoomOfFresh(buckets, key, limit, w, a, from, now);
    } else if buckets[key].count < limit {
      RoomOfAllowed(buckets, key, limit, w, a, from, now);
    } else {
      RoomLater(buckets, buckets, key, limit, w, a, from, now);
    }
  }

  lemma {:induction false} AllowedBound(
    buckets: Buckets, ops: seq<Op>, key: string, limit: int, w: int, a: int, from: int)
    requires limit >= 1 && w > 0 && Clocked(ops, from) && Uniform(ops, key, limit, w) && BucketOk(buckets, key, limit)
    ensures AllowedIn(buckets, ops, key, a, w) <= if from >= a + w then 0 else Room(buckets, key, limit, w, a, from)
    decreases |ops|
  {
    hide Room, Decide, Swept;
    if ops == [] {
      RoomNotNegative(buckets, key, limit, w, a, from);
    } else {
      var now := ops[0].now;
      var rest := ops[1..];
      assert Uniform(rest, key, limit, w) by {
        assert forall i :: 0 <= i < |rest| ==> rest[i] == ops[i + 1];
      }
      match ops[0]
      case SweepOp(_) =>
        SweptAt(buckets, key, now);
        RoomLater(buckets, Swept(buckets, now), key, limit, w, a, from, now);
        AllowedBound(Swept(buckets, now), rest, key, limit, w, a, now);
      case CheckOp(k, l, win, _) =>
        var next := Decide(buckets, k, l, win, now).1;
        if k == key {
          assert l == limit && win == w by { assert ops[0].CheckOp?; }
          CheckKeepsRoom(buckets, key, limit, w, a, from, now);
        } else {
          OtherKey(buckets, k, l, win, now, key);
          RoomLater(buckets, next, key, limit, w, a, from, now);
        }
        AllowedBound(next, rest, key, limit, w, a, now);
    }
  }

  lemma SweptAt(buckets: Buckets, key: string, now: int)
    ensures key in Swept(buckets, now) ==> key in buckets && Swept(buckets, now)[key] == buckets[key]
    ensures key in buckets && key !in Swept(buckets, now) ==> Expired(buckets[key], now)
  {
  }

  lemma OtherKey(buckets: Buckets, k: string, limit: int, w: int, now: int, key: string)
    requires k != key
    ensures
      var next := Decide(buckets, k, limit, w, now).1;
      (key in next <==> key in buckets) && (key in buckets ==> next[key] == buckets[key])
  {
  }

  /** MAIN: with one limit and window per key and a clock that does not run backwards, no half-open
      interval as long as the window lets through more than `2 * limit - 1` checks of the key,
      whatever other keys and sweeps do. */
  lemma AtMostTwiceLessOne(ops: seq<Op>, key: string, limit: int, w: int, a: int, from: int)
    requires limit >= 1 && w > 0 && Clocked(ops, from) && Uniform(ops, key, limit, w)
    ensures AllowedIn(map[], ops, key, a, w) <= 2 * limit - 1
  {
    AllowedBound(map[], ops, key, limit, w, a, from);
  }

  function Repeat(op: Op, n: nat): seq<Op> {
    seq(n, i => op)
  }

  /** A live bucket with room for `n` more calls allows all of them. */
  lemma {:induction false} RepeatAllowed(
    key: string, limit: int, w: int, now: int, n: nat, b: Bucket, more: seq<Op>, a: int)
    requires b.count + n <= limit && now < b.resetAt && a <= now < a + w
    ensures AllowedIn(map[key := b], Repeat(CheckOp(key, limit, w, now), n) + more, key, a, w)
         == n + AllowedIn(map[key := b.(count := b.count + n)], more, key, a, w)
    decreases n
  {
    var op := CheckOp(key, limit, w, now);
    if n == 0 {
      assert Repeat(op, 0) + more == more;
    } else {
      var next := b.(count := b.count + 1);
      var rest := Repeat(op, n - 1) + more;
      assert Repeat(op, n) + more == [op] + rest;
      hide Decide, Repeat, AllowedIn;
      assert Decide(map[key := b], key, limit, w, now) ==
        (Answer(true, 0), map[key := next]) by { LiveAllows(key, limit, w, now, b); }
      FirstCheck(map[key := b], key, limit, w, now, rest, a);
      RepeatAllowed(key, limit, w, now, n - 1, next, more, a);
    }
  }

  lemma LiveAllows(key: string, limit: int, w: int, now: int, b: Bucket)
    requires b.count < limit && now < b.resetAt
    ensures Decide(map[key := b], key, limit, w, now) == (Answer(true, 0), map[key := b.(count := b.count + 1)])
  {
    assert map[key := b][key := b.(count := b.count + 1)] == map[key := b.(count := b.count + 1)];
  }

  lemma FirstCheck(buckets: Buckets, key: string, limit: int, w: int, now: int, rest: seq<Op>, a: int)
    ensures AllowedIn(buckets, [CheckOp(key, limit, w, now)] + rest, key, a, w)
         == Counted(buckets, key, limit, w, a, now) + AllowedIn(Decide(buckets, key, limit, w, now).1, rest, key, a, w)
  {
    hide Decide;
    assert ([CheckOp(key, limit, w, now)] + rest)[1..] == rest;
  }

  /** The bound is reached: one call, then the rest of the limit at the end of its window, then a
      full limit at the start of the next. */
  lemma BoundIsReached(key: string, limit: int, w: int)
    requires limit >= 1 && w >= 2
    ensures
      var ops := [CheckOp(key, limit, w, 0)] + (Repeat(CheckOp(key, limit, w, w - 1), limit - 1)
                 + ([CheckOp(key, limit, w, w)] + (Repeat(CheckOp(key, limit, w, w), limit - 1) + [])));
      AllowedIn(map[], ops, key, 1, w) == 2 * limit - 1
  {
    var first, last := CheckOp(key, limit, w, 0), CheckOp(key, limit, w, w);
    var tail := Repeat(last, limit - 1) + [];
    var mid := [last] + tail;
    var late := Repeat(CheckOp(key, limit, w, w - 1), limit - 1) + mid;
    assert ([first] + late)[1..] == late && mid[1..] == tail;
    RepeatAllowed(key, limit, w, w - 1, limit - 1, Bucket(1, w), mid, 1);
    var full := map[key := Bucket(limit, w)];
    assert Decide(full, key, limit, w, w).1 == map[key := Bucket(1, 2 * w)];
    RepeatAllowed(key, limit, w, w, limit - 1, Bucket(1, 2 * w), [], 1);
  }
}
