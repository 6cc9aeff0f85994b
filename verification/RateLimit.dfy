// The per-key token bucket limiter with idle eviction. The x/time/rate bucket is an exact
// token bucket over the reals; clock readings are parameters, in seconds.
module RateLimit {
  import opened Common

  /** Tokens per second, capacity, and how often and after how long idle buckets go. */
  datatype Config = Config(rate: real, burst: int, gcEvery: real, ttl: real)

  /** The mutable fields of a rate.Limiter. A new one is full. */
  datatype Bucket = Bucket(tokens: real, last: real)

  datatype Entry = Entry(bucket: Bucket, last: real)

  type Limits = map<string, Entry>

  function StrictConfig(): Config { Config(0.5, 30, 60.0, 600.0) }
  function StandardConfig(): Config { Config(2.0, 60, 60.0, 600.0) }

  /** What flows into a bucket between two instants, before the cap. */
  function Refill(c: Config, t: real, u: real): real { c.rate * (u - t) }

  function Min(a: real, b: real): real { if a <= b then a else b }

  /** The tokens a bucket holds at an instant: the refill since its last use, capped. */
  function Level(c: Config, b: Bucket, at: real): real
  {
    var last := Min(b.last, at);
    Min(c.burst as real, b.tokens + Refill(c, last, at))
  }

  /** rate.Limiter.Allow at an instant. */
  function Take(c: Config, b: Bucket, at: real): (r: (bool, Bucket))
  {
    var tokens := Level(c, b, at) - 1.0;
    if 1 <= c.burst && tokens >= 0.0 then (true, Bucket(tokens, at)) else (false, b)
  }

  function EntryFor(c: Config, limits: Limits, key: string, now: real): Entry
  {
    if key in limits then limits[key].(last := now) else Entry(Bucket(c.burst as real, now), now)
  }

  /** Limiter.Allow: now is its own clock reading, at the later one inside the bucket. */
  function Allowed(c: Config, limits: Limits, key: string, now: real, at: real): (bool, Limits)
  {
    var e := EntryFor(c, limits, key, now);
    var (ok, b) := Take(c, e.bucket, at);
    (ok, limits[key := e.(bucket := b)])
  }

  /** Limiter.gc: the entries idle for longer than the TTL are gone. */
  function Collected(c: Config, limits: Limits, now: real): Limits
  {
    map k | k in limits && !(now - limits[k].last > c.ttl) :: limits[k]
  }

  // ---------- The limiter object ----------

  class Limiter {
    const config: Config
    var limits: map<string, Entry>
    var lastGC: real

    constructor (config: Config, now: real)
      ensures this.config == config && limits == map[] && lastGC == now
    {
      this.config := config;
      limits := map[];
      lastGC := now;
    }

    method Allow(key: string, now: real, at: real) returns (ok: bool)
      modifies this`limits
      ensures (ok, limits) == Allowed(config, old(limits), key, now, at)
    {
      var e := Entry(Bucket(config.burst as real, now), now);
      if key in limits {
        e := limits[key];
      }
      e := e.(last := now);
      var (taken, bucket) := Take(config, e.bucket, at);
      e := e.(bucket := bucket);
      limits := limits[key := e];
      ok := taken;
    }

    method Gc(now: real)
      modifies this`limits
      ensures limits == Collected(config, old(limits), now)
    {
      var keys := limits.Keys;
      while keys != {}
        invariant keys <= old(limits).Keys
        invariant forall k ::
          k in limits <==> k in old(limits) && (k in keys || !(now - old(limits)[k].last > config.ttl))
        invariant forall k | k in limits :: limits[k] == old(limits)[k]
        decreases keys
      {
        var k :| k in keys;
        if now - limits[k].last > config.ttl {
          limits := limits - {k};
        }
        keys := keys - {k};
      }
    }

    /** since, now and stamp are its three clock readings. */
    method MaybeGC(since: real, now: real, stamp: real)
      modifies this
      ensures (limits, lastGC) == MaybeCollected(config, old(limits), old(lastGC), since, now, stamp)
    {
      if since - lastGC > config.gcEvery {
        Gc(now);
        lastGC := stamp;
      }
    }
  }

  function MaybeCollected(c: Config, limits: Limits, lastGC: real, since: real, now: real, stamp: real): (Limits, real)
  {
    if since - lastGC > c.gcEvery then (Collected(c, limits, now), stamp) else (limits, lastGC)
  }

  // ---------- Traces ----------

  /** One critical section under the limiter's mutex. */
  datatype Op =
    | Request(key: string, now: real, at: real)
    | Sweep(since: real, now: real, stamp: real)

  datatype State = State(limits: Limits, lastGC: real)

  function Perform(c: Config, s: State, op: Op, evict: bool): (Option<bool>, State)
  {
    match op
    case Request(key, now, at) =>
      var (ok, limits) := Allowed(c, s.limits, key, now, at);
      (Some(ok), s.(limits := limits))
    case Sweep(since, now, stamp) =>
      if evict then
        var (limits, lastGC) := MaybeCollected(c, s.limits, s.lastGC, since, now, stamp);
        (None, State(limits, lastGC))
      else (None, s)
  }

  /** The answers of a whole trace, with or without eviction. */
  function Answers(c: Config, s: State, ops: seq<Op>, evict: bool): seq<Option<bool>>
    decreases |ops|
  {
    if ops == [] then []
    else
      var (answer, next) := Perform(c, s, ops[0], evict);
      [answer] + Answers(c, next, ops[1..], evict)
  }

  function Final(c: Config, s: State, ops: seq<Op>, evict: bool): State
    decreases |ops|
  {
    if ops == [] then s else Final(c, Perform(c, s, ops[0], evict).1, ops[1..], evict)
  }

  /** The instant of an operation's last clock reading. */
  function EndOf(op: Op): real
  {
    match op case Request(_, _, at) => at case Sweep(_, _, stamp) => stamp
  }

  /** The clock never goes back from t on, and within one Allow its two readings are at
      most delay apart. */
  predicate Clocked(ops: seq<Op>, t: real, delay: real)
  {
    ops == [] || (StartOf(ops[0]) >= t && InOrder(ops[0], delay) && Clocked(ops[1..], EndOf(ops[0]), delay))
  }

  predicate InOrder(op: Op, delay: real)
  {
    match op
    case Request(_, now, at) => now <= at <= now + delay
    case Sweep(since, now, stamp) => since <= now <= stamp
  }

  function StartOf(op: Op): real
  {
    match op case Request(_, now, _) => now case Sweep(since, _, _) => since
  }

  /** A bucket left alone for the TTL, less that delay, is full again. */
  predicate Refills(c: Config, delay: real)
  {
    c.rate >= 0.0 && c.burst >= 0 && delay >= 0.0 && c.burst as real <= Refill(c, delay, c.ttl)
  }

  /** Both configured limiters refill within the TTL, with minutes to spare. */
  lemma ConfiguredLimitersRefill()
    ensures Refills(StrictConfig(), 540.0)
    ensures Refills(StandardConfig(), 570.0)
  {
  }

  // ---------- Eviction is unobservable ----------

  /** What a key has available at an instant; a key without a bucket gets a full one. */
  function Available(c: Config, limits: Limits, key: string, at: real): real
  {
    if key in limits then Level(c, limits[key].bucket, at) else c.burst as real
  }

  ghost predicate SameFrom(c: Config, a: Limits, b: Limits, t: real)
  {
    forall key, at | at >= t :: Available(c, a, key, at) == Available(c, b, key, at)
  }

  /** Buckets hold no debt and were last used when the entry says, up to the delay. */
  ghost predicate Sound(limits: Limits, t: real, delay: real)
  {
    forall k | k in limits ::
      limits[k].bucket.tokens >= 0.0 && limits[k].bucket.last <= t && limits[k].bucket.last <= limits[k].last + delay
  }

  /** A longer time refills at least as much. */
  lemma LongerRefillsMore(c: Config, t: real, u: real, v: real, w: real)
    requires c.rate >= 0.0 && u - t <= w - v
    ensures Refill(c, t, u) <= Refill(c, v, w)
  {
    var gap := (w - v) - (u - t);
    assert c.rate * gap >= 0.0;
    assert c.rate * (w - v) == c.rate * (u - t) + c.rate * gap;
  }

  lemma NoTimeNoRefill(c: Config, t: real)
    ensures Refill(c, t, t) == 0.0
  {
    assert t - t == 0.0;
  }

  lemma RefillIsNotNegative(c: Config, t: real, u: real)
    requires c.rate >= 0.0 && t <= u
    ensures Refill(c, t, u) >= 0.0
  {
    NoTimeNoRefill(c, t);
    LongerRefillsMore(c, t, t, t, u);
  }

  lemma IdleIsFull(c: Config, e: Entry, now: real, at: real, delay: real)
    requires Refills(c, delay) && e.bucket.tokens >= 0.0 && e.bucket.last <= e.last + delay
    requires now - e.last > c.ttl && now <= at && e.bucket.last <= at
    ensures Level(c, e.bucket, at) == c.burst as real
  {
    assert Min(e.bucket.last, at) == e.bucket.last;
    LongerRefillsMore(c, delay, c.ttl, e.bucket.last, at);
  }

  lemma EvictionKeepsLevels(c: Config, limits: Limits, now: real, t: real, delay: real)
    requires Refills(c, delay) && Sound(limits, t, delay) && t <= now
    ensures SameFrom(c, limits, Collected(c, limits, now), now)
  {
    var kept := Collected(c, limits, now);
    forall key, at | at >= now ensures Available(c, limits, key, at) == Available(c, kept, key, at) {
      if key in limits && key !in kept {
        IdleIsFull(c, limits[key], now, at, delay);
      }
    }
  }

  /** Two tables with the same levels answer a request alike and keep the same levels. */
  lemma SameLevelsSameAnswer(c: Config, a: Limits, b: Limits, key: string, now: real, at: real, t: real)
    requires c.rate >= 0.0 && t <= now <= at && SameFrom(c, a, b, t)
    ensures Allowed(c, a, key, now, at).0 == Allowed(c, b, key, now, at).0
    ensures SameFrom(c, Allowed(c, a, key, now, at).1, Allowed(c, b, key, now, at).1, at)
  {
    var (okA, nextA) := Allowed(c, a, key, now, at);
    var (okB, nextB) := Allowed(c, b, key, now, at);
    FreshIsFull(c, now, at);
    assert Level(c, EntryFor(c, a, key, now).bucket, at) == Available(c, a, key, at);
    assert Level(c, EntryFor(c, b, key, now).bucket, at) == Available(c, b, key, at);
    forall k, u | u >= at ensures Available(c, nextA, k, u) == Available(c, nextB, k, u) {
      FreshIsFull(c, now, u);
      assert Available(c, a, k, u) == Available(c, b, k, u);
      if k == key && okA {
        assert nextA[key].bucket == nextB[key].bucket;
      }
    }
  }

  lemma FreshIsFull(c: Config, now: real, at: real)
    requires c.rate >= 0.0 && now <= at
    ensures Level(c, Bucket(c.burst as real, now), at) == c.burst as real
  {
    assert Min(now, at) == now;
    RefillIsNotNegative(c, now, at);
  }

  lemma RequestKeepsSound(c: Config, limits: Limits, key: string, now: real, at: real, t: real, delay: real)
    requires Refills(c, delay) && Sound(limits, t, delay) && t <= now <= at <= now + delay
    ensures Sound(Allowed(c, limits, key, now, at).1, at, delay)
  {
  }

  /** Over any trace on a clock that does not go back, the limiter that evicts gives
      exactly the answers of the limiter that never forgets. */
  lemma {:induction false} EvictionIsUnobservable(c: Config, gcd: State, all: State, ops: seq<Op>, t: real, delay: real)
    requires Refills(c, delay) && Clocked(ops, t, delay)
    requires Sound(gcd.limits, t, delay) && SameFrom(c, gcd.limits, all.limits, t)
    ensures Answers(c, gcd, ops, true) == Answers(c, all, ops, false)
    decreases |ops|
  {
    if ops != [] {
      var gcd' := Perform(c, gcd, ops[0], true).1;
      var all' := Perform(c, all, ops[0], false).1;
      match ops[0] {
        case Request(key, now, at) =>
          SameLevelsSameAnswer(c, gcd.limits, all.limits, key, now, at, t);
          RequestKeepsSound(c, gcd.limits, key, now, at, t, delay);
        case Sweep(since, now, stamp) =>
          EvictionKeepsLevels(c, gcd.limits, now, t, delay);
      }
      EvictionIsUnobservable(c, gcd', all', ops[1..], EndOf(ops[0]), delay);
    }
  }

  /** The server's own case: from an empty table, for either configured limiter, as long
      as no Allow is stopped for nine minutes between its two clock readings. */
  lemma ServerEvictionIsUnobservable(c: Config, ops: seq<Op>, start: real)
    requires c == StrictConfig() || c == StandardConfig()
    requires Clocked(ops, start, 540.0)
    ensures Answers(c, State(map[], start), ops, true) == Answers(c, State(map[], start), ops, false)
  {
    ConfiguredLimitersRefill();
    EvictionIsUnobservable(c, State(map[], start), State(map[], start), ops, start, 540.0);
  }

  // ---------- The window bound ----------

  function Counts(key: string, op: Op, answer: Option<bool>): nat
  {
    if op.Request? && op.key == key && answer == Some(true) then 1 else 0
  }

  /** How many requests of a key a trace admits. */
  function Admitted(key: string, ops: seq<Op>, answers: seq<Option<bool>>): nat
    requires |ops| == |answers|
  {
    if ops == [] then 0
    else Counts(key, ops[0], answers[0]) + Admitted(key, ops[1..], answers[1..])
  }

  lemma {:induction false} OneAnswerEach(c: Config, s: State, ops: seq<Op>, evict: bool)
    ensures |Answers(c, s, ops, evict)| == |ops|
    decreases |ops|
  {
    if ops != [] {
      OneAnswerEach(c, Perform(c, s, ops[0], evict).1, ops[1..], evict);
    }
  }

  function EndTime(ops: seq<Op>, t: real): real
  {
    if ops == [] then t else EndTime(ops[1..], EndOf(ops[0]))
  }

  lemma RefillAdds(c: Config, t: real, u: real, v: real)
    ensures Refill(c, t, v) == Refill(c, t, u) + Refill(c, u, v)
  {
    assert c.rate * (v - t) == c.rate * (u - t) + c.rate * (v - u);
  }

  lemma LevelGrowsAtRate(c: Config, b: Bucket, t: real, u: real)
    requires c.rate >= 0.0 && t <= u
    ensures Level(c, b, u) <= Level(c, b, t) + Refill(c, t, u)
  {
    var p, q := Min(b.last, t), Min(b.last, u);
    LongerRefillsMore(c, q, u, p, u);
    RefillAdds(c, p, t, u);
    RefillIsNotNegative(c, t, u);
    assert Refill(c, q, u) <= Refill(c, p, t) + Refill(c, t, u);
  }

  lemma AvailableGrowsAtRate(c: Config, limits: Limits, key: string, t: real, u: real)
    requires c.rate >= 0.0 && t <= u
    ensures Available(c, limits, key, u) <= Available(c, limits, key, t) + Refill(c, t, u)
  {
    if key in limits {
      LevelGrowsAtRate(c, limits[key].bucket, t, u);
    } else {
      RefillIsNotNegative(c, t, u);
    }
  }

  lemma StepKeepsSound(c: Config, s: State, op: Op, t: real, delay: real)
    requires Refills(c, delay) && Clocked([op], t, delay) && Sound(s.limits, t, delay)
    ensures Sound(Perform(c, s, op, true).1.limits, EndOf(op), delay)
  {
    if op.Request? {
      RequestKeepsSound(c, s.limits, op.key, op.now, op.at, t, delay);
    }
  }

  lemma RequestSpends(c: Config, limits: Limits, k: string, now: real, at: real, key: string)
    requires c.rate >= 0.0 && now <= at
    ensures var (ok, next) := Allowed(c, limits, k, now, at);
            (if k == key && ok then 1.0 else 0.0) + Available(c, next, key, at) <= Available(c, limits, key, at)
  {
    if k == key {
      FreshIsFull(c, now, at);
      var before := EntryFor(c, limits, k, now).bucket;
      assert Level(c, before, at) == Available(c, limits, key, at);
      var (ok, b) := Take(c, before, at);
      if ok {
        EmptyInterval(c, b, at);
      }
    }
  }

  lemma EmptyInterval(c: Config, b: Bucket, at: real)
    requires b.last == at
    ensures Level(c, b, at) <= b.tokens
    ensures b.tokens <= c.burst as real ==> Level(c, b, at) == b.tokens
  {
    assert Min(b.last, at) == at;
    NoTimeNoRefill(c, at);
  }

  /** One request spends what it takes; time adds at most the rate; sweeps add nothing. */
  lemma StepSpends(c: Config, s: State, op: Op, t: real, delay: real, key: string)
    requires Refills(c, delay) && Clocked([op], t, delay) && Sound(s.limits, t, delay)
    ensures var (answer, next) := Perform(c, s, op, true);
      Counts(key, op, answer) as real + Available(c, next.limits, key, EndOf(op))
      <= Available(c, s.limits, key, t) + Refill(c, t, EndOf(op))
  {
    AvailableGrowsAtRate(c, s.limits, key, t, EndOf(op));
    match op {
      case Request(k, now, at) =>
        RequestSpends(c, s.limits, k, now, at, key);
      case Sweep(since, now, stamp) =>
        EvictionKeepsLevels(c, s.limits, now, t, delay);
    }
  }

  lemma AvailableIsNotNegative(c: Config, limits: Limits, key: string, t: real, delay: real)
    requires Refills(c, delay) && Sound(limits, t, delay)
    ensures 0.0 <= Available(c, limits, key, t) <= c.burst as real
  {
    if key in limits {
      RefillIsNotNegative(c, Min(limits[key].bucket.last, t), t);
    }
  }

  /** From any sound state a key is admitted no more often than what it has plus the refill. */
  lemma {:induction false} SpendingIsBounded(c: Config, s: State, ops: seq<Op>, t: real, delay: real, key: string)
    requires Refills(c, delay) && Clocked(ops, t, delay) && Sound(s.limits, t, delay)
    ensures |Answers(c, s, ops, true)| == |ops|
    ensures Admitted(key, ops, Answers(c, s, ops, true)) as real
         <= Available(c, s.limits, key, t) + Refill(c, t, EndTime(ops, t))
    decreases |ops|
  {
    OneAnswerEach(c, s, ops, true);
    if ops == [] {
      AvailableIsNotNegative(c, s.limits, key, t, delay);
    } else {
      var op, rest := ops[0], ops[1..];
      StepKeepsSound(c, s, op, t, delay);
      StepSpends(c, s, op, t, delay, key);
      SpendingIsBounded(c, Perform(c, s, op, true).1, rest, EndOf(op), delay, key);
      RefillAdds(c, t, EndOf(op), EndTime(ops, t));
    }
  }

  lemma {:induction false} RunKeepsSound(c: Config, s: State, ops: seq<Op>, rest: seq<Op>, t: real, delay: real)
    requires Refills(c, delay) && Clocked(ops + rest, t, delay) && Sound(s.limits, t, delay)
    ensures Sound(Final(c, s, ops, true).limits, EndTime(ops, t), delay)
    ensures Clocked(rest, EndTime(ops, t), delay)
    ensures |Answers(c, s, ops + rest, true)| == |ops| + |rest|
    ensures Answers(c, s, ops + rest, true)[|ops|..] == Answers(c, Final(c, s, ops, true), rest, true)
    decreases |ops|
  {
    OneAnswerEach(c, s, ops + rest, true);
    if ops == [] {
      assert ops + rest == rest;
    } else {
      assert (ops + rest)[1..] == ops[1..] + rest;
      var next := Perform(c, s, ops[0], true).1;
      StepKeepsSound(c, s, ops[0], t, delay);
      RunKeepsSound(c, next, ops[1..], rest, EndOf(ops[0]), delay);
      assert Answers(c, s, ops + rest, true)[|ops|..] == Answers(c, next, ops[1..] + rest, true)[|ops| - 1..];
    }
  }

  /** In any window of any run from the empty table, evictions and re-created buckets
      included, a key is admitted at most burst plus rate times the window's length. */
  lemma WindowBound(c: Config, before: seq<Op>, window: seq<Op>, start: real, delay: real, key: string)
    requires Refills(c, delay) && Clocked(before + window, start, delay) && window != []
    ensures |Answers(c, State(map[], start), before + window, true)| == |before| + |window|
    ensures Admitted(key, window, Answers(c, State(map[], start), before + window, true)[|before|..]) as real
         <= c.burst as real + Refill(c, StartOf(window[0]), EndTime(window, start))
  {
    var s := Final(c, State(map[], start), before, true);
    RunKeepsSound(c, State(map[], start), before, window, start, delay);
    var from := StartOf(window[0]);
    SpendingIsBounded(c, s, window, from, delay, key);
    AvailableIsNotNegative(c, s.limits, key, from, delay);
  }

  /** The server's own case: as long as no Allow is stopped for nine minutes between its two
      clock readings, in any window a client is admitted at most 30 times plus once every two
      seconds by the strict limiter, and 60 times plus twice a second by the standard one. */
  lemma ServerWindowBound(c: Config, before: seq<Op>, window: seq<Op>, start: real, key: string)
    requires c == StrictConfig() || c == StandardConfig()
    requires Clocked(before + window, start, 540.0) && window != []
    ensures |Answers(c, State(map[], start), before + window, true)| == |before| + |window|
    ensures var admitted := Admitted(key, window, Answers(c, State(map[], start), before + window, true)[|before|..]);
            var length := EndTime(window, start) - StartOf(window[0]);
            admitted as real <= if c == StrictConfig() then 30.0 + length / 2.0 else 60.0 + 2.0 * length
  {
    ConfiguredLimitersRefill();
    WindowBound(c, before, window, start, 540.0, key);
  }

  /** Both configured limiters look for idle keys once a minute, and then forget exactly those
      not seen for ten. */
  lemma ServerSweepsExactly(c: Config, s: State, since: real, now: real, stamp: real, key: string)
    requires c == StrictConfig() || c == StandardConfig()
    ensures var n := Perform(c, s, Sweep(since, now, stamp), true).1;
            (key in n.limits <==>
               key in s.limits && !(since - s.lastGC > 60.0 && now - s.limits[key].last > 600.0))
            && (key in n.limits ==> n.limits[key] == s.limits[key])
            && n.lastGC == if since - s.lastGC > 60.0 then stamp else s.lastGC
  {
  }
}
