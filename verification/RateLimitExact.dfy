// Why the eviction time has to be long enough: with a shorter one, some run of requests sees
// the difference, and some window admits more than the rate allows.
module RateLimitExact {
  import opened Common
  import opened RateLimit

  const KEY := "k"

  /** n requests of one key at one instant. */
  function Volley(at: real, n: nat): seq<Op>
  {
    if n == 0 then [] else [Request(KEY, at, at)] + Volley(at, n - 1)
  }

  function Yes(n: nat): seq<Option<bool>>
  {
    if n == 0 then [] else [Some(true)] + Yes(n - 1)
  }

  /** A request at an instant is admitted exactly when a whole token is there, and takes it. */
  lemma OneShot(c: Config, s: State, at: real, evict: bool)
    requires c.rate >= 0.0 && c.burst >= 1
    ensures var (answer, n) := Perform(c, s, Request(KEY, at, at), evict);
            (answer == Some(true) <==> Available(c, s.limits, KEY, at) >= 1.0)
            && (answer == Some(true) ==>
                  KEY in n.limits && n.limits[KEY].last == at && n.lastGC == s.lastGC
                  && n.limits[KEY].bucket == Bucket(Available(c, s.limits, KEY, at) - 1.0, at)
                  && Available(c, n.limits, KEY, at) == Available(c, s.limits, KEY, at) - 1.0)
  {
    FreshIsFull(c, at, at);
    var e := EntryFor(c, s.limits, KEY, at);
    assert Level(c, e.bucket, at) == Available(c, s.limits, KEY, at);
    EmptyInterval(c, Bucket(Level(c, e.bucket, at) - 1.0, at), at);
  }

  /** A volley is admitted whole exactly when there are that many tokens. */
  lemma {:induction false} VolleyNeedsTokens(c: Config, s: State, at: real, n: nat, evict: bool)
    requires c.rate >= 0.0 && c.burst >= 1
    ensures Available(c, s.limits, KEY, at) >= n as real ==> Answers(c, s, Volley(at, n), evict) == Yes(n)
    ensures n >= 1 && Available(c, s.limits, KEY, at) < n as real ==> Answers(c, s, Volley(at, n), evict) != Yes(n)
    decreases n
  {
    if n > 0 {
      OneShot(c, s, at, evict);
      var (answer, next) := Perform(c, s, Request(KEY, at, at), evict);
      assert Volley(at, n)[0] == Request(KEY, at, at) && Volley(at, n)[1..] == Volley(at, n - 1);
      assert Yes(n)[0] == Some(true) && Yes(n)[1..] == Yes(n - 1);
      VolleyNeedsTokens(c, next, at, n - 1, evict);
      assert Answers(c, s, Volley(at, n), evict)[0] == answer;
      assert Answers(c, s, Volley(at, n), evict)[1..] == Answers(c, next, Volley(at, n - 1), evict);
    }
  }

  /** A whole volley leaves the bucket that much emptier, last used at its instant. */
  lemma {:induction false} VolleyDrains(c: Config, s: State, at: real, n: nat, evict: bool)
    requires c.rate >= 0.0 && c.burst >= 1 && n >= 1 && Available(c, s.limits, KEY, at) >= n as real
    ensures var f := Final(c, s, Volley(at, n), evict);
            f.lastGC == s.lastGC && KEY in f.limits
            && f.limits[KEY] == RateLimit.Entry(Bucket(Available(c, s.limits, KEY, at) - n as real, at), at)
    decreases n
  {
    OneShot(c, s, at, evict);
    var next := Perform(c, s, Request(KEY, at, at), evict).1;
    assert Volley(at, n)[0] == Request(KEY, at, at) && Volley(at, n)[1..] == Volley(at, n - 1);
    if n > 1 {
      VolleyDrains(c, next, at, n - 1, evict);
    } else {
      assert Volley(at, 0) == [];
    }
  }

  lemma {:induction false} AnswersConcat(c: Config, s: State, a: seq<Op>, b: seq<Op>, evict: bool)
    ensures Answers(c, s, a + b, evict) == Answers(c, s, a, evict) + Answers(c, Final(c, s, a, evict), b, evict)
    decreases |a|
  {
    if a == [] {
      assert a + b == b;
    } else {
      assert (a + b)[0] == a[0] && (a + b)[1..] == a[1..] + b;
      AnswersConcat(c, Perform(c, s, a[0], evict).1, a[1..], b, evict);
    }
  }

  /** Two volleys of the burst, and between them a sweep just late enough to evict. */
  function Trace(c: Config, late: real): seq<Op>
    requires c.burst >= 1
  {
    Volley(0.0, c.burst) + ([Sweep(late, late, late)] + Volley(late, c.burst))
  }

  lemma {:induction false} VolleyClocked(at: real, n: nat, t: real, rest: seq<Op>)
    requires t <= at && Clocked(rest, at, 0.0) && (n == 0 ==> Clocked(rest, t, 0.0))
    ensures Clocked(Volley(at, n) + rest, t, 0.0)
    decreases n
  {
    if n == 0 {
      assert Volley(at, 0) + rest == rest;
    } else {
      VolleyClocked(at, n - 1, at, rest);
      assert (Volley(at, n) + rest)[1..] == Volley(at, n - 1) + rest;
    }
  }

  lemma TraceClocked(c: Config, late: real, start: real)
    requires c.burst >= 1 && late >= 0.0 && start <= 0.0
    ensures Clocked(Trace(c, late), start, 0.0)
  {
    VolleyClocked(late, c.burst, late, []);
    assert Volley(late, c.burst) + [] == Volley(late, c.burst);
    var tail := [Sweep(late, late, late)] + Volley(late, c.burst);
    assert tail[1..] == Volley(late, c.burst);
    assert Clocked(tail, 0.0, 0.0);
    VolleyClocked(0.0, c.burst, start, tail);
  }

  /** The answers after the first volley, which empties the bucket in either case. */
  lemma SecondHalf(c: Config, late: real, start: real, evict: bool)
    requires c.rate >= 0.0 && c.burst >= 1 && late > c.ttl && late >= 0.0 && late - start > c.gcEvery
    requires Refill(c, 0.0, late) < c.burst as real
    ensures Answers(c, State(map[], start), Trace(c, late), evict)
         == Yes(c.burst) + ([None] + Answers(c, Swept(c, late, start, evict), Volley(late, c.burst), evict))
    ensures evict ==> Available(c, Swept(c, late, start, evict).limits, KEY, late) == c.burst as real
    ensures !evict ==> Available(c, Swept(c, late, start, evict).limits, KEY, late) < c.burst as real
  {
    var s := State(map[], start);
    VolleyNeedsTokens(c, s, 0.0, c.burst, evict);
    VolleyDrains(c, s, 0.0, c.burst, evict);
    AnswersConcat(c, s, Volley(0.0, c.burst), [Sweep(late, late, late)] + Volley(late, c.burst), evict);
    assert ([Sweep(late, late, late)] + Volley(late, c.burst))[1..] == Volley(late, c.burst);
  }

  ghost function Swept(c: Config, late: real, start: real, evict: bool): State
    requires c.burst >= 1
  {
    Perform(c, Final(c, State(map[], start), Volley(0.0, c.burst), evict), Sweep(late, late, late), evict).1
  }

  /** An instant after the TTL at which an empty bucket is still not full. */
  lemma StillFilling(c: Config) returns (late: real)
    requires c.rate >= 0.0 && c.ttl >= 0.0 && c.burst as real > Refill(c, 0.0, c.ttl)
    ensures late > c.ttl && Refill(c, 0.0, late) < c.burst as real
  {
    var gap := c.burst as real - Refill(c, 0.0, c.ttl);
    var step := gap / (c.rate + 1.0);
    assert step * (c.rate + 1.0) == gap;
    late := c.ttl + step;
    RefillAdds(c, 0.0, c.ttl, late);
    assert Refill(c, c.ttl, late) == c.rate * step;
  }

  ghost predicate Unobservable(c: Config)
  {
    forall ops, start | Clocked(ops, start, 0.0) ::
      Answers(c, State(map[], start), ops, true) == Answers(c, State(map[], start), ops, false)
  }

  lemma ShortTtlIsSeen(c: Config)
    requires c.rate >= 0.0 && c.burst >= 1 && c.ttl >= 0.0 && c.burst as real > Refill(c, 0.0, c.ttl)
    ensures !Unobservable(c)
  {
    var late := StillFilling(c);
    var start := if late - c.gcEvery - 1.0 < 0.0 then late - c.gcEvery - 1.0 else 0.0;
    TraceClocked(c, late, start);
    SecondHalf(c, late, start, true);
    SecondHalf(c, late, start, false);
    VolleyNeedsTokens(c, Swept(c, late, start, true), late, c.burst, true);
    VolleyNeedsTokens(c, Swept(c, late, start, false), late, c.burst, false);
    var a, b := Answers(c, Swept(c, late, start, true), Volley(late, c.burst), true),
                Answers(c, Swept(c, late, start, false), Volley(late, c.burst), false);
    var front := Yes(c.burst);
    assert (front + ([None] + a))[|front| + 1..] == a;
    assert (front + ([None] + b))[|front| + 1..] == b;
  }

  /** On a clock that does not go back, eviction is unobservable exactly when an empty bucket
      fills up within the TTL. */
  lemma UnobservableExactly(c: Config)
    requires c.rate >= 0.0 && c.burst >= 1 && c.ttl >= 0.0
    ensures Unobservable(c) <==> c.burst as real <= Refill(c, 0.0, c.ttl)
  {
    if c.burst as real <= Refill(c, 0.0, c.ttl) {
      forall ops, start | Clocked(ops, start, 0.0)
        ensures Answers(c, State(map[], start), ops, true) == Answers(c, State(map[], start), ops, false)
      {
        EvictionIsUnobservable(c, State(map[], start), State(map[], start), ops, start, 0.0);
      }
    } else {
      ShortTtlIsSeen(c);
    }
  }

  // ---------- The window bound ----------

  /** The answers within a window of a run from the empty table. */
  function WithinWindow(c: Config, before: seq<Op>, window: seq<Op>, start: real): (r: seq<Option<bool>>)
    ensures |r| == |window|
  {
    OneAnswerEach(c, State(map[], start), before + window, true);
    Answers(c, State(map[], start), before + window, true)[|before|..]
  }

  /** No window of any run admits a key more often than burst plus rate times its length. */
  ghost predicate KeepsToRate(c: Config)
  {
    forall before, window, start, key | window != [] && Clocked(before + window, start, 0.0) ::
      Admitted(key, window, WithinWindow(c, before, window, start)) as real
      <= c.burst as real + Refill(c, StartOf(window[0]), EndTime(window, start))
  }

  lemma AdmitsOne(op: Op, answer: Option<bool>, rest: seq<Op>, answers: seq<Option<bool>>)
    requires |rest| == |answers|
    ensures Admitted(KEY, [op] + rest, [answer] + answers) == Counts(KEY, op, answer) + Admitted(KEY, rest, answers)
  {
    assert ([op] + rest)[1..] == rest && ([answer] + answers)[1..] == answers;
  }

  lemma {:induction false} VolleySize(at: real, n: nat)
    ensures |Volley(at, n)| == |Yes(n)| == n
    decreases n
  {
    if n > 0 {
      VolleySize(at, n - 1);
    }
  }

  lemma {:induction false} VolleyAdmitted(at: real, n: nat, rest: seq<Op>, answers: seq<Option<bool>>)
    requires |rest| == |answers|
    ensures |Volley(at, n) + rest| == |Yes(n) + answers|
    ensures Admitted(KEY, Volley(at, n) + rest, Yes(n) + answers) == n + Admitted(KEY, rest, answers)
    decreases n
  {
    VolleySize(at, n);
    if n == 0 {
      assert Volley(at, 0) + rest == rest && Yes(0) + answers == answers;
    } else {
      VolleyAdmitted(at, n - 1, rest, answers);
      AdmitsOne(Request(KEY, at, at), Some(true), Volley(at, n - 1) + rest, Yes(n - 1) + answers);
      assert Volley(at, n) + rest == [Request(KEY, at, at)] + (Volley(at, n - 1) + rest);
      assert Yes(n) + answers == [Some(true)] + (Yes(n - 1) + answers);
    }
  }

  lemma {:induction false} VolleyEnds(at: real, n: nat, rest: seq<Op>, t: real)
    ensures EndTime(Volley(at, n) + rest, t) == EndTime(rest, if n == 0 then t else at)
    decreases n
  {
    if n == 0 {
      assert Volley(at, 0) + rest == rest;
    } else {
      VolleyEnds(at, n - 1, rest, at);
      assert (Volley(at, n) + rest)[1..] == Volley(at, n - 1) + rest;
    }
  }

  /** The trace lasts from the first volley to the second. */
  lemma TraceSpans(c: Config, late: real, start: real)
    requires c.burst >= 1
    ensures Trace(c, late) != [] && StartOf(Trace(c, late)[0]) == 0.0 && EndTime(Trace(c, late), start) == late
  {
    var tail := [Sweep(late, late, late)] + Volley(late, c.burst);
    VolleyEnds(0.0, c.burst, tail, start);
    assert tail[1..] == Volley(late, c.burst) + [];
    VolleyEnds(late, c.burst, [], late);
    assert Trace(c, late)[0] == Volley(0.0, c.burst)[0];
  }

  lemma TraceAdmits(c: Config, late: real)
    requires c.burst >= 1
    ensures |Trace(c, late)| == |Yes(c.burst) + ([None] + Yes(c.burst))|
    ensures Admitted(KEY, Trace(c, late), Yes(c.burst) + ([None] + Yes(c.burst))) == 2 * c.burst
  {
    var ops, answers := [Sweep(late, late, late)] + Volley(late, c.burst), [None] + Yes(c.burst);
    VolleyAdmitted(late, c.burst, [], []);
    assert ops[1..] == Volley(late, c.burst) + [] && answers[1..] == Yes(c.burst) + [];
    VolleyAdmitted(0.0, c.burst, ops, answers);
  }

  lemma ShortTtlBreaksRate(c: Config)
    requires c.rate >= 0.0 && c.burst >= 1 && c.ttl >= 0.0 && c.burst as real > Refill(c, 0.0, c.ttl)
    ensures !KeepsToRate(c)
  {
    var late := StillFilling(c);
    var start := if late - c.gcEvery - 1.0 < 0.0 then late - c.gcEvery - 1.0 else 0.0;
    var window := Trace(c, late);
    TraceClocked(c, late, start);
    SecondHalf(c, late, start, true);
    VolleyNeedsTokens(c, Swept(c, late, start, true), late, c.burst, true);
    TraceSpans(c, late, start);
    TraceAdmits(c, late);
    assert [] + window == window;
    assert WithinWindow(c, [], window, start) == Answers(c, State(map[], start), window, true);
    assert Admitted(KEY, window, WithinWindow(c, [], window, start)) == 2 * c.burst;
  }

  /** On a clock that does not go back, a key is admitted in every window at most burst plus rate
      times its length exactly when an empty bucket fills up within the TTL. */
  lemma WindowBoundExactly(c: Config)
    requires c.rate >= 0.0 && c.burst >= 1 && c.ttl >= 0.0
    ensures KeepsToRate(c) <==> c.burst as real <= Refill(c, 0.0, c.ttl)
  {
    if c.burst as real <= Refill(c, 0.0, c.ttl) {
      forall before, window, start, key | window != [] && Clocked(before + window, start, 0.0)
        ensures Admitted(key, window, WithinWindow(c, before, window, start)) as real
             <= c.burst as real + Refill(c, StartOf(window[0]), EndTime(window, start))
      {
        WindowBound(c, before, window, start, 0.0, key);
      }
    } else {
      ShortTtlBreaksRate(c);
    }
  }

  // ---------- What a client is granted ----------

  /** A key without a bucket is admitted at once exactly 30 times by the strict limiter and 60
      times by the standard one. */
  lemma ServerBurstExactly(c: Config, s: State, at: real, n: nat, evict: bool)
    requires (c == StrictConfig() || c == StandardConfig()) && KEY !in s.limits
    ensures Answers(c, s, Volley(at, n), evict) == Yes(n) <==> n <= if c == StrictConfig() then 30 else 60
  {
    VolleyNeedsTokens(c, s, at, n, evict);
  }

  /** Each request of the key comes after a token's time since the one before it. */
  predicate Paced(c: Config, ops: seq<Op>, key: string, last: real)
  {
    ops == []
    || (if ops[0].Request? && ops[0].key == key
        then Refill(c, last, ops[0].at) >= 1.0 && Paced(c, ops[1..], key, ops[0].at)
        else Paced(c, ops[1..], key, last))
  }

  /** From t on the key has at least what flowed in since then, up to the burst. */
  ghost predicate Holds(c: Config, limits: Limits, key: string, last: real, t: real)
  {
    forall at | at >= t :: Available(c, limits, key, at) >= Min(c.burst as real, Refill(c, last, at))
  }

  lemma OwnRequestIsAdmitted(c: Config, limits: Limits, key: string, now: real, at: real, last: real, t: real)
    requires c.rate >= 0.0 && c.burst >= 1 && t <= now <= at && Holds(c, limits, key, last, t)
    requires Refill(c, last, at) >= 1.0
    ensures Allowed(c, limits, key, now, at).0 && Holds(c, Allowed(c, limits, key, now, at).1, key, at, at)
  {
    FreshIsFull(c, now, at);
    assert Level(c, EntryFor(c, limits, key, now).bucket, at) == Available(c, limits, key, at);
  }

  lemma OtherRequestsLeaveIt(c: Config, limits: Limits, k: string, now: real, at: real, key: string, last: real,
                             t: real)
    requires k != key && t <= at && Holds(c, limits, key, last, t)
    ensures Holds(c, Allowed(c, limits, k, now, at).1, key, last, at)
  {
    var next := Allowed(c, limits, k, now, at).1;
    forall u | u >= at ensures Available(c, next, key, u) >= Min(c.burst as real, Refill(c, last, u)) {
      assert Available(c, next, key, u) == Available(c, limits, key, u);
    }
  }

  lemma SweepLeavesIt(c: Config, s: State, op: Op, key: string, last: real, t: real, delay: real)
    requires Refills(c, delay) && op.Sweep? && Clocked([op], t, delay) && Sound(s.limits, t, delay)
    requires Holds(c, s.limits, key, last, t)
    ensures Holds(c, Perform(c, s, op, true).1.limits, key, last, EndOf(op))
  {
    EvictionKeepsLevels(c, s.limits, op.now, t, delay);
    var next := Perform(c, s, op, true).1.limits;
    forall u | u >= EndOf(op) ensures Available(c, next, key, u) >= Min(c.burst as real, Refill(c, last, u)) {
      assert Available(c, next, key, u) == Available(c, s.limits, key, u);
    }
  }

  lemma {:induction false} PacedUpTo(c: Config, s: State, ops: seq<Op>, t: real, delay: real, key: string,
                                     last: real, i: nat)
    requires Refills(c, delay) && c.burst >= 1 && Clocked(ops, t, delay) && Sound(s.limits, t, delay)
    requires Holds(c, s.limits, key, last, t) && Paced(c, ops, key, last)
    requires i < |ops| && ops[i].Request? && ops[i].key == key
    ensures |Answers(c, s, ops, true)| == |ops| && Answers(c, s, ops, true)[i] == Some(true)
    decreases |ops|
  {
    OneAnswerEach(c, s, ops, true);
    var op, next := ops[0], Perform(c, s, ops[0], true).1;
    var own := op.Request? && op.key == key;
    StepKeepsSound(c, s, op, t, delay);
    if own {
      OwnRequestIsAdmitted(c, s.limits, key, op.now, op.at, last, t);
    } else if op.Request? {
      OtherRequestsLeaveIt(c, s.limits, op.key, op.now, op.at, key, last, t);
    } else {
      SweepLeavesIt(c, s, op, key, last, t, delay);
    }
    if i > 0 {
      PacedUpTo(c, next, ops[1..], EndOf(op), delay, key, if own then op.at else last, i - 1);
      assert Answers(c, s, ops, true)[i] == Answers(c, next, ops[1..], true)[i - 1];
    }
  }

  /** A client that keeps to the rate, at most one request every two seconds for the strict
      limiter and every half second for the standard one, is never refused, whatever the others
      do and however often its bucket is evicted. */
  lemma ServerPacedIsAdmitted(c: Config, ops: seq<Op>, start: real, key: string, i: nat)
    requires c == StrictConfig() || c == StandardConfig()
    requires Clocked(ops, start, 540.0) && IsPaced(ops, key, if c == StrictConfig() then 2.0 else 0.5)
    requires i < |ops| && ops[i].Request? && ops[i].key == key
    ensures |Answers(c, State(map[], start), ops, true)| == |ops|
    ensures Answers(c, State(map[], start), ops, true)[i] == Some(true)
  {
    ConfiguredLimitersRefill();
    var long := FirstAt(ops, key) - 1000.0;
    FirstIsPaced(c, ops, key, long);
    PacedUpTo(c, State(map[], start), ops, start, 540.0, key, long, i);
  }

  /** Any two requests of the key are so many seconds apart. */
  predicate IsPaced(ops: seq<Op>, key: string, seconds: real)
  {
    forall i, k | 0 <= i < k < |ops| && ops[i].Request? && ops[k].Request? && ops[i].key == key && ops[k].key == key ::
      ops[k].at - ops[i].at >= seconds
  }

  function FirstAt(ops: seq<Op>, key: string): real
  {
    if ops == [] then 0.0
    else if ops[0].Request? && ops[0].key == key then ops[0].at else FirstAt(ops[1..], key)
  }

  lemma RestIsPaced(ops: seq<Op>, key: string, seconds: real)
    requires ops != [] && IsPaced(ops, key, seconds)
    ensures IsPaced(ops[1..], key, seconds)
  {
    var rest := ops[1..];
    forall i, k | 0 <= i < k < |rest| && rest[i].Request? && rest[k].Request?
                  && rest[i].key == key && rest[k].key == key
      ensures rest[k].at - rest[i].at >= seconds
    {
      assert rest[i] == ops[i + 1] && rest[k] == ops[k + 1];
    }
  }

  lemma {:induction false} FirstIsPaced(c: Config, ops: seq<Op>, key: string, last: real)
    requires c == StrictConfig() || c == StandardConfig()
    requires IsPaced(ops, key, if c == StrictConfig() then 2.0 else 0.5) && FirstAt(ops, key) - last >= 2.0
    ensures Paced(c, ops, key, last)
    decreases |ops|
  {
    if ops != [] {
      RestIsPaced(ops, key, if c == StrictConfig() then 2.0 else 0.5);
      if ops[0].Request? && ops[0].key == key {
        NextIsPaced(c, ops[1..], key, ops[0].at);
      } else {
        FirstIsPaced(c, ops[1..], key, last);
      }
    }
  }

  lemma {:induction false} NextIsPaced(c: Config, rest: seq<Op>, key: string, last: real)
    requires c == StrictConfig() || c == StandardConfig()
    requires IsPaced(rest, key, if c == StrictConfig() then 2.0 else 0.5)
    requires forall k | 0 <= k < |rest| && rest[k].Request? && rest[k].key == key ::
               rest[k].at - last >= if c == StrictConfig() then 2.0 else 0.5
    ensures Paced(c, rest, key, last)
    decreases |rest|
  {
    if rest != [] {
      var more := rest[1..];
      RestIsPaced(rest, key, if c == StrictConfig() then 2.0 else 0.5);
      assert forall k | 0 <= k < |more| :: more[k] == rest[k + 1];
      NextIsPaced(c, more, key, if rest[0].Request? && rest[0].key == key then rest[0].at else last);
    }
  }
}
