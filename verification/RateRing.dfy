/** The ten-bucket sliding window behind `eventsPerSec` (web/broker/broker.go).
    The ring is updated in place; what it stands for is a log holding, for every recorded
    event, how far the clock has moved forward since that event arrived. */
module RateRing {
  import opened Words

  const WINDOW: nat := 10

  type int64 = x: int | -TWO_63 <= x < TWO_63
  type uint64 = x: int | 0 <= x < TWO_64

  /** Go's `a - b` on int64: the difference, wrapped into range. */
  function Sub64(a: int64, b: int64): (d: int64)
    ensures (d - (a - b)) % TWO_64 == 0
    ensures -TWO_63 <= a - b < TWO_63 ==> d == a - b
  {
    var d := a - b;
    if d >= TWO_63 then d - TWO_64 else if d < -TWO_63 then d + TWO_64 else d
  }

  /** How far the clock moves forward on a call at `now`; an anchor of 0 means "no event yet". */
  function Forward(anchor: int64, now: int64): nat {
    if anchor == 0 || Sub64(now, anchor) < 0 then 0 else Sub64(now, anchor)
  }

  // ----- The event log that the ring refines -----

  /** `ages[i]` is the forward clock movement since event `i` arrived. */
  datatype Log = Log(anchor: int64, ages: seq<nat>)

  function Older(ages: seq<nat>, d: nat): (r: seq<nat>)
    ensures |r| == |ages| && forall i | 0 <= i < |ages| :: r[i] == ages[i] + d
  {
    seq(|ages|, i requires 0 <= i < |ages| => ages[i] + d)
  }

  /** The number of events whose age lies in [lo, hi). */
  function Aged(ages: seq<nat>, lo: int, hi: int): nat {
    if ages == [] then 0
    else (if lo <= ages[|ages| - 1] < hi then 1 else 0) + Aged(ages[..|ages| - 1], lo, hi)
  }

  function Bumped(log: Log, now: int64): Log {
    Log(now, Older(log.ages, Forward(log.anchor, now)) + [0])
  }

  function Ticked(log: Log, now: int64): Log {
    if log.anchor == 0 then log else Log(now, Older(log.ages, Forward(log.anchor, now)))
  }

  /** What a read at `now` must answer. */
  function Answer(log: Log, now: int64): nat {
    if log.anchor == 0 then 0 else Aged(Ticked(log, now).ages, 0, WINDOW)
  }

  lemma {:induction false} AgedOlder(ages: seq<nat>, d: nat, lo: int, hi: int)
    ensures Aged(Older(ages, d), lo, hi) == Aged(ages, lo - d, hi - d)
    decreases |ages|
  {
    if ages == [] {
    } else {
      var n := |ages| - 1;
      assert Older(ages, d)[..n] == Older(ages[..n], d);
      AgedOlder(ages[..n], d, lo, hi);
    }
  }

  lemma {:induction false} AgedSplit(ages: seq<nat>, lo: int, mid: int, hi: int)
    requires lo <= mid <= hi
    ensures Aged(ages, lo, hi) == Aged(ages, lo, mid) + Aged(ages, mid, hi)
    decreases |ages|
  {
    if ages == [] {
    } else {
      AgedSplit(ages[..|ages| - 1], lo, mid, hi);
    }
  }

  lemma {:induction false} NoneNegative(ages: seq<nat>, lo: int, hi: int)
    requires hi <= 0
    ensures Aged(ages, lo, hi) == 0
    decreases |ages|
  {
    if ages == [] {
    } else {
      NoneNegative(ages[..|ages| - 1], lo, hi);
    }
  }

  // ----- The ring -----

  /** What bucket `k` holds: the number of events of age `9 - k`, modulo the uint64 width. */
  function Bucket(ages: seq<nat>, k: int): uint64 {
    Aged(ages, WINDOW - 1 - k, WINDOW - k) % TWO_64
  }

  ghost predicate Counts(buckets: seq<uint64>, ages: seq<nat>) {
    |buckets| == WINDOW && forall k | 0 <= k < WINDOW :: buckets[k] == Bucket(ages, k)
  }

  /** The ring shifted left by `d`, with empty buckets entering on the right. */
  function Shifted(buckets: seq<uint64>, d: nat): (r: seq<uint64>)
    ensures |r| == |buckets|
  {
    seq(|buckets|, k requires 0 <= k < |buckets| => if k + d < |buckets| then buckets[k + d] else 0)
  }

  lemma ShiftedTwice(buckets: seq<uint64>, d: nat, e: nat)
    ensures Shifted(Shifted(buckets, d), e) == Shifted(buckets, d + e)
  {
  }

  lemma BucketOlder(ages: seq<nat>, d: nat, k: nat)
    requires k < WINDOW
    ensures Bucket(Older(ages, d), k) == if k + d < WINDOW then Bucket(ages, k + d) else 0
  {
    AgedOlder(ages, d, WINDOW - 1 - k, WINDOW - k);
    if k + d >= WINDOW {
      NoneNegative(ages, WINDOW - 1 - k - d, WINDOW - k - d);
    }
  }

  lemma BucketBumped(ages: seq<nat>, k: nat)
    requires k < WINDOW
    ensures Bucket(ages + [0], k) == if k == WINDOW - 1 then (Bucket(ages, k) + 1) % TWO_64 else Bucket(ages, k)
  {
    assert (ages + [0])[..|ages|] == ages;
  }

  /** Shifting the ring is ageing the log, also past the end of the window. */
  lemma ShiftedCounts(buckets: seq<uint64>, ages: seq<nat>, d: nat)
    requires Counts(buckets, ages)
    ensures Counts(Shifted(buckets, d), Older(ages, d))
  {
    forall k | 0 <= k < WINDOW
      ensures Shifted(buckets, d)[k] == Bucket(Older(ages, d), k)
    {
      BucketOlder(ages, d, k);
    }
  }

  lemma BumpedCounts(buckets: seq<uint64>, ages: seq<nat>)
    requires Counts(buckets, ages)
    ensures Counts(buckets[WINDOW - 1 := (buckets[WINDOW - 1] + 1) % TWO_64], ages + [0])
  {
    forall k | 0 <= k < WINDOW
      ensures buckets[WINDOW - 1 := (buckets[WINDOW - 1] + 1) % TWO_64][k] == Bucket(ages + [0], k)
    {
      BucketBumped(ages, k);
    }
  }

  lemma AddResidues(x: nat, y: nat)
    ensures (x % TWO_64 + y % TWO_64) % TWO_64 == (x + y) % TWO_64
  {
    var p, q := x / TWO_64, y / TWO_64;
    assert x + y == (x % TWO_64 + y % TWO_64) + (p + q) * TWO_64;
  }

  /** One step of summing the ring from the left. */
  lemma AddBucket(ages: seq<nat>, k: nat, sum: uint64)
    requires k < WINDOW && sum == Aged(ages, WINDOW - k, WINDOW) % TWO_64
    ensures (sum + Bucket(ages, k)) % TWO_64 == Aged(ages, WINDOW - (k + 1), WINDOW) % TWO_64
  {
    AgedSplit(ages, WINDOW - 1 - k, WINDOW - k, WINDOW);
    AddResidues(Aged(ages, WINDOW - k, WINDOW), Aged(ages, WINDOW - 1 - k, WINDOW - k));
  }

  class Ring {
    const rateBuckets: array<uint64>
    var rateAnchor: int64
    ghost var log: Log

    ghost predicate Valid()
      reads this, rateBuckets
    {
      rateBuckets.Length == WINDOW && log.anchor == rateAnchor && Counts(rateBuckets[..], log.ages)
    }

    constructor ()
      ensures Valid() && fresh(rateBuckets) && log == Log(0, [])
    {
      rateBuckets := new uint64[WINDOW](_ => 0);
      rateAnchor := 0;
      log := Log(0, []);
    }

    /** `copy(buckets[:], buckets[1:])` followed by clearing the last bucket. */
    method Shift()
      requires rateBuckets.Length == WINDOW
      modifies rateBuckets
      ensures rateBuckets[..] == Shifted(old(rateBuckets[..]), 1)
    {
      for k := 0 to WINDOW - 1
        invariant forall j | 0 <= j < k :: rateBuckets[j] == old(rateBuckets[j + 1])
        invariant forall j | k <= j < WINDOW :: rateBuckets[j] == old(rateBuckets[j])
      {
        rateBuckets[k] := rateBuckets[k + 1];
      }
      rateBuckets[WINDOW - 1] := 0;
    }

    method Clear()
      requires rateBuckets.Length == WINDOW
      modifies rateBuckets
      ensures forall k | 0 <= k < WINDOW :: rateBuckets[k] == 0
    {
      for k := 0 to WINDOW
        invariant forall j | 0 <= j < k :: rateBuckets[j] == 0
      {
        rateBuckets[k] := 0;
      }
    }

    /** Ages the ring by `delta`: a full reset when everything has left the window. */
    method Advance(delta: int)
      requires rateBuckets.Length == WINDOW
      modifies rateBuckets
      ensures rateBuckets[..] == Shifted(old(rateBuckets[..]), if delta < 0 then 0 else delta)
    {
      if delta >= WINDOW {
        Clear();
      } else {
        var i := 0;
        while i < delta
          invariant 0 <= i && (i <= delta || i == 0)
          invariant rateBuckets[..] == Shifted(old(rateBuckets[..]), i)
        {
          Shift();
          ShiftedTwice(old(rateBuckets[..]), i, 1);
          i := i + 1;
        }
      }
    }

    /** Records one event at `now`. */
    method BumpRate(now: int64)
      requires Valid()
      modifies this, rateBuckets
      ensures Valid()
      ensures log == Bumped(old(log), now)
    {
      if rateAnchor == 0 {
        rateAnchor := now;
      }
      var delta := Sub64(now, rateAnchor);
      if delta < 0 {
        delta := 0;
      }
      ShiftedCounts(rateBuckets[..], log.ages, delta);
      BumpedCounts(Shifted(rateBuckets[..], delta), Older(log.ages, delta));
      Advance(delta);
      rateAnchor := now;
      rateBuckets[WINDOW - 1] := (rateBuckets[WINDOW - 1] + 1) % TWO_64;
      log := Bumped(log, now);
    }

    /** Answers how many recorded events are less than ten seconds of clock movement old. */
    method RateSnapshot(now: int64) returns (sum: uint64)
      requires Valid()
      modifies this, rateBuckets
      ensures Valid()
      ensures log == Ticked(old(log), now)
      ensures sum == Answer(old(log), now) % TWO_64
    {
      if rateAnchor == 0 {
        return 0;
      }
      var delta := Sub64(now, rateAnchor);
      ghost var d: nat := if delta < 0 then 0 else delta;
      ShiftedCounts(rateBuckets[..], log.ages, d);
      Advance(delta);
      log := Ticked(log, now);
      rateAnchor := now;
      assert Counts(rateBuckets[..], log.ages);
      if delta >= WINDOW {
        AgedOlder(old(log).ages, d, 0, WINDOW);
        NoneNegative(old(log).ages, 0 - d, WINDOW - d);
        return 0;
      }
      sum := 0;
      AgedSplit(log.ages, WINDOW, WINDOW, WINDOW);
      for k := 0 to WINDOW
        invariant Valid() && log == Ticked(old(log), now)
        invariant sum == Aged(log.ages, WINDOW - k, WINDOW) % TWO_64
      {
        AddBucket(log.ages, k, sum);
        sum := (sum + rateBuckets[k]) % TWO_64;
      }
    }
  }

  // ----- Whole runs of calls -----

  datatype Call = Bump(now: int64) | Read(now: int64)

  function After(calls: seq<Call>): Log {
    if calls == [] then Log(0, [])
    else
      var log := After(calls[..|calls| - 1]);
      match calls[|calls| - 1]
      case Bump(now) => Bumped(log, now)
      case Read(now) => Ticked(log, now)
  }

  /** The arrival times of the recorded events. */
  function Arrivals(calls: seq<Call>): seq<int64> {
    if calls == [] then []
    else
      var rest := Arrivals(calls[..|calls| - 1]);
      if calls[|calls| - 1].Bump? then rest + [calls[|calls| - 1].now] else rest
  }

  /** How many of `times` lie in the half-open interval (now - 10, now]. */
  function InWindow(times: seq<int64>, now: int): nat {
    if times == [] then 0
    else (if now - 10 < times[|times| - 1] <= now then 1 else 0) + InWindow(times[..|times| - 1], now)
  }

  /** How far a clock moves forward between two readings; a difference too large for int64 wraps. */
  function Ahead(a: int64, b: int64): nat {
    if b - a >= TWO_63 then 0
    else if b - a < -TWO_63 then b - a + TWO_64
    else if b < a then 0
    else b - a
  }

  /** The forward movement of the clock from call `m` to the last call, step by step. */
  function Elapsed(calls: seq<Call>, m: nat): nat {
    if m + 1 >= |calls| then 0
    else Elapsed(calls[..|calls| - 1], m) + Ahead(calls[|calls| - 2].now, calls[|calls| - 1].now)
  }

  lemma {:induction false} OneAgePerArrival(calls: seq<Call>)
    ensures |After(calls).ages| == |Arrivals(calls)|
    decreases |calls|
  {
    if calls == [] {
    } else {
      OneAgePerArrival(calls[..|calls| - 1]);
    }
  }

  lemma AheadIsForward(a: int64, b: int64)
    requires a != 0
    ensures Forward(a, b) == Ahead(a, b)
  {
  }

  /** Whatever the clock does, forwards, backwards or round the end of its range, as long as it never
      shows second 0: the age of an event is the forward movement of the clock since it was recorded,
      and the anchor is the last reading. */
  lemma {:induction false} AgesAreElapsed(calls: seq<Call>, m: nat)
    requires m < |calls| && calls[m].Bump? && forall i | 0 <= i < |calls| :: calls[i].now != 0
    ensures var i := |Arrivals(calls[..m])|;
      && i < |After(calls).ages| && After(calls).ages[i] == Elapsed(calls, m)
      && After(calls).anchor == calls[|calls| - 1].now
    decreases |calls|
  {
    var n := |calls| - 1;
    var front := calls[..n];
    OneAgePerArrival(front);
    if m == n {
    } else {
      assert front[..m] == calls[..m];
      AgesAreElapsed(front, m);
      AheadIsForward(calls[n - 1].now, calls[n].now);
    }
  }

  /** A clock that never goes back and spans less than the int64 range. */
  ghost predicate Forwards(calls: seq<Call>) {
    forall i, j | 0 <= i <= j < |calls| :: 0 <= calls[j].now - calls[i].now < TWO_63
  }

  /** Whenever a call is made at clock second 0, no recorded event is in the window: not one recorded by
      that call, nor, on a clock that came from below 0, one recorded in the ten seconds before. */
  ghost predicate ZeroUnseen(calls: seq<Call>) {
    forall m | 0 <= m < |calls| && calls[m].now == 0 :: InWindow(Arrivals(calls[..m + 1]), 0) == 0
  }

  lemma {:induction false} NoneInWindow(times: seq<int64>, now: int)
    requires InWindow(times, now) == 0
    ensures forall i | 0 <= i < |times| :: !(now - WINDOW < times[i] <= now)
    decreases |times|
  {
    if times == [] {
    } else {
      NoneInWindow(times[..|times| - 1], now);
    }
  }

  /** Two ages that count alike: equal, or both out of the window. */
  predicate Alike(a: int, b: int) {
    a == b || (a >= WINDOW && b >= WINDOW)
  }

  /** An event's age stands for the time from its arrival to `now`. Without an anchor all are old. */
  ghost predicate AgesTell(log: Log, times: seq<int64>, now: int) {
    && |log.ages| == |times|
    && (forall i | 0 <= i < |times| :: times[i] <= now && Alike(log.ages[i], now - times[i]))
    && (if log.anchor == 0 then forall i | 0 <= i < |times| :: log.ages[i] >= WINDOW && now - times[i] >= WINDOW
        else log.anchor == now)
  }

  lemma AgesTellNext(log: Log, times: seq<int64>, before: int64, call: Call)
    requires AgesTell(log, times, before) && 0 <= call.now - before < TWO_63
    requires call.now == 0 ==> InWindow(if call.Bump? then times + [call.now] else times, 0) == 0
    ensures AgesTell(if call.Bump? then Bumped(log, call.now) else Ticked(log, call.now),
                     if call.Bump? then times + [call.now] else times, call.now)
  {
    if call.now == 0 && call.Read? {
      NoneInWindow(times, 0);
    }
    if log.anchor != 0 {
      assert Forward(log.anchor, call.now) == call.now - before;
    }
  }

  lemma ZeroUnseenAtLast(calls: seq<Call>)
    requires ZeroUnseen(calls) && calls != []
    ensures calls[|calls| - 1].now == 0 ==> InWindow(Arrivals(calls), 0) == 0
  {
    assert calls[..|calls|] == calls;
  }

  lemma ForwardsPrefix(calls: seq<Call>, k: nat)
    requires Forwards(calls) && 0 < k < |calls|
    ensures Forwards(calls[..k]) && 0 <= calls[k].now - calls[k - 1].now < TWO_63
  {
  }

  lemma {:induction false} AgesTellTime(calls: seq<Call>)
    requires Forwards(calls) && ZeroUnseen(calls) && calls != []
    ensures AgesTell(After(calls), Arrivals(calls), calls[|calls| - 1].now)
    decreases |calls|
  {
    var n := |calls| - 1;
    var front, last := calls[..n], calls[n];
    ZeroUnseenAtLast(calls);
    if front == [] {
      AgesTellNext(Log(0, []), [], last.now, last);
    } else {
      ZeroUnseenPrefix(calls, n);
      ForwardsPrefix(calls, n);
      AgesTellTime(front);
      AgesTellNext(After(front), Arrivals(front), calls[n - 1].now, last);
    }
  }

  lemma ZeroUnseenPrefix(calls: seq<Call>, k: nat)
    requires ZeroUnseen(calls) && k <= |calls|
    ensures ZeroUnseen(calls[..k])
  {
    forall m | 0 <= m < k && calls[..k][m].now == 0 ensures InWindow(Arrivals(calls[..k][..m + 1]), 0) == 0 {
      assert calls[..k][..m + 1] == calls[..m + 1];
    }
  }

  lemma {:induction false} WindowFromAges(ages: seq<nat>, times: seq<int64>, now: int)
    requires |ages| == |times| && forall i | 0 <= i < |ages| :: Alike(ages[i], now - times[i])
    ensures Aged(ages, 0, WINDOW) == InWindow(times, now)
    decreases |ages|
  {
    if ages == [] {
    } else {
      WindowFromAges(ages[..|ages| - 1], times[..|ages| - 1], now);
    }
  }

  lemma {:induction false} AllOld(times: seq<int64>, now: int)
    requires forall i | 0 <= i < |times| :: now - times[i] >= WINDOW
    ensures InWindow(times, now) == 0
    decreases |times|
  {
    if times == [] {
    } else {
      AllOld(times[..|times| - 1], now);
    }
  }

  /** A read made after `calls` answers the number of events that arrived in the ten seconds up to it. */
  ghost predicate Exact(calls: seq<Call>, now: int64) {
    Answer(After(calls), now) == InWindow(Arrivals(calls), now)
  }

  /** So does every read, after any run of recordings and reads on a clock that goes forwards and is
      unseen at second 0. */
  lemma ReadCountsTrailingWindow(calls: seq<Call>, now: int64)
    requires Forwards(calls + [Read(now)]) && ZeroUnseen(calls)
    ensures Exact(calls, now)
  {
    if calls == [] {
    } else {
      var all, log, times := calls + [Read(now)], After(calls), Arrivals(calls);
      var last := calls[|calls| - 1].now;
      assert forall i | 0 <= i < |calls| :: calls[i] == all[i];
      assert all[|calls|].now - all[|calls| - 1].now == now - last;
      AgesTellTime(calls);
      if log.anchor == 0 {
        AllOld(times, now);
      } else {
        assert Forward(log.anchor, now) == now - last;
        WindowFromAges(Ticked(log, now).ages, times, now);
      }
    }
  }

  /** Reading is observationally pure: two runs that recorded the same events give the same
      answer, however many reads either of them contains and wherever those reads stand. */
  lemma ReadsDoNotDisturb(calls: seq<Call>, others: seq<Call>, now: int64)
    requires Forwards(calls + [Read(now)]) && ZeroUnseen(calls)
    requires Forwards(others + [Read(now)]) && ZeroUnseen(others)
    requires Arrivals(calls) == Arrivals(others)
    ensures Answer(After(calls), now) == Answer(After(others), now)
  {
    ReadCountsTrailingWindow(calls, now);
    ReadCountsTrailingWindow(others, now);
  }

  // ----- Clock second 0 -----

  /** A read at `now` can stand right after the first `k` calls. */
  ghost predicate Fits(calls: seq<Call>, k: nat, now: int64) {
    && k <= |calls| && Forwards(calls[..k] + [Read(now)])
    && (k < |calls| ==> now <= calls[k].now)
  }

  ghost predicate ReadsExact(calls: seq<Call>) {
    forall k: nat, now: int64 | Fits(calls, k, now) :: Exact(calls[..k], now)
  }

  /** Exactly that is needed: on a clock that goes forwards, every read at every point of a run is exact
      if and only if second 0 is never seen with an event in the window. */
  lemma ReadsExactIff(calls: seq<Call>)
    requires Forwards(calls)
    ensures ReadsExact(calls) <==> ZeroUnseen(calls)
  {
    if ZeroUnseen(calls) {
      forall k: nat, now: int64 | Fits(calls, k, now) ensures Exact(calls[..k], now) {
        ZeroUnseenPrefix(calls, k);
        ReadCountsTrailingWindow(calls[..k], now);
      }
    } else {
      var m :| 0 <= m < |calls| && calls[m].now == 0 && InWindow(Arrivals(calls[..m + 1]), 0) != 0;
      var seen := calls[..m + 1];
      assert seen[..m] == calls[..m] && seen[m] == calls[m];
      assert After(seen).anchor == 0;
      assert Fits(calls, m + 1, 0) && !Exact(seen, 0);
    }
  }

  lemma {:induction false} ArrivalIsCall(calls: seq<Call>, time: int64) returns (m: nat)
    requires time in Arrivals(calls)
    ensures m < |calls| && calls[m] == Bump(time)
    decreases |calls|
  {
    m := |calls| - 1;
    if calls[m] != Bump(time) {
      m := ArrivalIsCall(calls[..m], time);
    }
  }

  lemma {:induction false} CallIsArrival(calls: seq<Call>, m: nat)
    requires m < |calls| && calls[m].Bump?
    ensures calls[m].now in Arrivals(calls)
    decreases |calls|
  {
    if m == |calls| - 1 {
    } else {
      CallIsArrival(calls[..|calls| - 1], m);
    }
  }

  lemma {:induction false} SomeInWindow(times: seq<int64>, now: int) returns (i: nat)
    requires InWindow(times, now) != 0
    ensures i < |times| && now - WINDOW < times[i] <= now
    decreases |times|
  {
    i := |times| - 1;
    if !(now - WINDOW < times[i] <= now) {
      i := SomeInWindow(times[..i], now);
    }
  }

  lemma NoZeroArrival(calls: seq<Call>, m: nat)
    requires m <= |calls| && (forall i | 0 <= i < |calls| :: calls[i].now >= 0) && 0 !in Arrivals(calls)
    ensures InWindow(Arrivals(calls[..m]), 0) == 0
  {
    var seen := calls[..m];
    if InWindow(Arrivals(seen), 0) != 0 {
      var i := SomeInWindow(Arrivals(seen), 0);
      var n := ArrivalIsCall(seen, Arrivals(seen)[i]);
      assert calls[n] == seen[n];
      CallIsArrival(calls, n);
    }
  }

  lemma ZeroArrival(calls: seq<Call>)
    requires 0 in Arrivals(calls)
    ensures !ZeroUnseen(calls)
  {
    var m := ArrivalIsCall(calls, 0);
    var seen := calls[..m + 1];
    assert seen[m] == calls[m];
    assert InWindow(Arrivals(seen), 0) != 0;
  }

  /** On the wall clock, which does not show seconds before 0: every read at every point is exact if and
      only if no event is recorded at second 0. Reads at second 0 do no harm. */
  lemma WallClockExactIff(calls: seq<Call>)
    requires Forwards(calls) && forall i | 0 <= i < |calls| :: calls[i].now >= 0
    ensures ReadsExact(calls) <==> 0 !in Arrivals(calls)
  {
    ReadsExactIff(calls);
    if 0 in Arrivals(calls) {
      ZeroArrival(calls);
    } else {
      forall m | 0 <= m < |calls| && calls[m].now == 0 ensures InWindow(Arrivals(calls[..m + 1]), 0) == 0 {
        NoZeroArrival(calls, m + 1);
      }
    }
  }

  lemma TwoBumps(s: int64, t: int64)
    ensures After([Bump(s), Bump(t)]) == Bumped(Bumped(Log(0, []), s), t)
    ensures Arrivals([Bump(s), Bump(t)]) == [s, t]
  {
    var none: seq<Call> := [];
    var one, two := [Bump(s)], [Bump(s), Bump(t)];
    assert one[..0] == none && two[..1] == one;
    assert Arrivals(none) == [] && Arrivals(one) == [s];
    assert After(none) == Log(0, []) && After(one) == Bumped(Log(0, []), s);
  }

  lemma TwoAges(a: nat, b: nat, lo: int, hi: int)
    ensures Aged([a, b], lo, hi) == (if lo <= a < hi then 1 else 0) + (if lo <= b < hi then 1 else 0)
  {
    var one: seq<nat>, two: seq<nat> := [a], [a, b];
    assert one[..0] == [] && two[..1] == one;
    assert Aged(one, lo, hi) == (if lo <= a < hi then 1 else 0);
  }

  lemma TwoTimes(s: int64, t: int64, now: int)
    ensures InWindow([s, t], now)
         == (if now - WINDOW < s <= now then 1 else 0) + (if now - WINDOW < t <= now then 1 else 0)
  {
    var one: seq<int64>, two: seq<int64> := [s], [s, t];
    assert one[..0] == [] && two[..1] == one;
    assert InWindow(one, now) == (if now - WINDOW < s <= now then 1 else 0);
  }

  /** A clock reading of 0 collides with the "no event yet" mark: an event recorded at second 0
      never leaves the window before the clock moves on from the next recording. */
  lemma ZeroClockMiscounts(t: int64)
    requires t >= WINDOW
    ensures Answer(After([Bump(0), Bump(t)]), t) == 2
    ensures InWindow(Arrivals([Bump(0), Bump(t)]), t) == 1
  {
    TwoBumps(0, t);
    TwoTimes(0, t, t);
    var log := After([Bump(0), Bump(t)]);
    assert log.ages == [0, 0];
    assert Ticked(log, t).ages == [0, 0];
    TwoAges(0, 0, 0, WINDOW);
  }
}
