/** The rate limiter for recurring diagnostics (src/daemon.rs): every `interval` occurrences, and not too often. */
module LimiterSpec {
  import opened Prelude

  datatype LimiterState = LimiterState(
    interval: nat,
    minGap: nat,
    occurrences: u64,
    emitted: u64,
    lastKey: Option<nat>,
    lastEmittedAt: Option<nat>)

  function NewLimiter(interval: nat, minGap: nat): LimiterState {
    LimiterState(interval, minGap, 0, 0, None, None)
  }

  predicate MultipleOf(n: nat, interval: nat) {
    if interval == 0 then n == 0 else n % interval == 0
  }

  /** A new key forgets the previous one's suppression. */
  function ForKey(s: LimiterState, key: nat): LimiterState {
    if s.lastKey == Some(key) then s
    else s.(occurrences := 0, emitted := 0, lastKey := Some(key), lastEmittedAt := None)
  }

  datatype Recorded = Recorded(s: LimiterState, suppressed: Option<u64>)

  function Record(s: LimiterState, key: nat, now: nat): Recorded {
    var s := ForKey(s, key);
    var n: u64 := SaturatingAdd(s.occurrences, 1);
    var countDue := MultipleOf(n - 1, s.interval);
    var timeDue := s.lastEmittedAt.None? || Max(0, now - s.lastEmittedAt.value) >= s.minGap;
    if n == 1 || (countDue && timeDue) then
      Recorded(s.(occurrences := n, emitted := n, lastEmittedAt := Some(now)), Some(Max(0, n - Bump(s.emitted))))
    else
      Recorded(s.(occurrences := n), None)
  }

  // ---------------------------------------------------------------- a long failure

  /** What a run of occurrences produced: how many emissions, their suppressed counts, and when. */
  datatype Tally = Tally(emissions: nat, suppressed: nat, firstAt: nat, lastAt: nat)

  function Count(t: Tally, r: Recorded, now: nat): Tally {
    if r.suppressed.None? then t
    else Tally(t.emissions + 1, t.suppressed + r.suppressed.value, if t.emissions == 0 then now else t.firstAt, now)
  }

  datatype LimiterRun = LimiterRun(s: LimiterState, tally: Tally)

  /** The same failure at each of `times`. */
  function Repeat(s: LimiterState, key: nat, times: seq<nat>): LimiterRun {
    if times == [] then LimiterRun(s, Tally(0, 0, 0, 0))
    else
      var before := Repeat(s, key, times[..|times| - 1]);
      var now := times[|times| - 1];
      var r := Record(before.s, key, now);
      LimiterRun(r.s, Count(before.tally, r, now))
  }

  ghost predicate NonDecreasing(times: seq<nat>) {
    forall i, j :: 0 <= i < j < |times| ==> times[i] <= times[j]
  }

  ghost predicate RunOk(first: LimiterState, key: nat, times: seq<nat>, r: LimiterRun) {
    && r.s.interval == first.interval && r.s.minGap == first.minGap
    && (times != [] ==>
          && r.s.occurrences == |times| && r.s.lastKey == Some(key) && r.s.lastEmittedAt == Some(r.tally.lastAt)
          && 1 <= r.s.emitted <= |times|
          && MultipleOf(r.s.emitted - 1, first.interval)
          && r.tally.emissions >= 1
          && r.tally.emissions + r.tally.suppressed == r.s.emitted
          && (r.tally.emissions - 1) * first.interval <= r.s.emitted - 1
          && (r.tally.emissions - 1) * first.minGap <= r.tally.lastAt - r.tally.firstAt
          && r.tally.firstAt == times[0] && r.tally.lastAt <= times[|times| - 1])
  }

  lemma {:induction false} MulMonotone(x: nat, y: nat, k: nat)
    requires x <= y
    ensures x * k <= y * k
  {
    if x < y {
      MulMonotone(x, y - 1, k);
      assert y * k == (y - 1) * k + k;
    }
  }

  lemma Quotient(a: nat, interval: nat) returns (q: nat)
    requires interval > 0 && a % interval == 0
    ensures a == q * interval
  {
    q := a / interval;
  }

  /** Two multiples of the interval that differ are at least one interval apart. */
  lemma MultiplesApart(a: nat, b: nat, interval: nat)
    requires MultipleOf(a, interval) && MultipleOf(b, interval) && a < b
    ensures b >= a + interval
  {
    if interval > 0 {
      var p := Quotient(a, interval);
      var q := Quotient(b, interval);
      if q < p + 1 {
        MulMonotone(q, p, interval);
        assert false;
      }
      MulMonotone(p + 1, q, interval);
      assert (p + 1) * interval == p * interval + interval;
    }
  }

  lemma CountBound(k: nat, interval: nat, last: nat, next: nat)
    requires k * interval <= last && next >= last + interval
    ensures (k + 1) * interval <= next
  {
  }

  /** What a report adds to the tally. */
  lemma ReportStep(first: LimiterState, key: nat, times: seq<nat>, r: LimiterRun, now: nat)
    requires RunOk(first, key, times, r) && times != [] && times[|times| - 1] <= now
    requires MultipleOf(|times|, first.interval) && now - r.tally.lastAt >= first.minGap
    ensures r.tally.emissions * first.interval <= |times|
    ensures r.tally.emissions * first.minGap <= now - r.tally.firstAt
  {
    MultiplesApart(r.s.emitted - 1, |times|, first.interval);
    CountBound(r.tally.emissions - 1, first.interval, r.s.emitted - 1, |times|);
    CountBound(r.tally.emissions - 1, first.minGap, r.tally.lastAt - r.tally.firstAt, now - r.tally.firstAt);
  }

  lemma RecordStep(first: LimiterState, key: nat, times: seq<nat>, r: LimiterRun, now: nat)
    requires RunOk(first, key, times, r) && |times| < U64_MAX && (times == [] ==> r == LimiterRun(first, Tally(0, 0, 0, 0)))
    requires first.lastKey != Some(key)
    requires times != [] ==> times[|times| - 1] <= now
    ensures var rec := Record(r.s, key, now);
            RunOk(first, key, times + [now], LimiterRun(rec.s, Count(r.tally, rec, now)))
    ensures Record(r.s, key, now).suppressed.Some? ==>
              && MultipleOf(|times|, first.interval)
              && (times != [] ==> now - r.tally.lastAt >= first.minGap)
  {
    hide MultipleOf;
    if times == [] {
      FirstMultiple(first.interval);
    } else if Record(r.s, key, now).suppressed.Some? {
      ReportStep(first, key, times, r, now);
    }
  }

  lemma FirstMultiple(interval: nat)
    ensures MultipleOf(0, interval)
  {
  }

  lemma {:induction false} RepeatOk(s: LimiterState, key: nat, times: seq<nat>)
    requires s.lastKey != Some(key) && NonDecreasing(times) && |times| <= U64_MAX
    ensures RunOk(s, key, times, Repeat(s, key, times))
    decreases |times|
  {
    if times != [] {
      var front, now := times[..|times| - 1], times[|times| - 1];
      RepeatOk(s, key, front);
      RecordStep(s, key, front, Repeat(s, key, front), now);
      assert front + [now] == times;
    }
  }

  /**
   The rate bound: a failure repeated n times over a span T is reported at least once, at most once
   per interval of occurrences and at most once per minimal gap, and every occurrence up to the last
   report is either a report or counted as suppressed by one.
   */
  lemma RateBound(s: LimiterState, key: nat, times: seq<nat>)
    requires s.lastKey != Some(key) && NonDecreasing(times) && 0 < |times| <= U64_MAX
    ensures var r := Repeat(s, key, times);
            && r.tally.emissions >= 1
            && (r.tally.emissions - 1) * s.interval <= |times| - 1
            && (r.tally.emissions - 1) * s.minGap <= times[|times| - 1] - times[0]
            && r.tally.emissions + r.tally.suppressed == r.s.emitted <= |times|
  {
    RepeatOk(s, key, times);
  }

  /**
   When one more occurrence is reported: exactly if it is the first, or falls on a multiple of the
   interval and a minimal gap after the last report; and it tells how many were suppressed in between.
   */
  lemma ReportedWhenDue(s: LimiterState, key: nat, times: seq<nat>, now: nat)
    requires s.lastKey != Some(key) && NonDecreasing(times + [now]) && |times| < U64_MAX
    ensures var before := Repeat(s, key, times);
            var suppressed := Record(before.s, key, now).suppressed;
            && (suppressed.Some? <==>
                  || times == []
                  || (s.interval > 0 && |times| % s.interval == 0 && now - before.tally.lastAt >= s.minGap))
            && (suppressed.Some? ==>
                  before.tally.emissions + before.tally.suppressed + 1 + suppressed.value == |times| + 1)
  {
    if times != [] {
      assert (times + [now])[|times| - 1] <= (times + [now])[|times|];
    }
    forall i, j | 0 <= i < j < |times|
      ensures times[i] <= times[j]
    {
      assert (times + [now])[i] <= (times + [now])[j];
    }
    RepeatOk(s, key, times);
    VerdictOn(s, key, times, Repeat(s, key, times), now);
  }

  lemma VerdictOn(first: LimiterState, key: nat, times: seq<nat>, r: LimiterRun, now: nat)
    requires RunOk(first, key, times, r) && |times| < U64_MAX && (times == [] ==> r == LimiterRun(first, Tally(0, 0, 0, 0)))
    requires first.lastKey != Some(key)
    requires times != [] ==> times[|times| - 1] <= now
    ensures var suppressed := Record(r.s, key, now).suppressed;
            && (suppressed.Some? <==>
                  || times == []
                  || (first.interval > 0 && |times| % first.interval == 0 && now - r.tally.lastAt >= first.minGap))
            && (suppressed.Some? ==> r.tally.emissions + r.tally.suppressed + 1 + suppressed.value == |times| + 1)
  {
  }

  /** A clock that reads earlier than at the last report counts as no time passed. */
  lemma NoTimePassed(s: LimiterState, key: nat, now: nat)
    requires s.lastKey == Some(key) && s.lastEmittedAt.Some? && now <= s.lastEmittedAt.value && s.occurrences > 0
    ensures s.minGap > 0 ==> Record(s, key, now).suppressed.None?
  {
  }

  /** A different failure is reported at once, whatever was being suppressed. */
  lemma NewFailureReported(s: LimiterState, key: nat, now: nat)
    requires s.lastKey != Some(key)
    ensures Record(s, key, now).suppressed == Some(0)
  {
  }
}
