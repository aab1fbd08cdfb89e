/** The limiter the tick loop keeps for each kind of diagnostic. */
module Limiter {
  import opened Prelude
  import opened LimiterSpec

  class OccurrenceLimiter {
    const interval: nat
    const minGap: nat
    var occurrences: u64
    var emitted: u64
    var lastKey: Option<nat>
    var lastEmittedAt: Option<nat>

    ghost function State(): LimiterState
      reads this
    {
      LimiterState(interval, minGap, occurrences, emitted, lastKey, lastEmittedAt)
    }

    constructor (interval: nat, minGap: nat)
      ensures State() == NewLimiter(interval, minGap)
    {
      this.interval, this.minGap := interval, minGap;
      occurrences, emitted, lastKey, lastEmittedAt := 0, 0, None, None;
    }

    /** The number suppressed since the preceding emission, or None to stay silent. */
    method RecordOccurrence(key: nat, now: nat) returns (suppressed: Option<u64>)
      modifies this
      ensures Recorded(State(), suppressed) == Record(old(State()), key, now)
    {
      if lastKey != Some(key) {
        occurrences := 0;
        emitted := 0;
        lastKey := Some(key);
        lastEmittedAt := None;
      }
      occurrences := SaturatingAdd(occurrences, 1);
      var countDue := occurrences == 1 || MultipleOf(occurrences - 1, interval);
      var timeDue := match lastEmittedAt
        case None => true
        case Some(previous) => Max(0, now - previous) >= minGap;
      if occurrences == 1 || (countDue && timeDue) {
        suppressed := Some(Max(0, occurrences - Bump(emitted)));
        emitted := occurrences;
        lastEmittedAt := Some(now);
      } else {
        suppressed := None;
      }
    }
  }
}
