/** The class queue itself: a buffer and counters under one lock, and the retry loop of `push`. */
module Queue {
  import opened Prelude
  import opened IngressTypes
  import opened QueueSpec

  class BoundedQueue {
    const config: QueueConfig
    var items: seq<IngressPacket>
    var closed: bool
    var accepted: nat
    var rejected: nat
    var dropped: nat
    var coalesced: nat
    var shutdownRefused: nat
    var highWaterMark: nat
    var producerWaits: nat
    var producerWaitNs: nat

    ghost function State(): QueueState
      reads this
    {
      QueueState(items, closed, accepted, rejected, dropped, coalesced, shutdownRefused, highWaterMark,
                 producerWaits, producerWaitNs)
    }

    constructor (capacity: nat, policy: OverflowPolicy, blockTimeout: nat, maxPayloadLen: nat)
      ensures config == MakeConfig(capacity, policy, blockTimeout, maxPayloadLen)
      ensures State() == EmptyQueue
    {
      config := MakeConfig(capacity, policy, blockTimeout, maxPayloadLen);
      items, closed := [], false;
      accepted, rejected, dropped, coalesced, shutdownRefused := 0, 0, 0, 0, 0;
      highWaterMark, producerWaits, producerWaitNs := 0, 0, 0;
    }

    method RefuseFull() returns (outcome: EnqueueOutcome)
      modifies this
      ensures Done(State(), outcome) == Refuse(old(State()))
    {
      rejected := rejected + 1;
      outcome := Rejected;
    }

    method RefuseClosed() returns (outcome: EnqueueOutcome)
      modifies this
      ensures Done(State(), outcome) == RefuseShutdown(old(State()))
    {
      shutdownRefused := shutdownRefused + 1;
      outcome := Shutdown;
    }

    method PutFree(p: IngressPacket) returns (outcome: EnqueueOutcome)
      modifies this
      ensures Done(State(), outcome) == PushFree(old(State()), p)
    {
      items := items + [p];
      accepted := accepted + 1;
      var depth := |items|;
      if depth > highWaterMark {
        highWaterMark := depth;
      }
      outcome := Accepted(depth);
    }

    method PutCoalesced(p: IngressPacket) returns (outcome: EnqueueOutcome)
      modifies this
      ensures Done(State(), outcome) == PushCoalesce(old(State()), p)
    {
      if items == [] {
        outcome := PutFree(p);
        return;
      }
      items := [];
      items := items + [p];
      accepted := accepted + 1;
      coalesced := coalesced + 1;
      var depth := |items|;
      if depth > highWaterMark {
        highWaterMark := depth;
      }
      outcome := Coalesced(depth);
    }

    method PutDroppingOldest(p: IngressPacket) returns (outcome: EnqueueOutcome)
      modifies this
      ensures Done(State(), outcome) == DropOldestAndPush(old(State()), p)
    {
      if items != [] {
        items := items[1..];
      }
      dropped := dropped + 1;
      outcome := PutFree(p);
      outcome := DroppedOldest(outcome.depth);
    }

    /** The lock is released while waiting: others leave the queue in any state at all. */
    method Yield(w: Wake)
      modifies this
      ensures State() == w.q
    {
      items, closed := w.q.items, w.q.closed;
      accepted, rejected, dropped := w.q.accepted, w.q.rejected, w.q.dropped;
      coalesced, shutdownRefused := w.q.coalesced, w.q.shutdownRefused;
      highWaterMark := w.q.highWaterMark;
      producerWaits, producerWaitNs := w.q.producerWaits, w.q.producerWaitNs;
    }

    /** Asks to wait for what is left until the deadline; None means the caller may look at the queue again. */
    method WaitForSlot(p: IngressPacket, deadline: Option<nat>, now: nat, wake: nat -> Wake)
      returns (outcome: Option<EnqueueOutcome>, later: nat)
      modifies this
      ensures Remaining(deadline, now) == 0 ==>
                outcome.Some? && later == now && Done(State(), outcome.value) == Refuse(old(State()))
      ensures Remaining(deadline, now) > 0 ==>
                var w := wake(Remaining(deadline, now));
                && later == now + 1 + w.extraNs
                && var q := w.q.(producerWaitNs := w.q.producerWaitNs + (later - now));
                   if q.closed then outcome.Some? && Done(State(), outcome.value) == RefuseShutdown(q)
                   else if w.timedOut && |q.items| >= config.capacity then
                     outcome.Some? && Done(State(), outcome.value) == Refuse(q)
                   else outcome.None? && State() == q
    {
      outcome, later := None, now;
      var remaining := Remaining(deadline, now);
      if remaining == 0 {
        var refused := RefuseFull();
        outcome := Some(refused);
        return;
      }
      producerWaits := producerWaits + 1;
      var w := wake(remaining);
      Yield(w);
      later := now + 1 + w.extraNs;
      producerWaitNs := producerWaitNs + (later - now);
      if closed {
        var refused := RefuseClosed();
        outcome := Some(refused);
      } else if w.timedOut && |items| >= config.capacity {
        var refused := RefuseFull();
        outcome := Some(refused);
      }
    }

    /** `push`: the loop ends because every turn that waits moves towards the one deadline. */
    method Push(p: IngressPacket, wait: WaitMode, start: nat, wakes: (nat, nat) -> Wake)
      returns (outcome: EnqueueOutcome)
      modifies this
      ensures Done(State(), outcome) == WholePush(config, old(State()), p, wait, start, wakes)
    {
      if Oversized(config, p) {
        if closed {
          outcome := RefuseClosed();
        } else {
          outcome := RefuseFull();
        }
        return;
      }
      var deadline := Deadline(config, wait, start);
      var now, i := start, 0;
      ghost var whole := WholePush(config, State(), p, wait, start, wakes);
      while true
        invariant whole == PushRun(config, Attempt(config, State(), p, deadline, now), p, deadline, now, wakes, i)
        decreases Remaining(deadline, now)
      {
        if closed {
          outcome := RefuseClosed();
          return;
        }
        if config.policy == Coalesce {
          outcome := PutCoalesced(p);
          return;
        }
        if |items| < config.capacity {
          outcome := PutFree(p);
          return;
        }
        match config.policy {
          case Reject =>
            outcome := RefuseFull();
            return;
          case DropOldest =>
            outcome := PutDroppingOldest(p);
            return;
          case BlockTimeout =>
            var ended, later := WaitForSlot(p, deadline, now, (asked: nat) => wakes(i, asked));
            if ended.Some? {
              outcome := ended.value;
              return;
            }
            now, i := later, i + 1;
        }
      }
    }

    method Pop() returns (packet: Option<IngressPacket>)
      modifies this
      ensures State() == Popped(old(State()))
      ensures packet == if old(items) == [] then None else Some(old(items)[0])
    {
      packet := None;
      if items != [] {
        packet := Some(items[0]);
        items := items[1..];
      }
    }

    method DrainAll() returns (out: seq<IngressPacket>)
      modifies this
      ensures State() == Drained(old(State()))
      ensures out == old(items)
    {
      out := [];
      while items != []
        invariant out + items == old(items)
        invariant State() == old(State()).(items := items)
        decreases |items|
      {
        out := out + [items[0]];
        items := items[1..];
      }
    }

    method Close()
      modifies this
      ensures State() == Closed(old(State()))
    {
      closed := true;
    }
  }
}
