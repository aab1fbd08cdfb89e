/**
 One class queue (src/ingress/queue.rs). Everything `push` does between taking the lock and either
 returning or waiting is one atomic step, and so is everything from a wake-up to the next return or wait.
 */
module QueueSpec {
  import opened Prelude
  import opened IngressTypes

  datatype QueueConfig = QueueConfig(capacity: nat, maxPayloadLen: nat, policy: OverflowPolicy, blockTimeout: nat)

  function MakeConfig(capacity: nat, policy: OverflowPolicy, blockTimeout: nat, maxPayloadLen: nat): QueueConfig {
    QueueConfig(if policy == Coalesce then 1 else capacity, maxPayloadLen, policy, blockTimeout)
  }

  datatype QueueState = QueueState(
    items: seq<IngressPacket>,
    closed: bool,
    accepted: nat,
    rejected: nat,
    dropped: nat,
    coalesced: nat,
    shutdownRefused: nat,
    highWaterMark: nat,
    producerWaits: nat,
    producerWaitNs: nat)

  const EmptyQueue: QueueState := QueueState([], false, 0, 0, 0, 0, 0, 0, 0, 0)

  /** A step of a push ends the push, or parks the producer for the duration it asks for. */
  datatype Step = Done(q: QueueState, outcome: EnqueueOutcome) | Park(q: QueueState, asked: nat)

  predicate Oversized(c: QueueConfig, p: IngressPacket) {
    |p.stimuli| > c.maxPayloadLen || (p.modulators.Some? && |p.modulators.value| > c.maxPayloadLen)
  }

  function Deadline(c: QueueConfig, wait: WaitMode, now: nat): Option<nat> {
    if wait == Never || c.blockTimeout == 0 then None else Some(now + c.blockTimeout)
  }

  function Remaining(deadline: Option<nat>, now: nat): nat {
    if deadline.Some? && deadline.value > now then deadline.value - now else 0
  }

  function Refuse(q: QueueState): Step {
    Done(q.(rejected := q.rejected + 1), Rejected)
  }

  function RefuseShutdown(q: QueueState): Step {
    Done(q.(shutdownRefused := q.shutdownRefused + 1), Shutdown)
  }

  function Enqueued(q: QueueState, items: seq<IngressPacket>): QueueState {
    q.(items := items, accepted := q.accepted + 1, highWaterMark := Max(q.highWaterMark, |items|))
  }

  function PushFree(q: QueueState, p: IngressPacket): Step {
    Done(Enqueued(q, q.items + [p]), Accepted(|q.items| + 1))
  }

  function PushCoalesce(q: QueueState, p: IngressPacket): Step {
    if q.items == [] then PushFree(q, p)
    else Done(Enqueued(q, [p]).(coalesced := q.coalesced + 1), Coalesced(1))
  }

  function DropOldestAndPush(q: QueueState, p: IngressPacket): Step {
    var kept := if q.items == [] then [] else q.items[1..];
    Done(Enqueued(q, kept + [p]).(dropped := q.dropped + 1), DroppedOldest(|kept| + 1))
  }

  /** One turn of the push loop, with the lock held. */
  function Attempt(c: QueueConfig, q: QueueState, p: IngressPacket, deadline: Option<nat>, now: nat): Step {
    if q.closed then RefuseShutdown(q)
    else if c.policy == Coalesce then PushCoalesce(q, p)
    else if |q.items| < c.capacity then PushFree(q, p)
    else if c.policy == Reject then Refuse(q)
    else if c.policy == DropOldest then DropOldestAndPush(q, p)
    else if Remaining(deadline, now) == 0 then Refuse(q)
    else Park(q.(producerWaits := q.producerWaits + 1), Remaining(deadline, now))
  }

  /** The first step of a push that starts at `now`. */
  function Enter(c: QueueConfig, q: QueueState, p: IngressPacket, wait: WaitMode, now: nat): Step {
    if Oversized(c, p) then if q.closed then RefuseShutdown(q) else Refuse(q)
    else Attempt(c, q, p, Deadline(c, wait, now), now)
  }

  /** The step after a wait of `elapsed` that ended at `now`, for whatever reason. */
  function Resume(c: QueueConfig, q: QueueState, p: IngressPacket, deadline: Option<nat>, timedOut: bool,
                  elapsed: nat, now: nat): Step {
    var q := q.(producerWaitNs := q.producerWaitNs + elapsed);
    if q.closed then RefuseShutdown(q)
    else if timedOut && |q.items| >= c.capacity then Refuse(q)
    else Attempt(c, q, p, deadline, now)
  }

  function Popped(q: QueueState): QueueState {
    if q.items == [] then q else q.(items := q.items[1..])
  }

  function Drained(q: QueueState): QueueState {
    q.(items := [])
  }

  function Closed(q: QueueState): QueueState {
    q.(closed := true)
  }

  // ---------------------------------------------------------------- a whole push of one producer

  /** What a parked producer finds when it holds the lock again: any state, later by at least 1 ns. */
  datatype Wake = Wake(q: QueueState, extraNs: nat, timedOut: bool)

  /**
   A whole push, given what its `i`-th wait ends in when it asks for some duration. Others may do
   anything while the producer waits; the clock moves on every wait, so the distance to the one
   deadline shrinks.
   */
  function PushRun(c: QueueConfig, step: Step, p: IngressPacket, deadline: Option<nat>, now: nat,
                   wakes: (nat, nat) -> Wake, i: nat): Step
    requires step.Park? ==> Remaining(deadline, now) > 0
    ensures PushRun(c, step, p, deadline, now, wakes, i).Done?
    decreases Remaining(deadline, now), step.Park?
  {
    match step
    case Done(_, _) => step
    case Park(_, asked) =>
      var w := wakes(i, asked);
      var later := now + 1 + w.extraNs;
      var next := Resume(c, w.q, p, deadline, w.timedOut, later - now, later);
      PushRun(c, next, p, deadline, later, wakes, i + 1)
  }

  /** The push of one producer from its start to its end. */
  function WholePush(c: QueueConfig, q: QueueState, p: IngressPacket, wait: WaitMode, start: nat,
                     wakes: (nat, nat) -> Wake): Step {
    PushRun(c, Enter(c, q, p, wait, start), p, Deadline(c, wait, start), start, wakes, 0)
  }
}
