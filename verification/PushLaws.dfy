/**
 What each step of a push decides, told by the queue it finds, and what each outcome counts; then the
 same in the terms of the ingress configuration.
 */
module PushLaws {
  import opened Prelude
  import opened IngressTypes
  import opened QueueSpec
  import opened IngressSpec

  predicate Full(c: QueueConfig, q: QueueState) {
    |q.items| >= c.capacity
  }

  /** Exactly one counter of the outcome moves, and with it the counter of what it cost. */
  ghost predicate CountsOutcome(q: QueueState, step: Step) {
    match step
    case Park(q', _) => q' == q.(producerWaits := q.producerWaits + 1)
    case Done(q', outcome) =>
      q' == q.(
        items := q'.items,
        accepted := q.accepted + (if outcome.Queued() then 1 else 0),
        rejected := q.rejected + (if outcome.Rejected? then 1 else 0),
        shutdownRefused := q.shutdownRefused + (if outcome.Shutdown? then 1 else 0),
        dropped := q.dropped + (if outcome.DroppedOldest? then 1 else 0),
        coalesced := q.coalesced + (if outcome.Coalesced? then 1 else 0),
        highWaterMark := if outcome.Queued() then Max(q.highWaterMark, |q'.items|) else q.highWaterMark)
  }

  /** What each outcome does to the buffer, and the depth it reports. */
  ghost predicate Places(q: QueueState, p: IngressPacket, step: Step) {
    match step
    case Park(q', _) => q'.items == q.items
    case Done(q', outcome) =>
      match outcome
      case Accepted(depth) => q'.items == q.items + [p] && depth == |q.items| + 1
      case DroppedOldest(depth) =>
        q'.items == (if q.items == [] then [p] else q.items[1..] + [p]) && depth == |q'.items|
      case Coalesced(depth) => q'.items == [p] && depth == 1
      case _ => q'.items == q.items
  }

  /** How a push begins: closed beats size, size beats room, and room beats the policy. */
  lemma EnterDecides(c: QueueConfig, q: QueueState, p: IngressPacket, wait: WaitMode, start: nat)
    ensures var step, open := Enter(c, q, p, wait, start), !q.closed && !Oversized(c, p);
            var blocks := c.policy == BlockTimeout && wait == HonorPolicy && c.blockTimeout > 0;
            && (step.Done? && step.outcome.Shutdown? <==> q.closed)
            && (step.Park? <==> open && Full(c, q) && blocks)
            && (step.Park? ==> step.asked == c.blockTimeout)
            && (step.Done? && step.outcome.Rejected? <==>
                  !q.closed && (Oversized(c, p)
                                || (Full(c, q) && (c.policy == Reject || (c.policy == BlockTimeout && !blocks)))))
            && (step.Done? && step.outcome.DroppedOldest? <==> open && Full(c, q) && c.policy == DropOldest)
            && (step.Done? && step.outcome.Coalesced? <==> open && q.items != [] && c.policy == Coalesce)
            && CountsOutcome(q, step) && Places(q, p, step)
  {
  }

  /** How a blocked push goes on after a wait: closed beats room, room beats time, and time is the deadline's. */
  lemma WakeDecides(c: QueueConfig, q: QueueState, p: IngressPacket, deadline: nat, timedOut: bool, elapsed: nat,
                    now: nat)
    requires c.policy == BlockTimeout
    ensures var step, late := Resume(c, q, p, Some(deadline), timedOut, elapsed, now), timedOut || now >= deadline;
            && (step.Done? && step.outcome.Shutdown? <==> q.closed)
            && (step.Done? && step.outcome.Accepted? <==> !q.closed && !Full(c, q))
            && (step.Done? && step.outcome.Rejected? <==> !q.closed && Full(c, q) && late)
            && (step.Park? <==> !q.closed && Full(c, q) && !late)
            && (step.Park? ==> step.asked == deadline - now)
            && CountsOutcome(q.(producerWaitNs := q.producerWaitNs + elapsed), step) && Places(q, p, step)
  {
  }

  // ---------------------------------------------------------------- as configured

  /** The configuration the source accepts, limit by limit. */
  lemma ValidatedLimits(cfg: IngressConfig)
    requires cfg.Total()
    ensures cfg.Validate() <==>
              && 1 <= cfg.maxPayloadLen <= 1_048_576 && cfg.blockTimeoutMs <= 86_400_000
              && forall k: MessageClass :: 1 <= cfg.capacity[k] <= 16_384
  {
    if cfg.Validate() {
      forall k: MessageClass
        ensures 1 <= cfg.capacity[k] <= 16_384
      {
        match k { case Sensory => case Reward => case Control => case Telemetry => }
      }
    }
  }

  /**
   A blocking enqueue on a full class waits for the configured milliseconds; a class takes packets
   of up to the configured length until it holds as many as configured, one if it coalesces.
   */
  lemma ClassAsConfigured(cfg: IngressConfig, k: MessageClass, q: QueueState, p: IngressPacket, start: nat)
    requires cfg.Total() && cfg.Validate() && !q.closed
    ensures var c := ClassConfig(cfg, k);
            var step := Enter(c, q, p, HonorPolicy, start);
            var fits := |p.stimuli| <= cfg.maxPayloadLen
                        && (p.modulators.Some? ==> |p.modulators.value| <= cfg.maxPayloadLen);
            && (!fits ==> step.Done? && step.outcome == Rejected)
            && (fits && cfg.policy[k] != Coalesce && |q.items| < cfg.capacity[k] ==>
                  step.Done? && step.outcome == Accepted(|q.items| + 1))
            && (fits && cfg.policy[k] == Coalesce ==> step.Done? && step.q.items == [p])
            && (fits && cfg.policy[k] == BlockTimeout && |q.items| >= cfg.capacity[k] && cfg.blockTimeoutMs > 0 ==>
                  step.Park? && step.asked == cfg.blockTimeoutMs * 1_000_000)
            && (fits && cfg.policy[k] == Reject && |q.items| >= cfg.capacity[k] ==>
                  step.Done? && step.outcome == Rejected)
            && (fits && cfg.policy[k] == DropOldest && |q.items| >= cfg.capacity[k] ==>
                  step.Done? && step.outcome == DroppedOldest(|q.items|) && step.q.items == q.items[1..] + [p])
  {
    var c := ClassConfig(cfg, k);
    EnterDecides(c, q, p, HonorPolicy, start);
    match k { case Sensory => case Reward => case Control => case Telemetry => }
  }

  /** While shutting down, admission only counts refusals, one for each part of the packet. */
  lemma AdmitRefused(cfg: IngressConfig, s: IngressState, p: IngressPacket)
    requires cfg.Total() && s.shuttingDown
    ensures AdmitBackend(cfg, s, p) ==
            s.(sensory := s.sensory.(shutdownRefused := s.sensory.shutdownRefused
                                                        + (if p.stimuli != [] then 1 else 0)),
               reward := s.reward.(shutdownRefused := s.reward.shutdownRefused
                                     + (if p.modulators.Some? && p.modulators.value != [] then 1 else 0)))
  {
  }

  /** A push on one class leaves every other class and the flag alone. */
  lemma OthersUntouched(cfg: IngressConfig, s: IngressState, k: MessageClass, other: MessageClass, p: IngressPacket)
    requires cfg.Total() && k != other
    ensures var s' := TryEnqueue(cfg, s, k, p);
            s'.Of(other) == s.Of(other) && s'.shuttingDown == s.shuttingDown
  {
  }

  function Handed(p: Option<IngressPacket>): seq<IngressPacket> {
    if p.Some? then [p.value] else []
  }

  /** What a drain hands out is what it removes: from the front of each class, all of two, one of two. */
  lemma DrainHandsOut(s: IngressState)
    ensures var d, s' := DrainedOf(s), AfterDrain(s);
            && d.control == s.control.items && s'.control.items == []
            && d.telemetryDrained == |s.telemetry.items| && s'.telemetry.items == []
            && Handed(d.reward) + s'.reward.items == s.reward.items && (d.reward.None? <==> s.reward.items == [])
            && Handed(d.sensory) + s'.sensory.items == s.sensory.items && (d.sensory.None? <==> s.sensory.items == [])
            && s' == s.(control := s.control.(items := []), telemetry := s.telemetry.(items := []),
                        reward := s.reward.(items := s'.reward.items),
                        sensory := s.sensory.(items := s'.sensory.items))
  {
  }

  /** The two parts of an admitted packet: everything but the modulators, and nothing but them. */
  lemma PartsOfPacket(p: IngressPacket, modulators: seq<Float>)
    ensures RewardPart(modulators) == IngressPacket([], Some(modulators), None, None, None, None, false)
    ensures SensoryPart(p)
         == IngressPacket(p.stimuli, None, p.validMask, p.batchId, p.timestampNs, p.sessionId, p.rejected)
  {
  }

  /** A drain is merged into the sensory packet, or an empty one, with the modulators of the reward packet alone. */
  lemma MergeTakesReward(d: DrainedTick)
    ensures var p := IntoPacket(d);
            var sensed := if d.sensory.Some? then d.sensory.value
                          else IngressPacket([], None, None, None, None, None, false);
            p == IngressPacket(sensed.stimuli, if d.reward.Some? then d.reward.value.modulators else None,
                               sensed.validMask, sensed.batchId, sensed.timestampNs, sensed.sessionId,
                               sensed.rejected)
  {
  }

  /** The depth reported is that of all four classes. */
  lemma DepthOfAll(s: IngressState)
    ensures s.Depth() == |s.Of(Sensory).items| + |s.Of(Reward).items| + |s.Of(Control).items| + |s.Of(Telemetry).items|
  {
  }
}
