/**
 The source and the tick loop together: what the network steps on over many ticks, when nothing but
 the source feeds the queues.
 */
module Pipeline {
  import opened Prelude
  import opened IngressTypes
  import opened QueueSpec
  import opened IngressSpec
  import opened SourceSpec
  import opened TickSpec
  import opened TickRuns

  /** One tick with its poll of the source: some more frames have arrived, and the rest of the world. */
  datatype Poll = Poll(arrived: seq<Frame>, message: string, outside: Outside)

  /** The daemon, the source, and the packets with stimuli that the network stepped on. */
  datatype Line = Line(d: Daemon, held: Held, queued: seq<Frame>, heard: seq<IngressPacket>)

  function ReceivedOf(r: Reception, message: string): Received {
    if r.outcome.Failed? then ReceiveError(message)
    else if PacketOf(r).Some? then Packet(PacketOf(r).value)
    else Nothing
  }

  /** The packet, if the network steps on it and it carries stimuli. */
  function Heard(p: IngressPacket): seq<IngressPacket> {
    if PacketFinite(p) && p.stimuli != [] then [p] else []
  }

  function PollOnce(cfg: IngressConfig, channels: nat, l: Line, poll: Poll, budget: nat): Line
    requires cfg.Total()
  {
    var r := Receive(l.held, l.queued + poll.arrived, budget);
    var o := poll.outside.(received := ReceivedOf(r, poll.message));
    Line(TickPublished(cfg, channels, l.d, o), r.held, r.rest, l.heard + Heard(WorkOf(cfg, l.d, o)))
  }

  function PollAll(cfg: IngressConfig, channels: nat, l: Line, polls: seq<Poll>, budget: nat): Line
    requires cfg.Total()
    decreases |polls|
  {
    if polls == [] then l else PollAll(cfg, channels, PollOnce(cfg, channels, l, polls[0], budget), polls[1..], budget)
  }

  function Arrivals(polls: seq<Poll>): seq<Frame>
    decreases |polls|
  {
    if polls == [] then [] else polls[0].arrived + Arrivals(polls[1..])
  }

  // ---------------------------------------------------------------- the reference

  /** Modulators pass the reward queue if there are any and not too many. */
  function Passing(cfg: IngressConfig, modulators: Held): Held {
    if modulators.Some? && 0 < |modulators.value| <= cfg.maxPayloadLen then modulators else None
  }

  /** What the network should step on for one output of the source: a finite packet of admissible size. */
  function Due(cfg: IngressConfig, o: Outcome): seq<IngressPacket> {
    if o.Delivered? && PacketFinite(o.packet) && 0 < |o.packet.stimuli| <= cfg.maxPayloadLen
    then [o.packet.(modulators := Passing(cfg, o.packet.modulators))]
    else []
  }

  function AllDue(cfg: IngressConfig, outcomes: seq<Outcome>): seq<IngressPacket> {
    if outcomes == [] then []
    else AllDue(cfg, outcomes[..|outcomes| - 1]) + Due(cfg, outcomes[|outcomes| - 1])
  }

  lemma {:induction false} DueSplits(cfg: IngressConfig, a: seq<Outcome>, b: seq<Outcome>)
    ensures AllDue(cfg, a + b) == AllDue(cfg, a) + AllDue(cfg, b)
    decreases |b|
  {
    if b == [] {
      assert a + b == a;
    } else {
      var front, last := b[..|b| - 1], b[|b| - 1];
      assert (a + b)[..|a + b| - 1] == a + front && (a + b)[|a + b| - 1] == last;
      DueSplits(cfg, a, front);
      Assoc(AllDue(cfg, a), AllDue(cfg, front), Due(cfg, last));
    }
  }

  lemma DueOfPut(cfg: IngressConfig, o: Outcome)
    ensures AllDue(cfg, Put(o)) == Due(cfg, o)
  {
    if !o.Idle? {
      assert [o][..0] == [];
    }
  }

  // ---------------------------------------------------------------- one tick from empty queues

  ghost predicate Ready(s: IngressState) {
    && !s.shuttingDown && !s.sensory.closed && !s.reward.closed
    && s.sensory.items == [] && s.reward.items == []
  }

  lemma PushOnEmpty(cfg: IngressConfig, s: IngressState, kind: MessageClass, p: IngressPacket)
    requires cfg.Total() && cfg.Validate() && !s.shuttingDown && !s.Of(kind).closed && s.Of(kind).items == []
    ensures var q, c := TryEnqueue(cfg, s, kind, p).Of(kind), ClassConfig(cfg, kind);
            q.items == (if Oversized(c, p) then [] else [p]) && !q.closed
  {
    match kind { case Sensory => case Reward => case Control => case Telemetry => }
  }

  /** What admission and the drain leave of a packet, from empty queues. */
  lemma AdmitOnEmpty(cfg: IngressConfig, s: IngressState, p: IngressPacket)
    requires cfg.Total() && cfg.Validate() && Ready(s)
    ensures var s' := AdmitBackend(cfg, s, p);
            && s'.sensory.items == (if 0 < |p.stimuli| <= cfg.maxPayloadLen then [SensoryPart(p)] else [])
            && s'.reward.items
               == (if Passing(cfg, p.modulators).Some? then [RewardPart(p.modulators.value)] else [])
            && !s'.shuttingDown && !s'.sensory.closed && !s'.reward.closed
  {
    var s1 := if p.stimuli != [] then TryEnqueue(cfg, s, Sensory, SensoryPart(p)) else s;
    if p.stimuli != [] {
      PushOnEmpty(cfg, s, Sensory, SensoryPart(p));
    }
    assert s1.reward == s.reward && !s1.shuttingDown;
    if p.modulators.Some? && p.modulators.value != [] {
      PushOnEmpty(cfg, s1, Reward, RewardPart(p.modulators.value));
    }
  }

  /** The packet a tick works on, from empty queues, and the queues it leaves empty again. */
  lemma TickOnEmpty(cfg: IngressConfig, channels: nat, d: Daemon, o: Outside)
    requires cfg.Total() && cfg.Validate() && Ready(d.ingress)
    ensures Ready(TickPublished(cfg, channels, d, o).ingress)
    ensures var admitted := o.received.Packet? && PacketFinite(o.received.packet);
            WorkOf(cfg, d, o) ==
            if !admitted then IngressPacket.Default()
            else
              var p := o.received.packet;
              (if 0 < |p.stimuli| <= cfg.maxPayloadLen then SensoryPart(p) else IngressPacket.Default())
              .(modulators := Passing(cfg, p.modulators))
  {
    hide DiagnosticKey, StepPhase;
    var s1 := InputPhase(cfg, d, o).ingress;
    if o.received.Packet? && PacketFinite(o.received.packet) {
      AdmitOnEmpty(cfg, d.ingress, o.received.packet);
      assert s1 == AdmitBackend(cfg, d.ingress, o.received.packet);
    } else {
      assert s1 == d.ingress;
    }
    StepKeepsIngress(DrainPhase(cfg, InputPhase(cfg, d, o), o.clock(3)), WorkOf(cfg, d, o), channels, o);
  }

  /** A flagged packet of the source carries no stimuli. */
  lemma {:induction false} FlagsCarryNothing(held: Held, frames: seq<Frame>, budget: nat)
    ensures var o := Receive(held, frames, budget).outcome;
            o.Flagged? ==> o.packet.stimuli == []
    decreases budget
  {
    hide Receive;
    ReceiveOne(held, frames, budget);
    if budget > 0 && frames != [] && Emit(held, frames[0]) == [] {
      FlagsCarryNothing(frames[0].packet.modulators, frames[1..], budget - 1);
    }
  }

  /** One tick steps the network on what its output of the source is due to give, and on nothing else. */
  lemma PollHears(cfg: IngressConfig, channels: nat, l: Line, poll: Poll, budget: nat)
    requires cfg.Total() && cfg.Validate() && Ready(l.d.ingress)
    ensures var r, l' := Receive(l.held, l.queued + poll.arrived, budget), PollOnce(cfg, channels, l, poll, budget);
            && Ready(l'.d.ingress) && l'.held == r.held && l'.queued == r.rest
            && l'.heard == l.heard + AllDue(cfg, Put(r.outcome))
  {
    hide Receive, TickPublished;
    var r := Receive(l.held, l.queued + poll.arrived, budget);
    var o := poll.outside.(received := ReceivedOf(r, poll.message));
    TickOnEmpty(cfg, channels, l.d, o);
    DueOfPut(cfg, r.outcome);
    FlagsCarryNothing(l.held, l.queued + poll.arrived, budget);
    WorkIsDue(cfg, r, WorkOf(cfg, l.d, o), poll.message);
  }

  lemma WorkIsDue(cfg: IngressConfig, r: Reception, work: IngressPacket, message: string)
    requires var received := ReceivedOf(r, message);
             work ==
             if !(received.Packet? && PacketFinite(received.packet)) then IngressPacket.Default()
             else
               var p := received.packet;
               (if 0 < |p.stimuli| <= cfg.maxPayloadLen then SensoryPart(p) else IngressPacket.Default())
               .(modulators := Passing(cfg, p.modulators))
    requires r.outcome.Flagged? ==> r.outcome.packet.stimuli == []
    ensures Heard(work) == Due(cfg, r.outcome)
  {
  }

  // ---------------------------------------------------------------- many ticks

  lemma PollStep(cfg: IngressConfig, channels: nat, l: Line, poll: Poll, budget: nat, more: seq<Frame>)
    returns (l': Line, due: seq<IngressPacket>)
    requires cfg.Total() && cfg.Validate() && Ready(l.d.ingress)
    ensures l' == PollOnce(cfg, channels, l, poll, budget)
    ensures Ready(l'.d.ingress) && l'.heard == l.heard + due
    ensures due + AllDue(cfg, Deliver(l'.held, l'.queued + more))
         == AllDue(cfg, Deliver(l.held, l.queued + (poll.arrived + more)))
    ensures LastHeld(l'.held, l'.queued + more) == LastHeld(l.held, l.queued + (poll.arrived + more))
  {
    hide Receive, PollOnce;
    var r := Receive(l.held, l.queued + poll.arrived, budget);
    l', due := PollOnce(cfg, channels, l, poll, budget), AllDue(cfg, Put(r.outcome));
    PollHears(cfg, channels, l, poll, budget);
    ReceiveFollows(l.held, l.queued + poll.arrived, budget, more);
    Assoc(l.queued, poll.arrived, more);
    DueSplits(cfg, Put(r.outcome), Deliver(r.held, r.rest + more));
  }

  /**
   From the wire to the network, over any number of ticks from empty queues that nobody else feeds:
   however the frames fall into ticks, the packets with stimuli that the network stepped on, followed
   by those still due for the queued frames, are exactly the finite packets of admissible size that
   the frame-by-frame reference delivers, in order, each with the last accepted modulators.
   */
  lemma {:induction false} NetworkHearsDelivery(cfg: IngressConfig, channels: nat, l: Line, polls: seq<Poll>,
                                                budget: nat)
    requires cfg.Total() && cfg.Validate() && Ready(l.d.ingress)
    ensures var l' := PollAll(cfg, channels, l, polls, budget);
            && Ready(l'.d.ingress)
            && l'.heard + AllDue(cfg, Deliver(l'.held, l'.queued))
               == l.heard + AllDue(cfg, Deliver(l.held, l.queued + Arrivals(polls)))
            && LastHeld(l'.held, l'.queued) == LastHeld(l.held, l.queued + Arrivals(polls))
    decreases |polls|
  {
    hide PollOnce;
    if polls == [] {
      assert l.queued + Arrivals(polls) == l.queued;
    } else {
      var l1, due := PollStep(cfg, channels, l, polls[0], budget, Arrivals(polls[1..]));
      NetworkHearsDelivery(cfg, channels, l1, polls[1..], budget);
      Assoc(l.heard, due, AllDue(cfg, Deliver(l1.held, l1.queued + Arrivals(polls[1..]))));
    }
  }

  // ---------------------------------------------------------------- quiet ticks

  /** The whole stream: what is queued and what will arrive. */
  function Stream(l: Line, polls: seq<Poll>): seq<Frame> {
    l.queued + Arrivals(polls)
  }

  lemma Stretch(queued: seq<Frame>, arrived: seq<Frame>, more: seq<Frame>, rest: seq<Frame>)
    requires |rest| <= |queued + arrived| && rest == (queued + arrived)[|queued + arrived| - |rest|..]
    ensures var taken := (queued + arrived)[..|queued + arrived| - |rest|];
            taken + (rest + more) == queued + (arrived + more)
  {
  }

  /** After any polls the source holds the last modulators of the frames it consumed, and no others are left out. */
  lemma {:induction false} HoldsTheLastConsumed(cfg: IngressConfig, channels: nat, l: Line, polls: seq<Poll>,
                                                budget: nat) returns (consumed: seq<Frame>)
    requires cfg.Total()
    ensures var l' := PollAll(cfg, channels, l, polls, budget);
            && consumed + l'.queued == Stream(l, polls)
            && l'.held == LastHeld(l.held, consumed)
    decreases |polls|
  {
    hide Receive, TickPublished;
    if polls == [] {
      consumed := [];
      assert consumed + l.queued == l.queued == Stream(l, polls);
    } else {
      var frames := l.queued + polls[0].arrived;
      var r, l1 := Receive(l.held, frames, budget), PollOnce(cfg, channels, l, polls[0], budget);
      HoldsTheLast(l.held, frames, budget);
      ReceiveTakesPrefix(l.held, frames, budget);
      var later := HoldsTheLastConsumed(cfg, channels, l1, polls[1..], budget);
      consumed := Consumed(frames, r) + later;
      HeldSplits(l.held, Consumed(frames, r), later);
      Stretch(l.queued, polls[0].arrived, Arrivals(polls[1..]), r.rest);
      Assoc(Consumed(frames, r), later, PollAll(cfg, channels, l1, polls[1..], budget).queued);
    }
  }

  /**
   Quiet ticks keep their modulators: from empty queues, after any ticks, a tick whose call of the
   source is idle works on no stimuli and on the last modulators accepted in all the frames consumed
   so far, provided they pass the reward queue; without any it works on the defaults.
   */
  lemma QuietTickReplays(cfg: IngressConfig, channels: nat, l: Line, polls: seq<Poll>, poll: Poll, budget: nat)
    returns (consumed: seq<Frame>)
    requires cfg.Total() && cfg.Validate() && Ready(l.d.ingress) && HeldOk(l.held)
    ensures var l' := PollAll(cfg, channels, l, polls, budget);
            var r := Receive(l'.held, l'.queued + poll.arrived, budget);
            var o := poll.outside.(received := ReceivedOf(r, poll.message));
            && consumed + r.rest == Stream(l, polls) + poll.arrived
            && (r.outcome.Idle? ==>
                  WorkOf(cfg, l'.d, o)
                  == IngressPacket.Default().(modulators := Passing(cfg, LastHeld(l.held, consumed))))
  {
    hide Receive, TickPublished, WorkOf, PollAll, LastHeld;
    var l' := PollAll(cfg, channels, l, polls, budget);
    var frames := l'.queued + poll.arrived;
    var r := Receive(l'.held, frames, budget);
    var before := HoldsTheLastConsumed(cfg, channels, l, polls, budget);
    NetworkHearsDelivery(cfg, channels, l, polls, budget);
    HoldsTheLast(l'.held, frames, budget);
    ReceiveTakesPrefix(l'.held, frames, budget);
    HeldSplits(l.held, before, Consumed(frames, r));
    consumed := before + Consumed(frames, r);
    Rejoin(before, l'.queued, poll.arrived, r.rest);
    LastHeldFinite(l.held, consumed);
    var o := poll.outside.(received := ReceivedOf(r, poll.message));
    TickOnEmpty(cfg, channels, l'.d, o);
    IdleReplaysHeld(l'.held, frames, budget);
  }

  lemma Rejoin(before: seq<Frame>, queued: seq<Frame>, arrived: seq<Frame>, rest: seq<Frame>)
    requires |rest| <= |queued + arrived| && rest == (queued + arrived)[|queued + arrived| - |rest|..]
    ensures before + (queued + arrived)[..|queued + arrived| - |rest|] + rest == before + queued + arrived
  {
  }

  lemma {:induction false} LastHeldFinite(held: Held, frames: seq<Frame>)
    requires HeldOk(held)
    ensures HeldOk(LastHeld(held, frames))
    decreases |frames|
  {
    if frames != [] && Carries(frames[|frames| - 1]).None? {
      LastHeldFinite(held, frames[..|frames| - 1]);
    }
  }
}
