/** The four class queues as one value, and what the tick loop does with them (src/ingress/mod.rs). */
module IngressSpec {
  import opened Prelude
  import opened IngressTypes
  import opened QueueSpec

  datatype IngressState = IngressState(
    shuttingDown: bool,
    sensory: QueueState,
    reward: QueueState,
    control: QueueState,
    telemetry: QueueState)
  {
    function Of(kind: MessageClass): QueueState {
      match kind
      case Sensory => sensory
      case Reward => reward
      case Control => control
      case Telemetry => telemetry
    }

    function With(kind: MessageClass, q: QueueState): IngressState {
      match kind
      case Sensory => this.(sensory := q)
      case Reward => this.(reward := q)
      case Control => this.(control := q)
      case Telemetry => this.(telemetry := q)
    }

    /** Depths and capacities summed over the classes, as the tick reports them to health. */
    function Depth(): nat {
      |sensory.items| + |reward.items| + |control.items| + |telemetry.items|
    }
  }

  function ClassConfig(cfg: IngressConfig, kind: MessageClass): QueueConfig
    requires cfg.Total()
  {
    MakeConfig(cfg.capacity[kind], cfg.policy[kind], cfg.blockTimeoutMs * 1_000_000, cfg.maxPayloadLen)
  }

  function TotalCapacity(cfg: IngressConfig): nat
    requires cfg.Total()
  {
    ClassConfig(cfg, Sensory).capacity + ClassConfig(cfg, Reward).capacity
    + ClassConfig(cfg, Control).capacity + ClassConfig(cfg, Telemetry).capacity
  }

  const EmptyIngress: IngressState := IngressState(false, EmptyQueue, EmptyQueue, EmptyQueue, EmptyQueue)

  /** A push that never waits has one step, whatever the clock says. */
  function TryEnqueue(cfg: IngressConfig, s: IngressState, kind: MessageClass, p: IngressPacket): IngressState
    requires cfg.Total()
  {
    var q := s.Of(kind);
    s.With(kind, if s.shuttingDown then RefuseShutdown(q).q
                   else Enter(ClassConfig(cfg, kind), q, p, Never, 0).q)
  }

  function SensoryPart(p: IngressPacket): IngressPacket {
    p.(modulators := None)
  }

  function RewardPart(modulators: seq<Float>): IngressPacket {
    IngressPacket.Default().(modulators := Some(modulators))
  }

  /** Stimuli go to the sensory queue, modulators to the reward queue; empty vectors go nowhere. */
  function AdmitBackend(cfg: IngressConfig, s: IngressState, p: IngressPacket): IngressState
    requires cfg.Total()
  {
    var s := if p.stimuli != [] then TryEnqueue(cfg, s, Sensory, SensoryPart(p)) else s;
    if p.modulators.Some? && p.modulators.value != [] then
      TryEnqueue(cfg, s, Reward, RewardPart(p.modulators.value))
    else s
  }

  datatype DrainedTick = DrainedTick(
    control: seq<IngressPacket>, reward: Option<IngressPacket>, sensory: Option<IngressPacket>,
    telemetryDrained: nat)

  function Front(items: seq<IngressPacket>): Option<IngressPacket> {
    if items == [] then None else Some(items[0])
  }

  function DrainedOf(s: IngressState): DrainedTick {
    DrainedTick(s.control.items, Front(s.reward.items), Front(s.sensory.items), |s.telemetry.items|)
  }

  function AfterDrain(s: IngressState): IngressState {
    s.(control := Drained(s.control), reward := Popped(s.reward), sensory := Popped(s.sensory),
       telemetry := Drained(s.telemetry))
  }

  function IntoPacket(d: DrainedTick): IngressPacket {
    var sensory := if d.sensory.Some? then d.sensory.value else IngressPacket.Default();
    sensory.(modulators := if d.reward.Some? then d.reward.value.modulators else None)
  }

  // ---------------------------------------------------------------- admit, then drain

  lemma OneStepPush(c: QueueConfig, q: QueueState, p: IngressPacket)
    requires |q.items| <= c.capacity && c.capacity >= 1 && (c.policy == Coalesce ==> c.capacity == 1)
    ensures var step := Enter(c, q, p, Never, 0);
            step.Done? && |q.items| <= |step.q.items| && |step.q.items| <= |q.items| + 1
  {
  }

  /** With no other producer a tick leaves no class deeper than it found it, and empties two of them. */
  lemma TickNeverDeepens(cfg: IngressConfig, s: IngressState, p: Option<IngressPacket>)
    requires cfg.Total() && cfg.Validate()
    requires forall k: MessageClass :: |s.Of(k).items| <= ClassConfig(cfg, k).capacity
    ensures var s' := AfterDrain(if p.Some? then AdmitBackend(cfg, s, p.value) else s);
            && (forall k: MessageClass :: |s'.Of(k).items| <= |s.Of(k).items|)
            && s'.control.items == [] && s'.telemetry.items == []
  {
    if p.Some? {
      assert |s.sensory.items| <= ClassConfig(cfg, Sensory).capacity by { assert s.Of(Sensory) == s.sensory; }
      assert |s.reward.items| <= ClassConfig(cfg, Reward).capacity by { assert s.Of(Reward) == s.reward; }
      OneStepPush(ClassConfig(cfg, Sensory), s.sensory, SensoryPart(p.value));
      if p.value.modulators.Some? {
        OneStepPush(ClassConfig(cfg, Reward), s.reward, RewardPart(p.value.modulators.value));
      }
    }
  }

  /** A packet with stimuli and modulators survives admission and the drain intact. */
  lemma AdmittedPacketComesBack(cfg: IngressConfig, s: IngressState, p: IngressPacket)
    requires cfg.Total() && cfg.Validate()
    requires !s.shuttingDown && !s.sensory.closed && !s.reward.closed
    requires s.sensory.items == [] && s.reward.items == []
    requires 0 < |p.stimuli| <= cfg.maxPayloadLen
    requires p.modulators.Some? && 0 < |p.modulators.value| <= cfg.maxPayloadLen
    ensures IntoPacket(DrainedOf(AdmitBackend(cfg, s, p))) == p
  {
    var s1 := TryEnqueue(cfg, s, Sensory, SensoryPart(p));
    assert s1.sensory.items == [SensoryPart(p)];
    var s2 := TryEnqueue(cfg, s1, Reward, RewardPart(p.modulators.value));
    assert s2.reward.items == [RewardPart(p.modulators.value)];
  }
}
