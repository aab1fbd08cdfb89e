/** The shared handle to the four class queues, as one thread uses it. */
module Ingress {
  import opened Prelude
  import opened IngressTypes
  import opened QueueSpec
  import opened IngressSpec
  import opened Queue

  class BoundedIngress {
    const config: IngressConfig
    const sensory: BoundedQueue
    const reward: BoundedQueue
    const control: BoundedQueue
    const telemetry: BoundedQueue
    var shuttingDown: bool

    ghost const Repr: set<object>

    ghost predicate Valid()
      reads this
    {
      && Repr == {this, sensory, reward, control, telemetry}
      && config.Total() && config.Validate()
      && sensory != reward && sensory != control && sensory != telemetry
      && reward != control && reward != telemetry && control != telemetry
      && sensory.config == ClassConfig(config, Sensory) && reward.config == ClassConfig(config, Reward)
      && control.config == ClassConfig(config, Control) && telemetry.config == ClassConfig(config, Telemetry)
    }

    ghost function State(): IngressState
      reads this, sensory, reward, control, telemetry
    {
      IngressState(shuttingDown, sensory.State(), reward.State(), control.State(), telemetry.State())
    }

    constructor (cfg: IngressConfig)
      requires cfg.Total() && cfg.Validate()
      ensures Valid() && fresh(Repr) && config == cfg && State() == EmptyIngress
    {
      config := cfg;
      var timeout := cfg.blockTimeoutMs * 1_000_000;
      sensory := new BoundedQueue(cfg.capacity[Sensory], cfg.policy[Sensory], timeout, cfg.maxPayloadLen);
      reward := new BoundedQueue(cfg.capacity[Reward], cfg.policy[Reward], timeout, cfg.maxPayloadLen);
      control := new BoundedQueue(cfg.capacity[Control], cfg.policy[Control], timeout, cfg.maxPayloadLen);
      telemetry := new BoundedQueue(cfg.capacity[Telemetry], cfg.policy[Telemetry], timeout, cfg.maxPayloadLen);
      shuttingDown := false;
      Repr := {this, sensory, reward, control, telemetry};
    }

    /** Only a validated configuration makes an ingress. */
    static method New(cfg: IngressConfig) returns (ingress: BoundedIngress?)
      requires cfg.Total()
      ensures ingress != null <==> cfg.Validate()
      ensures ingress != null ==>
                ingress.Valid() && fresh(ingress.Repr) && ingress.config == cfg && ingress.State() == EmptyIngress
    {
      ingress := null;
      if cfg.Validate() {
        ingress := new BoundedIngress(cfg);
      }
    }

    function QueueOf(kind: MessageClass): BoundedQueue
      ensures QueueOf(kind) in {sensory, reward, control, telemetry}
    {
      match kind
      case Sensory => sensory
      case Reward => reward
      case Control => control
      case Telemetry => telemetry
    }

    /** A push that may wait: only the queue of its class is touched. */
    method Enqueue(kind: MessageClass, p: IngressPacket, start: nat, wakes: (nat, nat) -> Wake)
      returns (outcome: EnqueueOutcome)
      requires Valid()
      modifies QueueOf(kind)
      ensures var c := ClassConfig(config, kind);
              var q := old(State()).Of(kind);
              Done(State().Of(kind), outcome)
              == if shuttingDown then RefuseShutdown(q) else WholePush(c, q, p, HonorPolicy, start, wakes)
      ensures State() == old(State()).With(kind, State().Of(kind))
    {
      var queue := QueueOf(kind);
      if shuttingDown {
        outcome := queue.RefuseClosed();
      } else {
        outcome := queue.Push(p, HonorPolicy, start, wakes);
      }
    }

    /** A push that never waits; no wake-up is ever consulted. */
    method TryPush(kind: MessageClass, p: IngressPacket) returns (outcome: EnqueueOutcome)
      requires Valid()
      modifies QueueOf(kind)
      ensures State() == TryEnqueue(config, old(State()), kind, p)
    {
      var queue := QueueOf(kind);
      if shuttingDown {
        outcome := queue.RefuseClosed();
      } else {
        outcome := queue.Push(p, Never, 0, (_, _) => Wake(EmptyQueue, 0, false));
      }
    }

    method Admit(p: IngressPacket)
      requires Valid()
      modifies sensory, reward
      ensures State() == AdmitBackend(config, old(State()), p)
    {
      if p.stimuli != [] {
        var _ := TryPush(Sensory, p.(modulators := None));
      }
      if p.modulators.Some? && p.modulators.value != [] {
        var _ := TryPush(Reward, IngressPacket.Default().(modulators := p.modulators));
      }
    }

    method DrainForTick() returns (drained: DrainedTick)
      requires Valid()
      modifies sensory, reward, control, telemetry
      ensures drained == DrainedOf(old(State())) && State() == AfterDrain(old(State()))
    {
      var controls := control.DrainAll();
      var rewarded := reward.Pop();
      var sensed := sensory.Pop();
      var bulk := telemetry.DrainAll();
      drained := DrainedTick(controls, rewarded, sensed, |bulk|);
    }

    /** The flag goes up before any queue is closed. */
    method CloseAll()
      requires Valid()
      modifies this`shuttingDown, sensory, reward, control, telemetry
      ensures State() == IngressState(true, Closed(old(State()).sensory), Closed(old(State()).reward),
                                      Closed(old(State()).control), Closed(old(State()).telemetry))
    {
      shuttingDown := true;
      sensory.Close();
      reward.Close();
      control.Close();
      telemetry.Close();
    }

    /** Depth and capacity summed over the classes. */
    method Pressure() returns (depth: nat, capacity: nat)
      requires Valid()
      ensures depth == State().Depth() && capacity == TotalCapacity(config)
    {
      depth := |control.items| + |reward.items| + |sensory.items| + |telemetry.items|;
      capacity := control.config.capacity + reward.config.capacity + sensory.config.capacity
                  + telemetry.config.capacity;
    }
  }
}
