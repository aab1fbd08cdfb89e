/** The machine behind the health handle: flags and stamps updated event by event. */
module Health {
  import opened Prelude
  import opened HealthSpec

  class HealthMachine {
    const limits: HealthLimits
    var started: bool
    var initialized: bool
    var checkpointOk: bool
    var draining: bool
    var startedAt: Option<nat>
    var checkpointAt: Option<nat>
    var lastTick: Option<nat>
    var lastIngress: Option<nat>
    var checkpoint: Option<CheckpointIdentity>
    var queueDepth: nat
    var queueCapacity: nat
    var overloaded: bool
    var counters: RuntimeCounters
    var fatal: Option<FatalState>

    ghost function State(): HealthState
      reads this
    {
      HealthState(limits, started, initialized, checkpointOk, draining, startedAt, checkpointAt, lastTick,
                  lastIngress, checkpoint, queueDepth, queueCapacity, overloaded, counters, fatal)
    }

    constructor (requested: HealthLimits)
      ensures State() == NewMachine(requested)
    {
      limits := Sanitized(requested);
      started, initialized, checkpointOk, draining := false, false, false, false;
      startedAt, checkpointAt, lastTick, lastIngress, checkpoint := None, None, None, None, None;
      queueDepth, queueCapacity, overloaded := 0, 0, false;
      counters := NoCounters;
      fatal := None;
    }

    method RaiseFatal(code: FatalCode, detail: string)
      modifies this
      ensures State() == EnterFatal(old(State()), code, detail)
    {
      if fatal.Some? {
        return;
      }
      fatal := Some(FatalState(code, detail));
      checkpointOk := false;
    }

    method ApplyBoot(event: HealthEvent, now: nat)
      requires event.ProcessStarted? || event.InitializationCompleted? || event.InitializationFailed?
      modifies this
      ensures State() == Apply(old(State()), event, now)
    {
      match event {
        case ProcessStarted =>
          if !started {
            started := true;
            startedAt := Some(now);
          }
        case InitializationCompleted =>
          if started && fatal.None? && !draining {
            initialized := true;
          }
        case InitializationFailed(detail) =>
          if started {
            RaiseFatal(InitFailed, detail);
          }
      }
    }

    method ApplyCheckpoint(event: HealthEvent, now: nat)
      requires event.CheckpointValidated? || event.CheckpointRejected?
      modifies this
      ensures State() == Apply(old(State()), event, now)
    {
      match event {
        case CheckpointValidated(identity) =>
          if started && fatal.None? && !draining && initialized {
            checkpoint := Some(identity);
            checkpointOk := true;
            checkpointAt := Some(now);
          }
        case CheckpointRejected(detail) =>
          if started {
            RaiseFatal(CheckpointInvalid, detail);
          }
      }
    }

    /** These act even before the process was started. */
    method ApplyTerminal(event: HealthEvent, now: nat)
      requires event.BeginDrain? || event.FatalRaised?
      modifies this
      ensures State() == Apply(old(State()), event, now)
    {
      match event {
        case BeginDrain =>
          if fatal.None? {
            draining := true;
          }
        case FatalRaised(code, detail) =>
          RaiseFatal(code, detail);
      }
    }

    method ApplyRuntime(event: HealthEvent, now: nat)
      requires event.TickSucceeded? || event.IngressObserved? || event.QueuePressure? || event.CountersPublished?
      modifies this
      ensures State() == Apply(old(State()), event, now)
    {
      match event {
        case TickSucceeded => lastTick := Some(now);
        case IngressObserved => lastIngress := Some(now);
        case CountersPublished(next) => counters := counters.MergedMonotonic(next);
        case QueuePressure(depth, capacity) =>
          queueDepth := depth;
          queueCapacity := capacity;
          overloaded := NextOverload(overloaded, depth, capacity, FiniteOr(limits.overloadHigh, 0.90),
                                     FiniteOr(limits.overloadLow, 0.70));
      }
    }

    method ApplyEvent(event: HealthEvent, now: nat)
      modifies this
      ensures State() == Apply(old(State()), event, now)
    {
      match event {
        case TickSucceeded | IngressObserved | QueuePressure(_, _) | CountersPublished(_) =>
          ApplyRuntime(event, now);
        case ProcessStarted | InitializationCompleted | InitializationFailed(_) =>
          ApplyBoot(event, now);
        case CheckpointValidated(_) | CheckpointRejected(_) =>
          ApplyCheckpoint(event, now);
        case BeginDrain | FatalRaised(_, _) =>
          ApplyTerminal(event, now);
      }
    }

    method Snapshot(now: nat) returns (ready: bool, phase: HealthPhase, reasons: seq<ReasonCode>, stale: bool)
      ensures stale == Stale(State(), now) && ready == Ready(State())
      ensures phase == Phase(State(), stale) && reasons == Reasons(State(), stale)
    {
      stale := false;
      if initialized && checkpointOk {
        var baseline := if lastIngress.Some? then lastIngress else checkpointAt;
        if baseline.Some? {
          stale := Max(0, now - baseline.value) >= limits.staleAfter;
        }
      }
      ready := started && initialized && checkpointOk && !draining && fatal.None?;
      if fatal.Some? {
        phase, reasons := Fatal, [FatalError];
        return;
      }
      phase := if draining then Draining
               else if !initialized then Starting
               else if !checkpointOk then LoadingCheckpoint
               else if stale || overloaded then Degraded
               else Running;
      reasons := if !initialized then [StartingUp] else if !checkpointOk then [CheckpointPending] else [];
      if draining {
        reasons := reasons + [DrainingOut];
      }
      if stale {
        reasons := reasons + [StaleInput];
      }
      if overloaded {
        reasons := reasons + [Overload];
      }
    }
  }
}
