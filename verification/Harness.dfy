/** The harness itself: owned fields updated step by step, each method proved against Protocol. */
module Harness {
  import opened Prelude
  import opened Durable
  import opened Runtime
  import opened Protocol

  class RuntimeHarness {
    var nowNs: u64
    var coreSteps: nat
    var lastStimuli: Option<seq<Float>>
    var store: Blob
    var durable: DurableState
    var armed: Option<FaultPoint>
    var source: seq<Packet>
    var published: seq<CommittedOutput>
    var metrics: seq<MetricEvent>
    var health: Health
    var sessionId: u64
    var live: bool
    var liveLoopEntered: bool
    var incompletePrior: bool
    var restart: Option<RestartOutcome>
    var skippedReplays: nat
    var stepsTaken: u32
    var channelOpen: bool

    ghost function State(): Session
      reads this
    {
      Session(nowNs, coreSteps, lastStimuli, store, durable, armed, source, published, metrics, health, sessionId,
              live, liveLoopEntered, incompletePrior, restart, skippedReplays, stepsTaken, channelOpen)
    }

    constructor (seed: u64, store: Blob, packets: seq<Packet>, fault: Option<FaultPoint>)
      ensures State() == Build(seed, store, packets, fault)
    {
      nowNs := SaturatingAdd((seed * 1_000_000) % (U64_MAX + 1), 1);
      coreSteps, lastStimuli := 0, None;
      this.store, durable := store, DurableState.Fresh();
      armed, source := fault, packets;
      published, metrics := [], [];
      health, sessionId := Starting, 0;
      live, liveLoopEntered, incompletePrior := false, false, false;
      restart, skippedReplays, stepsTaken, channelOpen := None, 0, 0, false;
    }

    method ArmFault(point: FaultPoint)
      modifies this
      ensures State() == old(State()).(armed := Some(point))
    {
      armed := Some(point);
    }

    method PushIngress(packet: Packet)
      modifies this
      ensures State() == old(State()).(source := old(source) + [packet])
    {
      source := source + [packet];
    }

    method PushIngressFront(packet: Packet)
      modifies this
      ensures State() == old(State()).(source := [packet] + old(source))
    {
      source := [packet] + source;
    }

    /** One-shot: true, and disarmed, only at the armed point. */
    method Take(point: FaultPoint) returns (fired: bool)
      modifies this
      ensures fired == (old(armed) == Some(point))
      ensures State() == if fired then old(State()).(armed := None) else old(State())
    {
      fired := armed == Some(point);
      if fired {
        armed := None;
      }
    }

    method InjectFault(point: FaultPoint)
      modifies this
      ensures State() == ApplyFault(old(State()), point)
    {
      health := InjectedTerminalHealth(point);
      if health in {Faulted, Degraded, IncompleteShutdown, CheckpointInvalid} {
        live := false;
      }
    }

    method CheckFault(point: FaultPoint) returns (r: Reply<()>)
      modifies this
      ensures r == (if Armed(old(State()), point) then Failure(Injected(point)) else Value(()))
      ensures State() == if r.Failure? then ApplyFault(old(State()).(armed := None), point) else old(State())
    {
      var fired := Take(point);
      if fired {
        InjectFault(point);
        return Failure(Injected(point));
      }
      r := Value(());
    }

    method Save(state: DurableState) returns (r: Reply<()>)
      modifies this
      ensures r == (if state.Validate() then Value(()) else Failure(InvalidDurable))
      ensures State() == if state.Validate() then old(State()).(store := Encoded(state)) else old(State())
    {
      if !state.Validate() {
        return Failure(InvalidDurable);
      }
      store := Encoded(state);
      r := Value(());
    }

    method RejectCheckpoint()
      modifies this
      ensures State() == Reject(old(State()))
    {
      health := CheckpointInvalid;
      restart := Some(RejectedInvalid);
      live := false;
    }

    method InitializeSession() returns (r: Reply<()>)
      modifies this
      ensures r.From(State()) == InitializeStep(old(State()))
    {
      r := CheckFault(Before(Initialize));
      if r.Failure? { return; }
      ghost var s := State();
      coreSteps, lastStimuli := 0, None;
      channelOpen := true;
      published := [];
      metrics := [];
      assert State() == s.(coreSteps := 0, lastStimuli := None, channelOpen := true, published := [], metrics := []);
      r := CheckFault(After(Initialize));
    }

    method StartFresh() returns (r: Reply<()>)
      modifies this
      ensures r.From(State()) == StartFreshSession(old(State()))
    {
      durable := DurableState.Fresh();
      sessionId := 1;
      durable := durable.(lastSessionId := 1);
      assert State() == old(State()).(durable := durable, sessionId := 1);
      r := Save(durable);
      if r.Failure? { return; }
      incompletePrior := false;
      restart := Some(FreshStart);
    }

    method Adopt(state: DurableState) returns (r: Reply<()>)
      requires state.Validate()
      modifies this
      ensures r.From(State()) == Ok(AdoptSession(old(State()), state), ())
    {
      sessionId := state.lastSessionId;
      r := Save(state);
      if r.Failure? { return; }
      durable := state;
      restart := Some(RecoveryOutcome(incompletePrior));
    }

    /** Called with a state that Load validated, so the save cannot be refused. */
    method Recover(loaded: DurableState) returns (r: Reply<()>)
      requires loaded.Validate()
      modifies this
      ensures r.From(State()) == RecoverSession(old(State()), loaded)
    {
      incompletePrior := loaded.inflight.Some?;
      if loaded.lastSessionId == U64_MAX {
        RejectCheckpoint();
        return Failure(SessionIdOverflow);
      }
      var next := loaded.(inflight := None, lastSessionId := loaded.lastSessionId + 1);
      r := Adopt(next);
    }

    method LoadCheckpoint() returns (r: Reply<()>)
      modifies this
      ensures r.From(State()) == ValidateCheckpoint(old(State()))
    {
      r := CheckFault(Before(CheckpointValidation));
      if r.Failure? { return; }
      var poisoned := Take(MalformedCheckpoint);
      if poisoned {
        store := Garbage;
        RejectCheckpoint();
        return Failure(MalformedBlob);
      }
      match Load(store) {
        case FirstBoot =>
          r := StartFresh();
        case Found(state) =>
          if state.committedTickSeq == U64_MAX {
            RejectCheckpoint();
            return Failure(TickSequenceOverflow);
          }
          r := Recover(state);
        case Invalid =>
          RejectCheckpoint();
          r := Failure(InvalidDurable);
      }
    }

    method Boot() returns (r: Reply<()>)
      modifies this
      ensures r.From(State()) == BootStep(old(State()))
    {
      hide InitializeStep, ValidateCheckpoint;
      health := Starting;
      assert State() == old(State()).(health := Starting);
      r := InitializeSession();
      if r.Failure? { return; }
      r := LoadCheckpoint();
      if r.Failure? { return; }
      r := CheckFault(After(CheckpointValidation));
      if r.Failure? { return; }
      health := Live;
      live := true;
      liveLoopEntered := true;
    }

    method StartTick() returns (r: Reply<()>)
      modifies this
      ensures r.From(State()) == BeginTick(old(State()))
    {
      if !live {
        return Failure(NotStarted);
      }
      stepsTaken := Min(stepsTaken + 1, U32_MAX);
      if stepsTaken > MAX_STEPS {
        return Failure(StepLimit);
      }
      nowNs := SaturatingAdd(nowNs, TICK_PERIOD_NS);
      r := Value(());
    }

    method NextPacket() returns (r: Reply<Option<Packet>>)
      modifies this
      ensures r.From(State()) == IngressStep(old(State()))
    {
      var checked := CheckFault(Before(Ingress));
      if checked.Failure? { return Failure(checked.error); }
      var closed := Take(ClosedChannel);
      if closed || !channelOpen {
        InjectFault(ClosedChannel);
        return Failure(ChannelClosed);
      }
      var packet: Option<Packet> := None;
      if source != [] {
        packet := Some(source[0]);
        source := source[1..];
      }
      checked := CheckFault(After(Ingress));
      if checked.Failure? { return Failure(checked.error); }
      r := Value(packet);
    }

    method WriteInflight(packet: Packet) returns (r: Reply<u64>)
      modifies this
      ensures r.From(State()) == MarkInflight(old(State()), packet)
    {
      if durable.committedTickSeq == U64_MAX {
        health := Faulted;
        live := false;
        return Failure(TickSequenceOverflow);
      }
      var tickSeq: u64 := durable.committedTickSeq + 1;
      var next := durable.(inflight := Some(InflightRecord(sessionId, tickSeq, packet.seqNo)));
      var saved := Save(next);
      if saved.Failure? { return Failure(saved.error); }
      durable := next;
      r := Value(tickSeq);
    }

    method StepNetwork(packet: Packet) returns (r: Reply<seq<nat>>)
      modifies this
      ensures r.From(State()) == StepCore(old(State()), packet)
    {
      var failed := Take(CoreStepError);
      if failed {
        InjectFault(CoreStepError);
        return Failure(CoreFailed);
      }
      coreSteps := coreSteps + 1;
      lastStimuli := Some(packet.stimuli);
      var spikeIds := SpikesFrom(packet.stimuli, 0);
      var checked := CheckFault(After(TickExecute));
      if checked.Failure? { return Failure(checked.error); }
      r := Value(spikeIds);
    }

    method Execute(packet: Packet) returns (r: Reply<(u64, seq<nat>)>)
      modifies this
      ensures r.From(State()) == ExecuteTick(old(State()), packet)
    {
      var checked := CheckFault(Before(TickExecute));
      if checked.Failure? { return Failure(checked.error); }
      var marked := WriteInflight(packet);
      if marked.Failure? { return Failure(marked.error); }
      var stepped := StepNetwork(packet);
      if stepped.Failure? { return Failure(stepped.error); }
      r := Value((marked.value, stepped.value));
    }

    method CommitOutput(tickSeq: u64, ingressSeq: u64, spikeIds: seq<nat>) returns (r: Reply<()>)
      modifies this
      ensures r.From(State()) == Commit(old(State()), tickSeq, ingressSeq, spikeIds)
    {
      var output := CommittedOutput(sessionId, tickSeq, ingressSeq, spikeIds, nowNs);
      var next := durable.(committedTickSeq := tickSeq, committedIngressSeq := ingressSeq, inflight := None);
      r := Save(next);
      if r.Failure? { return; }
      durable := next;
      metrics := metrics + [MetricEvent(output.sessionId, output.tickSeq, output.ingressSeq)];
      published := published + [output];
    }

    method Publish(tickSeq: u64, ingressSeq: u64, spikeIds: seq<nat>) returns (r: Reply<()>)
      modifies this
      ensures r.From(State()) == PublishMetrics(old(State()), tickSeq, ingressSeq, spikeIds)
    {
      r := CheckFault(Before(MetricPublish));
      if r.Failure? { return; }
      var stalled := Take(BackpressureTimeout);
      if stalled {
        nowNs := SaturatingAdd(nowNs, BACKPRESSURE_BUDGET_NS);
        InjectFault(BackpressureTimeout);
        return Failure(Backpressure);
      }
      if !channelOpen {
        health := Degraded;
        return Failure(PublishClosed);
      }
      r := CommitOutput(tickSeq, ingressSeq, spikeIds);
      if r.Failure? { return; }
      r := CheckFault(After(MetricPublish));
    }

    method RunTick() returns (r: Reply<TickResult>)
      modifies this
      ensures r.From(State()) == TickStep(old(State()))
    {
      var begun := StartTick();
      if begun.Failure? { return Failure(begun.error); }
      var next := NextPacket();
      if next.Failure? { return Failure(next.error); }
      if next.value.None? {
        return Value(NoIngress);
      }
      var packet := next.value.value;
      if packet.seqNo <= durable.committedIngressSeq {
        skippedReplays := skippedReplays + 1;
        return Value(SkippedReplay);
      }
      var executed := Execute(packet);
      if executed.Failure? { return Failure(executed.error); }
      var done := Publish(executed.value.0, packet.seqNo, executed.value.1);
      if done.Failure? { return Failure(done.error); }
      r := Value(Committed);
    }

    method Stop() returns (r: Reply<()>)
      modifies this
      ensures r.From(State()) == ShutdownStep(old(State()))
    {
      health := ShuttingDown;
      ghost var s := old(State()).(health := ShuttingDown);
      assert State() == s;
      r := CheckFault(Before(Shutdown));
      if r.Failure? { return; }
      var interrupted := Take(InterruptedShutdown);
      if interrupted {
        InjectFault(InterruptedShutdown);
        return Failure(ShutdownInterrupted);
      }
      channelOpen := false;
      live := false;
      assert State() == s.(channelOpen := false, live := false);
      r := CheckFault(After(Shutdown));
      if r.Failure? { return; }
      health := Stopped;
    }
  }
}
