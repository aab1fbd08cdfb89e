/** The tick loop's state and its steps, on the shared queues, the health machine and the four limiters. */
module TickLoop {
  import opened Prelude
  import opened IngressTypes
  import opened IngressSpec
  import opened Ingress
  import opened HealthSpec
  import opened Health
  import opened LimiterSpec
  import opened Limiter
  import opened Decode
  import opened TickSpec

  datatype NonFiniteInput = Stimulus(index: nat) | Modulator(index: nat)

  /** Position of the first NaN or infinity. */
  method FirstBad(values: seq<Float>) returns (index: Option<nat>)
    ensures index.None? <==> AllFinite(values)
    ensures index.Some? ==>
              index.value < |values| && !values[index.value].IsFinite() && AllFinite(values[..index.value])
  {
    var i := 0;
    while i < |values|
      invariant 0 <= i <= |values|
      invariant AllFinite(values[..i])
    {
      if !values[i].IsFinite() {
        assert values[i] in values;
        return Some(i);
      }
      assert values[..i + 1] == values[..i] + [values[i]];
      i := i + 1;
    }
    assert values[..i] == values;
    index := None;
  }

  /** Stimuli are scanned before modulators, and regardless of the mask. */
  method FirstNonFinite(p: IngressPacket) returns (offender: Option<NonFiniteInput>)
    ensures offender.None? <==> PacketFinite(p)
    ensures offender.Some? && offender.value.Stimulus? ==>
              var i := offender.value.index;
              i < |p.stimuli| && !p.stimuli[i].IsFinite() && AllFinite(p.stimuli[..i])
    ensures offender.Some? && offender.value.Modulator? ==>
              var i := offender.value.index;
              AllFinite(p.stimuli) && p.modulators.Some? && i < |p.modulators.value|
              && !p.modulators.value[i].IsFinite() && AllFinite(p.modulators.value[..i])
  {
    offender := None;
    var bad := FirstBad(p.stimuli);
    if bad.Some? {
      return Some(Stimulus(bad.value));
    }
    if p.modulators.Some? {
      bad := FirstBad(p.modulators.value);
      if bad.Some? {
        return Some(Modulator(bad.value));
      }
    }
  }

  class BrainstemLoop {
    const ingress: BoundedIngress
    const health: HealthMachine
    const receive: OccurrenceLimiter
    const emit: OccurrenceLimiter
    const dropped: OccurrenceLimiter
    const nonFinite: OccurrenceLimiter
    const stimuli: array<Float>
    var stats: Stats
    var spikeBuf: seq<nat>

    ghost predicate Valid()
      reads this, ingress
    {
      && ingress.Valid()
      && receive != emit && receive != dropped && receive != nonFinite
      && emit != dropped && emit != nonFinite && dropped != nonFinite
    }

    ghost function Diag(): Diagnostics
      reads receive, emit, dropped, nonFinite
    {
      Diagnostics(receive.State(), emit.State(), dropped.State(), nonFinite.State())
    }

    ghost function State(): Daemon
      reads this, ingress, ingress.sensory, ingress.reward, ingress.control, ingress.telemetry, health
      reads receive, emit, dropped, nonFinite
    {
      Daemon(ingress.State(), health.State(), stats, Diag())
    }

    constructor (ingress: BoundedIngress, health: HealthMachine, channels: nat)
      requires ingress.Valid()
      ensures Valid() && this.ingress == ingress && this.health == health && stimuli.Length == channels
      ensures fresh(this) && fresh(receive) && fresh(emit) && fresh(dropped) && fresh(nonFinite) && fresh(stimuli)
      ensures stats == Stats(NoCounters, None, None)
      ensures var once := LimiterState(1_000, 1_000_000_000, 0, 0, None, None);
              Diag() == Diagnostics(once, once, once, once)
    {
      this.ingress, this.health := ingress, health;
      receive := new OccurrenceLimiter(1_000, 1_000_000_000);
      emit := new OccurrenceLimiter(1_000, 1_000_000_000);
      dropped := new OccurrenceLimiter(1_000, 1_000_000_000);
      nonFinite := new OccurrenceLimiter(1_000, 1_000_000_000);
      stimuli := new Float[channels](_ => ZERO);
      stats, spikeBuf := Stats(NoCounters, None, None), [];
    }

    /** Emits or counts as suppressed. */
    method Note(suppressed: Option<u64>)
      modifies this`stats
      ensures forall s :: stats == old(stats).(counters := Reported(old(stats).counters, Recorded(s, suppressed)))
    {
      var c := stats.counters;
      if suppressed.Some? {
        stats := stats.(counters := c.(diagnosticEmissions := SaturatingAdd(c.diagnosticEmissions, 1)));
      } else {
        stats := stats.(counters := c.(suppressedDiagnostics := SaturatingAdd(c.suppressedDiagnostics, 1)));
      }
    }

    method RecordNonFiniteRejection(now: nat)
      requires Valid()
      modifies this`stats, nonFinite
      ensures State() == RejectNonFinite(old(State()), now)
    {
      stats := stats.(counters := stats.counters.(rejectedBatches := Bump(stats.counters.rejectedBatches)));
      var suppressed := nonFinite.RecordOccurrence(DiagnosticKey(NON_FINITE_CATEGORY), now);
      Note(suppressed);
    }

    method ReceiveFailed(message: string, now: nat)
      requires Valid()
      modifies this`stats, receive
      ensures forall o: Outside :: o.received == ReceiveError(message) && o.clock(0) == now ==>
                State() == ReceivePhase(old(State()), o)
    {
      var c := stats.counters;
      stats := stats.(counters := c.(receiveErrors := SaturatingAdd(c.receiveErrors, 1),
                                     rejectedBatches := Bump(c.rejectedBatches)));
      var suppressed := receive.RecordOccurrence(DiagnosticKey(message), now);
      Note(suppressed);
    }

    method ObserveIngress(p: IngressPacket, finite: bool, now: nat)
      requires Valid() && finite == PacketFinite(p)
      modifies health
      ensures State() == Observe(old(State()), p, now)
    {
      if (p.stimuli != [] || (p.modulators.Some? && p.modulators.value != [])) && finite {
        health.ApplyEvent(IngressObserved, now);
      }
    }

    method AccountAndAdmitPacket(p: IngressPacket)
      requires Valid()
      modifies this`stats, ingress.sensory, ingress.reward
      ensures State() == AccountAndAdmit(ingress.config, old(State()), p)
    {
      if p.rejected {
        stats := stats.(counters := stats.counters.(rejectedBatches := Bump(stats.counters.rejectedBatches)));
        var offender := FirstNonFinite(p);
        if offender.None? {
          ingress.Admit(p);
        }
        return;
      }
      if p.batchId.Some? {
        stats := Stats(stats.counters.(acceptedBatches := Bump(stats.counters.acceptedBatches)), p.batchId,
                       p.validMask);
      }
      ingress.Admit(p);
    }

    method TakeInput(o: Outside)
      requires Valid()
      modifies this`stats, health, ingress.sensory, ingress.reward, receive, nonFinite
      ensures State() == InputPhase(ingress.config, old(State()), o)
    {
      match o.received {
        case Nothing =>
        case ReceiveError(message) => ReceiveFailed(message, o.clock(0));
        case Packet(p) =>
          var offender := FirstNonFinite(p);
          if !p.rejected && offender.Some? {
            RecordNonFiniteRejection(o.clock(1));
          } else {
            ObserveIngress(p, offender.None?, o.clock(2));
            AccountAndAdmitPacket(p);
          }
      }
    }

    method DrainAndMeasure(now: nat) returns (packet: IngressPacket)
      requires Valid()
      modifies health, ingress.sensory, ingress.reward, ingress.control, ingress.telemetry
      ensures State() == DrainPhase(ingress.config, old(State()), now)
      ensures packet == IntoPacket(DrainedOf(old(State()).ingress))
    {
      var drained := ingress.DrainForTick();
      packet := IntoPacket(drained);
      var depth, capacity := ingress.Pressure();
      health.ApplyEvent(QueuePressure(depth, capacity), now);
    }

    method NarrowIds(ids: seq<nat>) returns (lost: nat)
      modifies this`spikeBuf
      ensures spikeBuf == Kept(ids) && lost == |ids| - |Kept(ids)|
    {
      spikeBuf := [];
      lost := 0;
      var i := 0;
      while i < |ids|
        invariant 0 <= i <= |ids|
        invariant spikeBuf == Kept(ids[..i]) && lost == i - |Kept(ids[..i])|
      {
        assert ids[..i + 1][..i] == ids[..i];
        if ids[i] <= MAX_CHANNEL_ID {
          spikeBuf := spikeBuf + [ids[i]];
        } else {
          lost := lost + 1;
        }
        i := i + 1;
      }
      assert ids[..i] == ids;
    }

    method NoteDropped(lost: nat, now: nat)
      requires Valid()
      modifies this`stats, dropped
      ensures State() == ReportDropped(old(State()), lost, now)
    {
      if lost > 0 {
        var c := stats.counters;
        stats := stats.(counters := c.(droppedSpikes := SaturatingAdd(c.droppedSpikes, Min(lost, U64_MAX))));
        var suppressed := dropped.RecordOccurrence(DiagnosticKey(DROPPED_MESSAGE), now);
        Note(suppressed);
      }
    }

    method EmitFailed(message: string, now: nat, healthNow: nat)
      requires Valid()
      modifies this`stats, health, emit
      ensures State() == ReportEmitError(old(State()), message, now, healthNow)
    {
      var c := stats.counters;
      stats := stats.(counters := c.(emitErrors := SaturatingAdd(c.emitErrors, 1)));
      var suppressed := emit.RecordOccurrence(DiagnosticKey(message), now);
      Note(suppressed);
      health.ApplyEvent(FatalRaised(Unspecified, message), healthNow);
    }

    method PublishSpikes(ids: seq<nat>, o: Outside)
      requires Valid()
      modifies this`stats, this`spikeBuf, health, dropped, emit
      ensures State() == SpikePhase(old(State()), ids, o)
    {
      hide DiagnosticKey, Record;
      stats := stats.(counters := stats.counters.(ticks := Bump(stats.counters.ticks)));
      var lost := NarrowIds(ids);
      NoteDropped(lost, o.clock(6));
      ghost var d := old(State());
      ghost var c := d.stats.counters;
      assert State() == ReportDropped(WithCounters(d, c.(ticks := Bump(c.ticks))), lost, o.clock(6));
      if spikeBuf == [] && ids != [] {
        health.ApplyEvent(TickSucceeded, o.clock(5));
        return;
      }
      var failed := o.sink(spikeBuf);
      if failed.Some? {
        EmitFailed(failed.value, o.clock(7), o.clock(5));
        return;
      }
      health.ApplyEvent(TickSucceeded, o.clock(5));
    }

    method StepNetwork(p: IngressPacket, o: Outside)
      requires Valid()
      modifies this`stats, this`spikeBuf, stimuli, health, dropped, emit, nonFinite
      ensures State() == StepPhase(old(State()), p, stimuli.Length, o)
    {
      hide DiagnosticKey, Kept;
      var offender := FirstNonFinite(p);
      if offender.Some? {
        RecordNonFiniteRejection(o.clock(4));
        health.ApplyEvent(TickSucceeded, o.clock(5));
        return;
      }
      var modulators := DecodeInputs(p, stimuli, o.defaults);
      var stepped := o.network(stimuli[..], modulators);
      match stepped {
        case StepError(detail) => health.ApplyEvent(FatalRaised(Unspecified, detail), o.clock(5));
        case Spikes(ids) => PublishSpikes(ids, o);
      }
    }

    method RunTick(o: Outside)
      requires Valid()
      modifies this`stats, this`spikeBuf, stimuli, health, receive, emit, dropped, nonFinite
      modifies ingress.sensory, ingress.reward, ingress.control, ingress.telemetry
      ensures State() == Tick(ingress.config, stimuli.Length, old(State()), o)
    {
      TakeInput(o);
      var packet := DrainAndMeasure(o.clock(3));
      StepNetwork(packet, o);
    }

    /** Counters are published on every way out of the tick. */
    method RunTickPublished(o: Outside)
      requires Valid()
      modifies this`stats, this`spikeBuf, stimuli, health, receive, emit, dropped, nonFinite
      modifies ingress.sensory, ingress.reward, ingress.control, ingress.telemetry
      ensures State() == TickPublished(ingress.config, stimuli.Length, old(State()), o)
    {
      RunTick(o);
      health.ApplyEvent(CountersPublished(stats.counters), o.clock(8));
    }
  }
}
