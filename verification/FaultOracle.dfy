/**
 The documented outcome of every injection point (src/runtime/mod.rs) and the scenario that drives
 the harness into it: a first session with the fault, then a restart on the store it left.
 */
module FaultOracle {
  import opened Prelude
  import opened Durable
  import opened Runtime
  import opened Protocol
  import opened SessionFacts

  datatype ExpectedOutcome = ExpectedOutcome(
    terminalHealth: Health, restart: RestartOutcome, published: nat, liveLoopEntered: bool)

  function Expected(point: FaultPoint): ExpectedOutcome {
    match point
    case Before(boundary) => BeforeBoundary(boundary)
    case After(boundary) => AfterBoundary(boundary)
    case MalformedCheckpoint => ExpectedOutcome(CheckpointInvalid, RejectedInvalid, 0, false)
    case CoreStepError => IncompleteTick(Faulted)
    case ClosedChannel => IngressDegraded()
    case BackpressureTimeout => IncompleteTick(Degraded)
    case InterruptedShutdown => ShutdownIncomplete()
  }

  function BeforeBoundary(boundary: Boundary): ExpectedOutcome {
    match boundary
    case Initialize | CheckpointValidation => ExpectedOutcome(Faulted, FreshStart, 0, false)
    case Ingress => IngressDegraded()
    case TickExecute => ExpectedOutcome(Faulted, RecoveredClean, 0, true)
    case MetricPublish => IncompleteTick(Degraded)
    case Shutdown => ShutdownIncomplete()
  }

  function AfterBoundary(boundary: Boundary): ExpectedOutcome {
    match boundary
    case Initialize => ExpectedOutcome(Faulted, FreshStart, 0, false)
    case CheckpointValidation => ExpectedOutcome(Faulted, RecoveredClean, 0, false)
    case Ingress => IngressDegraded()
    case TickExecute => IncompleteTick(Faulted)
    case MetricPublish | Shutdown => ExpectedOutcome(Faulted, RecoveredClean, 1, true)
  }

  function IngressDegraded(): ExpectedOutcome {
    ExpectedOutcome(Degraded, RecoveredClean, 0, true)
  }

  function IncompleteTick(health: Health): ExpectedOutcome {
    ExpectedOutcome(health, RecoveredIncomplete, 0, true)
  }

  function ShutdownIncomplete(): ExpectedOutcome {
    ExpectedOutcome(IncompleteShutdown, RecoveredClean, 1, true)
  }

  /** Whether the fault lies in a boot, in a tick or in a shutdown. */
  predicate IsBootFault(point: FaultPoint) {
    match point
    case Before(b) => b == Initialize || b == CheckpointValidation
    case After(b) => b == Initialize || b == CheckpointValidation
    case MalformedCheckpoint => true
    case _ => false
  }

  predicate IsIngressFault(point: FaultPoint) {
    point == Before(Ingress) || point == After(Ingress) || point == ClosedChannel
  }

  predicate IsExecuteFault(point: FaultPoint) {
    point == Before(TickExecute) || point == CoreStepError || point == After(TickExecute)
  }

  predicate IsPublishFault(point: FaultPoint) {
    point == Before(MetricPublish) || point == BackpressureTimeout || point == After(MetricPublish)
  }

  predicate IsTickFault(point: FaultPoint) {
    IsIngressFault(point) || IsExecuteFault(point) || IsPublishFault(point)
  }

  predicate IsShutdownFault(point: FaultPoint) {
    point == Before(Shutdown) || point == After(Shutdown) || point == InterruptedShutdown
  }

  /** The session in which the fault fires. Shutdown faults run one good tick first. */
  function FirstSession(seed: u64, point: FaultPoint, store: Blob, script: seq<Packet>): Session {
    if IsShutdownFault(point) then
      var ticked := TickStep(BootStep(Build(seed, store, script, None)).s).s;
      ShutdownStep(ticked.(armed := Some(point))).s
    else
      var boot := BootStep(Build(seed, store, script, Some(point)));
      if boot.Ok? && boot.s.live then TickStep(boot.s).s else boot.s
  }

  function Restarted(seed: u64, first: Session, script: seq<Packet>): Run<()> {
    BootStep(Build(seed, first.store, script, None))
  }

  /** What the next boot makes of a store. */
  lemma RestartFacts(seed: u64, store: Blob, script: seq<Packet>)
    ensures var r := BootStep(Build(seed, store, script, None));
            match Load(store)
            case Invalid => r.Err? && r.s.restart == Some(RejectedInvalid) && !r.s.incompletePrior && !r.s.live
            case FirstBoot => r.Ok? && r.s.restart == Some(FreshStart) && r.s.sessionId == 1 && !r.s.incompletePrior
                              && r.s.durable == DurableState.Fresh().(lastSessionId := 1)
            case Found(d) =>
              d.lastSessionId < U64_MAX && d.committedTickSeq < U64_MAX ==>
                && r.Ok? && r.s.restart == Some(RecoveryOutcome(d.inflight.Some?))
                && r.s.incompletePrior == d.inflight.Some? && r.s.sessionId == d.lastSessionId + 1
                && r.s.durable == d.(inflight := None, lastSessionId := d.lastSessionId + 1)
  {
  }

  /** A first boot on an empty store with a fault armed that the boot does not reach. */
  lemma FirstBootFacts(seed: u64, script: seq<Packet>, fault: Option<FaultPoint>)
    requires fault.Some? ==> !IsBootFault(fault.value)
    ensures var r := BootStep(Build(seed, Absent, script, fault));
            && r.Ok? && r.s.live && r.s.health == Live && r.s.liveLoopEntered && r.s.channelOpen
            && r.s.armed == fault && r.s.stepsTaken == 0 && r.s.sessionId == 1
            && r.s.published == [] && r.s.metrics == [] && r.s.skippedReplays == 0
            && r.s.source == script && r.s.durable == DurableState.Fresh().(lastSessionId := 1)
            && r.s.store == Encoded(r.s.durable)
  {
  }

  /** The error a tick reports when the fault fires in it. */
  function ErrorOf(point: FaultPoint): Error {
    match point
    case CoreStepError => CoreFailed
    case ClosedChannel => ChannelClosed
    case BackpressureTimeout => Backpressure
    case _ => Injected(point)
  }

  /** The durable state a fault in the work on `p` leaves: untouched, with the marker, or committed. */
  function Leaves(s: Session, p: Packet, point: FaultPoint): DurableState
    requires s.durable.committedTickSeq < U64_MAX
  {
    if IsIngressFault(point) || point == Before(TickExecute) then s.durable
    else if point == After(MetricPublish) then Committing(s, p)
    else Inflight(s, p)
  }

  /** A live session with one fault armed and room for one more tick. */
  ghost predicate AboutTo(s: Session, p: Packet, point: FaultPoint) {
    && SessionOk(s) && s.live && s.armed == Some(point)
    && p.seqNo > s.durable.committedIngressSeq && s.durable.committedTickSeq < U64_MAX
  }

  /** The run `r` of the work on `p` ended in the fault at `point`. */
  ghost predicate StopsAt<T>(s: Session, p: Packet, point: FaultPoint, r: Run<T>) {
    && s.durable.committedTickSeq < U64_MAX
    && r.Err? && r.error == ErrorOf(point) && r.s.armed.None? && !r.s.live
    && r.s.health == InjectedTerminalHealth(point) && r.s.liveLoopEntered
    && r.s.durable == Leaves(s, p, point) && r.s.store == Encoded(r.s.durable)
    && |r.s.published| == |s.published| + (if point == After(MetricPublish) then 1 else 0)
    && |r.s.metrics| == |s.metrics| + (if point == After(MetricPublish) then 1 else 0)
  }

  lemma IngressStopsAt(s: Session, p: Packet, point: FaultPoint)
    requires AboutTo(s, p, point) && IsIngressFault(point)
    ensures StopsAt(s, p, point, IngressStep(s))
  {
  }

  lemma ExecuteStopsAt(s: Session, p: Packet, point: FaultPoint)
    requires AboutTo(s, p, point) && IsExecuteFault(point)
    ensures StopsAt(s, p, point, ExecuteTick(s, p))
  {
    assert Inflight(s, p).Validate();
  }

  lemma ExecutePasses(s: Session, p: Packet, point: FaultPoint)
    requires AboutTo(s, p, point) && !IsExecuteFault(point)
    ensures ExecuteTick(s, p).Ok? && ExecuteTick(s, p).s.armed == Some(point)
  {
    assert Inflight(s, p).Validate();
  }

  lemma PublishStopsAt(s: Session, p: Packet, point: FaultPoint, s1: Session)
    requires AboutTo(s, p, point) && IsPublishFault(point)
    requires ExecuteTick(s, p).Ok? && s1 == ExecuteTick(s, p).s && s1.armed == Some(point)
    ensures ExecuteTick(s, p).value.0 == s.durable.committedTickSeq + 1
    ensures var v := ExecuteTick(s, p).value;
            StopsAt(s, p, point, PublishMetrics(s1, v.0, p.seqNo, v.1))
  {
    hide ExecuteTick;
    ExecuteFacts(s, p);
    assert Committing(s, p).Validate();
  }

  lemma WorkStopsAt(s: Session, p: Packet, point: FaultPoint)
    requires AboutTo(s, p, point) && (IsExecuteFault(point) || IsPublishFault(point))
    ensures StopsAt(s, p, point, WorkStep(s, p))
  {
    if IsExecuteFault(point) {
      ExecuteStopsAt(s, p, point);
    } else {
      ExecutePasses(s, p, point);
      PublishStopsAt(s, p, point, ExecuteTick(s, p).s);
    }
  }

  /** Where a tick stops, by the fault that is armed, and what it leaves behind. */
  lemma TickStopsAt(s: Session, point: FaultPoint)
    requires s.source != [] && AboutTo(s, s.source[0], point) && IsTickFault(point) && s.stepsTaken < MAX_STEPS
    ensures StopsAt(s, s.source[0], point, TickStep(s))
  {
    var s0, r := TickOpens(s);
    if IsIngressFault(point) {
      IngressStopsAt(s0, s.source[0], point);
    } else {
      IngressPasses(s0, point);
      WorkStopsAt(r.s, s.source[0], point);
    }
  }

  lemma IngressPasses(s: Session, point: FaultPoint)
    requires SessionOk(s) && s.live && s.source != [] && s.armed == Some(point) && !IsIngressFault(point)
    ensures IngressStep(s) == Ok(s.(source := s.source[1..]), Some(s.source[0]))
  {
  }

  /** A freshly booted session with one new packet at the head of its source. */
  ghost predicate FreshlyLive(s: Session, p: Packet) {
    && s.live && s.health == Live && s.liveLoopEntered && s.channelOpen && s.stepsTaken == 0 && s.sessionId == 1
    && s.published == [] && s.metrics == [] && s.source != [] && s.source[0] == p && p.seqNo > 0
    && s.durable == DurableState.Fresh().(lastSessionId := 1) && s.store == Encoded(s.durable)
    && s.skippedReplays == 0
  }

  /** The session `s'` is where the table says a fault in a tick leaves a first session. */
  ghost predicate StopsAsExpected(s': Session, point: FaultPoint) {
    var expected := Expected(point);
    && s'.health == expected.terminalHealth && s'.liveLoopEntered == expected.liveLoopEntered
    && |s'.published| == |s'.metrics| == expected.published
    && s'.store == Encoded(s'.durable) && s'.durable.Validate()
    && s'.durable.lastSessionId == 1 && s'.durable.committedTickSeq == expected.published
    && expected.restart == RecoveryOutcome(s'.durable.inflight.Some?)
  }

  /** Where a tick on such a session stops, by the fault that is armed. */
  lemma FaultyTick(s: Session, p: Packet, point: FaultPoint)
    requires FreshlyLive(s, p) && s.armed == Some(point) && IsTickFault(point)
    ensures StopsAsExpected(TickStep(s).s, point)
  {
    hide TickStep;
    TickStopsAt(s, point);
  }

  lemma GoodTick(s: Session, p: Packet)
    requires FreshlyLive(s, p) && s.armed.None?
    ensures var s' := TickStep(s).s;
            && s'.live && s'.liveLoopEntered && |s'.published| == |s'.metrics| == 1
            && s'.store == Encoded(s'.durable)
            && s'.durable == DurableState.Fresh().(lastSessionId := 1, committedTickSeq := 1,
                                                   committedIngressSeq := p.seqNo)
  {
  }

  /** A shutdown ends as the table says and leaves the store and the log alone. */
  lemma FaultyStop(s: Session, point: FaultPoint)
    requires s.live && IsShutdownFault(point) && s.armed == Some(point)
    ensures var s' := ShutdownStep(s).s;
            && s'.health == Expected(point).terminalHealth
            && s'.store == s.store && s'.durable == s.durable
            && s'.published == s.published && s'.metrics == s.metrics && s'.liveLoopEntered == s.liveLoopEntered
  {
  }

  /** What the table promises about a first session and the boot that follows it. */
  ghost predicate MeetsOracle(point: FaultPoint, first: Session, next: Run<()>) {
    var expected := Expected(point);
    && first.health == expected.terminalHealth
    && |first.published| == |first.metrics| == expected.published
    && first.liveLoopEntered == expected.liveLoopEntered
    && next.s.restart == Some(expected.restart)
    && next.s.incompletePrior == (expected.restart == RecoveredIncomplete)
    && (first.durable.inflight.Some? <==> expected.restart == RecoveredIncomplete)
    && if expected.restart == RejectedInvalid then next.Err? && !next.s.live && !next.s.liveLoopEntered
       else
         && next.Ok? && next.s.live && next.s.published == [] && next.s.metrics == [] && next.s.lastStimuli.None?
         && next.s.sessionId == first.durable.lastSessionId + 1
         && next.s.durable.committedTickSeq == first.durable.committedTickSeq
         && next.s.durable.committedIngressSeq == first.durable.committedIngressSeq
  }

  /** A boot that fails under a boot fault, and the store it leaves for the next one. */
  lemma FaultyBoot(seed: u64, point: FaultPoint, store: Blob, script: seq<Packet>)
    requires IsBootFault(point) && (store == Absent || (point == MalformedCheckpoint && Load(store).Invalid?))
    ensures var r := BootStep(Build(seed, store, script, Some(point)));
            && r.Err? && r.s.health == Expected(point).terminalHealth && !r.s.liveLoopEntered
            && r.s.published == [] && r.s.metrics == [] && r.s.durable.inflight.None?
            && (if point == After(CheckpointValidation) then r.s.store == Encoded(r.s.durable)
                  && r.s.durable == DurableState.Fresh().(lastSessionId := 1)
                else if point == MalformedCheckpoint then r.s.store == Garbage
                else r.s.store == Absent && r.s.durable == DurableState.Fresh())
  {
  }

  lemma RestartMeets(seed: u64, point: FaultPoint, first: Session, script: seq<Packet>)
    requires StopsAsExpected(first, point)
    ensures MeetsOracle(point, first, Restarted(seed, first, script))
  {
    RestartFacts(seed, first.store, script);
  }

  lemma BootFaultOutcome(seed: u64, point: FaultPoint, store: Blob, script: seq<Packet>)
    requires IsBootFault(point) && (store == Absent || (point == MalformedCheckpoint && Load(store).Invalid?))
    ensures var first := FirstSession(seed, point, store, script);
            MeetsOracle(point, first, Restarted(seed, first, script))
  {
    FaultyBoot(seed, point, store, script);
    RestartFacts(seed, FirstSession(seed, point, store, script).store, script);
  }

  lemma TickFaultStops(seed: u64, point: FaultPoint, script: seq<Packet>)
    requires script != [] && script[0].seqNo > 0
    requires !IsBootFault(point) && !IsShutdownFault(point)
    ensures StopsAsExpected(FirstSession(seed, point, Absent, script), point)
  {
    FirstBootFacts(seed, script, Some(point));
    FaultyTick(BootStep(Build(seed, Absent, script, Some(point))).s, script[0], point);
  }

  lemma StopFaultStops(seed: u64, point: FaultPoint, script: seq<Packet>)
    requires script != [] && script[0].seqNo > 0 && IsShutdownFault(point)
    ensures StopsAsExpected(FirstSession(seed, point, Absent, script), point)
  {
    FirstBootFacts(seed, script, None);
    var booted := BootStep(Build(seed, Absent, script, None)).s;
    GoodTick(booted, script[0]);
    FaultyStop(TickStep(booted).s.(armed := Some(point)), point);
  }

  /** The table holds for every injection point, every seed and every script that starts with new work. */
  lemma OracleHolds(seed: u64, point: FaultPoint, store: Blob, script: seq<Packet>)
    requires script != [] && script[0].seqNo > 0
    requires store == Absent || (point == MalformedCheckpoint && Load(store).Invalid?)
    ensures var first := FirstSession(seed, point, store, script);
            MeetsOracle(point, first, Restarted(seed, first, script))
  {
    if IsBootFault(point) {
      BootFaultOutcome(seed, point, store, script);
    } else {
      if IsShutdownFault(point) {
        StopFaultStops(seed, point, script);
      } else {
        TickFaultStops(seed, point, script);
      }
      RestartMeets(seed, point, FirstSession(seed, point, Absent, script), script);
    }
  }
}
