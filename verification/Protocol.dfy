/**
 One runtime session (src/runtime/harness.rs). `Session` is the value of a harness between two
 calls and the functions say what each operation makes of it. Module Harness performs the same
 operations field by field and is proved to do what these functions say.
 */
module Protocol {
  import opened Prelude
  import opened Durable
  import opened Runtime

  datatype Session = Session(
    nowNs: u64,
    coreSteps: nat,
    lastStimuli: Option<seq<Float>>,
    store: Blob,
    durable: DurableState,
    armed: Option<FaultPoint>,
    source: seq<Packet>,
    published: seq<CommittedOutput>,
    metrics: seq<MetricEvent>,
    health: Health,
    sessionId: u64,
    live: bool,
    liveLoopEntered: bool,
    incompletePrior: bool,
    restart: Option<RestartOutcome>,
    skippedReplays: nat,
    stepsTaken: u32,
    channelOpen: bool)

  /** The state an operation leaves behind, with its value or its error. */
  datatype Run<T> = Ok(s: Session, value: T) | Err(s: Session, error: Error)

  function Build(seed: u64, store: Blob, packets: seq<Packet>, fault: Option<FaultPoint>): Session {
    Session(
      SaturatingAdd((seed * 1_000_000) % (U64_MAX + 1), 1), 0, None, store, DurableState.Fresh(), fault, packets,
      [], [], Starting, 0, false, false, false, None, 0, 0, false)
  }

  predicate Armed(s: Session, point: FaultPoint) {
    s.armed == Some(point)
  }

  function ApplyFault(s: Session, point: FaultPoint): Session {
    var health := InjectedTerminalHealth(point);
    s.(health := health,
       live := s.live && health !in {Faulted, Degraded, IncompleteShutdown, CheckpointInvalid})
  }

  /** The armed point fires: it is disarmed and its terminal health applied. */
  function Fire<T>(s: Session, point: FaultPoint, error: Error): Run<T> {
    Err(ApplyFault(s.(armed := None), point), error)
  }

  function FailPoint(s: Session, point: FaultPoint): Run<()> {
    if Armed(s, point) then Fire(s, point, Injected(point)) else Ok(s, ())
  }

  function Reject(s: Session): Session {
    s.(health := CheckpointInvalid, restart := Some(RejectedInvalid), live := false)
  }

  /** `persist`: nothing is written unless the state validates. */
  function Persist(s: Session, state: DurableState): Run<()> {
    if state.Validate() then Ok(s.(store := Encoded(state)), ()) else Err(s, InvalidDurable)
  }

  function InitializeStep(s: Session): Run<()> {
    if Armed(s, Before(Initialize)) then Fire(s, Before(Initialize), Injected(Before(Initialize)))
    else
      FailPoint(s.(coreSteps := 0, lastStimuli := None, channelOpen := true, published := [], metrics := []),
                After(Initialize))
  }

  function StartFreshSession(s: Session): Run<()> {
    var durable := DurableState.Fresh().(lastSessionId := 1);
    Ok(s.(durable := durable, sessionId := 1, store := Encoded(durable),
          incompletePrior := false, restart := Some(FreshStart)), ())
  }

  function RecoveryOutcome(incomplete: bool): RestartOutcome {
    if incomplete then RecoveredIncomplete else RecoveredClean
  }

  /** The next session id is durable before the session may go live. */
  function AdoptSession(s: Session, next: DurableState): Session {
    s.(sessionId := next.lastSessionId, store := Encoded(next), durable := next,
       restart := Some(RecoveryOutcome(s.incompletePrior)))
  }

  function RecoverSession(s: Session, state: DurableState): Run<()>
    requires state.Validate()
  {
    var s := s.(incompletePrior := state.inflight.Some?);
    if state.lastSessionId == U64_MAX then Err(Reject(s), SessionIdOverflow)
    else Ok(AdoptSession(s, state.(inflight := None, lastSessionId := state.lastSessionId + 1)), ())
  }

  function ValidateCheckpoint(s: Session): Run<()> {
    if Armed(s, Before(CheckpointValidation)) then
      Fire(s, Before(CheckpointValidation), Injected(Before(CheckpointValidation)))
    else if Armed(s, MalformedCheckpoint) then
      Err(Reject(s.(armed := None, store := Garbage)), MalformedBlob)
    else
      match Load(s.store)
      case FirstBoot => StartFreshSession(s)
      case Found(state) =>
        if state.committedTickSeq == U64_MAX then Err(Reject(s), TickSequenceOverflow)
        else RecoverSession(s, state)
      case Invalid => Err(Reject(s), InvalidDurable)
  }

  function BootStep(s: Session): Run<()> {
    match InitializeStep(s.(health := Starting))
    case Err(s, e) => Err(s, e)
    case Ok(s, _) =>
      match ValidateCheckpoint(s)
      case Err(s, e) => Err(s, e)
      case Ok(s, _) =>
        if Armed(s, After(CheckpointValidation)) then
          Fire(s, After(CheckpointValidation), Injected(After(CheckpointValidation)))
        else Ok(s.(health := Live, live := true, liveLoopEntered := true), ())
  }

  function BeginTick(s: Session): Run<()> {
    if !s.live then Err(s, NotStarted)
    else
      var s := s.(stepsTaken := Min(s.stepsTaken + 1, U32_MAX));
      if s.stepsTaken > MAX_STEPS then Err(s, StepLimit)
      else Ok(s.(nowNs := SaturatingAdd(s.nowNs, TICK_PERIOD_NS)), ())
  }

  /** The packet is gone from the source even when the fault after the boundary fires. */
  function IngressStep(s: Session): Run<Option<Packet>> {
    if Armed(s, Before(Ingress)) then Fire(s, Before(Ingress), Injected(Before(Ingress)))
    else if Armed(s, ClosedChannel) then Fire(s, ClosedChannel, ChannelClosed)
    else if !s.channelOpen then Err(ApplyFault(s, ClosedChannel), ChannelClosed)
    else
      var packet := if s.source == [] then None else Some(s.source[0]);
      var s := if s.source == [] then s else s.(source := s.source[1..]);
      if Armed(s, After(Ingress)) then Fire(s, After(Ingress), Injected(After(Ingress))) else Ok(s, packet)
  }

  /** Write-ahead: the marker is durable before the core may step. */
  function MarkInflight(s: Session, packet: Packet): Run<u64> {
    if s.durable.committedTickSeq == U64_MAX then
      Err(s.(health := Faulted, live := false), TickSequenceOverflow)
    else
      var tickSeq: u64 := s.durable.committedTickSeq + 1;
      var next := s.durable.(inflight := Some(InflightRecord(s.sessionId, tickSeq, packet.seqNo)));
      match Persist(s, next)
      case Err(s, e) => Err(s, e)
      case Ok(s, _) => Ok(s.(durable := next), tickSeq)
  }

  function ExecuteTick(s: Session, packet: Packet): Run<(u64, seq<nat>)> {
    if Armed(s, Before(TickExecute)) then Fire(s, Before(TickExecute), Injected(Before(TickExecute)))
    else
      match MarkInflight(s, packet)
      case Err(s, e) => Err(s, e)
      case Ok(s, tickSeq) =>
        match StepCore(s, packet)
        case Err(s, e) => Err(s, e)
        case Ok(s, spikeIds) => Ok(s, (tickSeq, spikeIds))
  }

  function StepCore(s: Session, packet: Packet): Run<seq<nat>> {
    if Armed(s, CoreStepError) then Fire(s, CoreStepError, CoreFailed)
    else
      var s := s.(coreSteps := s.coreSteps + 1, lastStimuli := Some(packet.stimuli));
      if Armed(s, After(TickExecute)) then Fire(s, After(TickExecute), Injected(After(TickExecute)))
      else Ok(s, SpikesFrom(packet.stimuli, 0))
  }

  /** The commit and the publication: one durable write, then the volatile logs. */
  function Commit(s: Session, tickSeq: u64, ingressSeq: u64, spikeIds: seq<nat>): Run<()> {
    var next := s.durable.(committedTickSeq := tickSeq, committedIngressSeq := ingressSeq, inflight := None);
    match Persist(s, next)
    case Err(s, e) => Err(s, e)
    case Ok(s, _) =>
      Ok(s.(durable := next,
            metrics := s.metrics + [MetricEvent(s.sessionId, tickSeq, ingressSeq)],
            published := s.published + [CommittedOutput(s.sessionId, tickSeq, ingressSeq, spikeIds, s.nowNs)]), ())
  }

  function PublishMetrics(s: Session, tickSeq: u64, ingressSeq: u64, spikeIds: seq<nat>): Run<()> {
    if Armed(s, Before(MetricPublish)) then Fire(s, Before(MetricPublish), Injected(Before(MetricPublish)))
    else if Armed(s, BackpressureTimeout) then
      Fire(s.(nowNs := SaturatingAdd(s.nowNs, BACKPRESSURE_BUDGET_NS)), BackpressureTimeout, Backpressure)
    else if !s.channelOpen then Err(s.(health := Degraded), PublishClosed)
    else
      match Commit(s, tickSeq, ingressSeq, spikeIds)
      case Err(s, e) => Err(s, e)
      case Ok(s, _) => FailPoint(s, After(MetricPublish))
  }

  function TickStep(s: Session): Run<TickResult> {
    match BeginTick(s)
    case Err(s, e) => Err(s, e)
    case Ok(s, _) =>
      match IngressStep(s)
      case Err(s, e) => Err(s, e)
      case Ok(s, None) => Ok(s, NoIngress)
      case Ok(s, Some(packet)) => WorkStep(s, packet)
  }

  /** The tick once a packet is in hand: skipped below the high-water mark, else executed and published. */
  function WorkStep(s: Session, packet: Packet): Run<TickResult> {
    if packet.seqNo <= s.durable.committedIngressSeq then
      Ok(s.(skippedReplays := s.skippedReplays + 1), SkippedReplay)
    else
      match ExecuteTick(s, packet)
      case Err(s, e) => Err(s, e)
      case Ok(s, r) =>
        match PublishMetrics(s, r.0, packet.seqNo, r.1)
        case Err(s, e) => Err(s, e)
        case Ok(s, _) => Ok(s, Committed)
  }

  function ShutdownStep(s: Session): Run<()> {
    var s := s.(health := ShuttingDown);
    if Armed(s, Before(Shutdown)) then Fire(s, Before(Shutdown), Injected(Before(Shutdown)))
    else if Armed(s, InterruptedShutdown) then Fire(s, InterruptedShutdown, ShutdownInterrupted)
    else
      var s := s.(channelOpen := false, live := false);
      if Armed(s, After(Shutdown)) then Fire(s, After(Shutdown), Injected(After(Shutdown)))
      else Ok(s.(health := Stopped), ())
  }

  /** What a call reports: its value, or the error that stopped it. */
  datatype Reply<T> = Value(value: T) | Failure(error: Error) {
    ghost function From(s: Session): Run<T> {
      match this
      case Value(value) => Ok(s, value)
      case Failure(error) => Err(s, error)
    }
  }
}
