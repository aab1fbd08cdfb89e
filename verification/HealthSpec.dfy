/** The health state machine as a function of its events (src/health/machine.rs, src/health/snapshot.rs). */
module HealthSpec {
  import opened Prelude

  datatype HealthPhase = Starting | LoadingCheckpoint | Running | Degraded | Draining | Fatal

  datatype ReasonCode = StartingUp | CheckpointPending | StaleInput | Overload | DrainingOut | FatalError

  datatype FatalCode = InitFailed | CheckpointInvalid | Unspecified

  datatype FatalState = FatalState(code: FatalCode, detail: string)

  datatype CheckpointIdentity = CheckpointIdentity(id: string, digest: Option<string>)

  datatype RuntimeCounters = RuntimeCounters(
    ticks: u64, acceptedBatches: u64, rejectedBatches: u64, receiveErrors: u64, emitErrors: u64,
    droppedSpikes: u64, diagnosticEmissions: u64, suppressedDiagnostics: u64)
  {
    /** Field-wise maximum. */
    function MergedMonotonic(next: RuntimeCounters): RuntimeCounters {
      RuntimeCounters(
        Max(ticks, next.ticks), Max(acceptedBatches, next.acceptedBatches),
        Max(rejectedBatches, next.rejectedBatches), Max(receiveErrors, next.receiveErrors),
        Max(emitErrors, next.emitErrors), Max(droppedSpikes, next.droppedSpikes),
        Max(diagnosticEmissions, next.diagnosticEmissions),
        Max(suppressedDiagnostics, next.suppressedDiagnostics))
    }

    predicate AtMost(next: RuntimeCounters) {
      && ticks <= next.ticks && acceptedBatches <= next.acceptedBatches
      && rejectedBatches <= next.rejectedBatches && receiveErrors <= next.receiveErrors
      && emitErrors <= next.emitErrors && droppedSpikes <= next.droppedSpikes
      && diagnosticEmissions <= next.diagnosticEmissions
      && suppressedDiagnostics <= next.suppressedDiagnostics
    }
  }

  const NoCounters: RuntimeCounters := RuntimeCounters(0, 0, 0, 0, 0, 0, 0, 0)

  datatype HealthLimits = HealthLimits(staleAfter: nat, overloadHigh: Float, overloadLow: Float)

  function FiniteOr(value: Float, fallback: real): real {
    if value.IsFinite() then value.r else fallback
  }

  /** Non-finite, out-of-range, inverted or equal watermarks are replaced by the defaults. */
  function Sanitized(limits: HealthLimits): HealthLimits {
    var high := FiniteOr(limits.overloadHigh, 0.90);
    var low := FiniteOr(limits.overloadLow, 0.70);
    if 0.0 <= high <= 1.0 && 0.0 <= low <= 1.0 && high > low then
      HealthLimits(limits.staleAfter, Finite(high), Finite(low))
    else HealthLimits(limits.staleAfter, Finite(0.90), Finite(0.70))
  }

  ghost predicate LimitsOk(limits: HealthLimits) {
    limits.overloadHigh.Finite? && limits.overloadLow.Finite?
    && 0.0 <= limits.overloadLow.r < limits.overloadHigh.r <= 1.0
  }

  lemma SanitizedIsOk(limits: HealthLimits)
    ensures LimitsOk(Sanitized(limits))
    ensures LimitsOk(limits) ==> Sanitized(limits) == limits
  {
  }

  datatype HealthEvent =
    | ProcessStarted
    | InitializationCompleted
    | InitializationFailed(detail: string)
    | CheckpointValidated(identity: CheckpointIdentity)
    | CheckpointRejected(detail: string)
    | TickSucceeded
    | IngressObserved
    | QueuePressure(depth: nat, capacity: nat)
    | CountersPublished(next: RuntimeCounters)
    | BeginDrain
    | FatalRaised(code: FatalCode, detail: string)

  datatype HealthState = HealthState(
    limits: HealthLimits,
    started: bool,
    initialized: bool,
    checkpointOk: bool,
    draining: bool,
    startedAt: Option<nat>,
    checkpointAt: Option<nat>,
    lastTick: Option<nat>,
    lastIngress: Option<nat>,
    checkpoint: Option<CheckpointIdentity>,
    queueDepth: nat,
    queueCapacity: nat,
    overloaded: bool,
    counters: RuntimeCounters,
    fatal: Option<FatalState>)

  function NewMachine(limits: HealthLimits): HealthState {
    HealthState(Sanitized(limits), false, false, false, false, None, None, None, None, None, 0, 0, false,
                NoCounters, None)
  }

  function EnterFatal(s: HealthState, code: FatalCode, detail: string): HealthState {
    if s.fatal.Some? then s else s.(fatal := Some(FatalState(code, detail)), checkpointOk := false)
  }

  /** Hysteresis on the fill ratio. */
  function NextOverload(currently: bool, depth: nat, capacity: nat, high: real, low: real): bool {
    if capacity == 0 then false
    else
      var ratio := depth as real / capacity as real;
      if currently then ratio > low else ratio >= high
  }

  function Serving(s: HealthState): bool {
    !s.draining && s.fatal.None?
  }

  function Apply(s: HealthState, event: HealthEvent, now: nat): HealthState {
    match event
    case ProcessStarted => if s.started then s else s.(started := true, startedAt := Some(now))
    case InitializationCompleted => if s.started && Serving(s) then s.(initialized := true) else s
    case InitializationFailed(detail) => if s.started then EnterFatal(s, InitFailed, detail) else s
    case CheckpointValidated(identity) =>
      if s.started && Serving(s) && s.initialized then
        s.(checkpoint := Some(identity), checkpointOk := true, checkpointAt := Some(now))
      else s
    case CheckpointRejected(detail) => if s.started then EnterFatal(s, CheckpointInvalid, detail) else s
    case TickSucceeded => s.(lastTick := Some(now))
    case IngressObserved => s.(lastIngress := Some(now))
    case QueuePressure(depth, capacity) =>
      s.(queueDepth := depth, queueCapacity := capacity,
         overloaded := NextOverload(s.overloaded, depth, capacity, FiniteOr(s.limits.overloadHigh, 0.90),
                                    FiniteOr(s.limits.overloadLow, 0.70)))
    case CountersPublished(next) => s.(counters := s.counters.MergedMonotonic(next))
    case BeginDrain => if s.fatal.None? then s.(draining := true) else s
    case FatalRaised(code, detail) => EnterFatal(s, code, detail)
  }

  function Ready(s: HealthState): bool {
    s.started && s.initialized && s.checkpointOk && Serving(s)
  }

  /** Stale once the newest ingress, or the checkpoint if there was none, is older than the limit. */
  function Stale(s: HealthState, now: nat): bool {
    var baseline := if s.lastIngress.Some? then s.lastIngress else s.checkpointAt;
    s.initialized && s.checkpointOk && baseline.Some?
    && Max(0, now - baseline.value) >= s.limits.staleAfter
  }

  function Phase(s: HealthState, stale: bool): HealthPhase {
    if s.fatal.Some? then Fatal
    else if s.draining then Draining
    else if !s.initialized then Starting
    else if !s.checkpointOk then LoadingCheckpoint
    else if stale || s.overloaded then Degraded
    else Running
  }

  function Reasons(s: HealthState, stale: bool): seq<ReasonCode> {
    if s.fatal.Some? then [FatalError]
    else
      (if !s.initialized then [StartingUp] else if !s.checkpointOk then [CheckpointPending] else [])
      + (if s.draining then [DrainingOut] else [])
      + (if stale then [StaleInput] else [])
      + (if s.overloaded then [Overload] else [])
  }

  // ---------------------------------------------------------------- traces

  /** An event and when it was applied. */
  type Trace = seq<(HealthEvent, nat)>

  function After(limits: HealthLimits, trace: Trace): HealthState {
    if trace == [] then NewMachine(limits)
    else
      var last := trace[|trace| - 1];
      Apply(After(limits, trace[..|trace| - 1]), last.0, last.1)
  }

  /** The process was started at some point of the trace. */
  predicate Began(trace: Trace) {
    trace != [] && (Began(trace[..|trace| - 1]) || trace[|trace| - 1].0.ProcessStarted?)
  }

  /** Initialization completed at some point after the start. */
  predicate Initialized(trace: Trace) {
    trace != [] &&
    var before := trace[..|trace| - 1];
    Initialized(before) || (trace[|trace| - 1].0.InitializationCompleted? && Began(before))
  }

  /** A checkpoint was validated at some point after that. */
  predicate Validated(trace: Trace) {
    trace != [] &&
    var before := trace[..|trace| - 1];
    Validated(before) || (trace[|trace| - 1].0.CheckpointValidated? && Initialized(before))
  }

  /** A drain or a fatal report, at any time, or a boot failure once started. */
  predicate Ended(trace: Trace) {
    trace != [] &&
    var before, last := trace[..|trace| - 1], trace[|trace| - 1].0;
    Ended(before) || last.BeginDrain? || last.FatalRaised?
    || ((last.InitializationFailed? || last.CheckpointRejected?) && Began(before))
  }

  /** The verdict of the latest pressure sample outside the open band between the watermarks. */
  predicate LatestVerdict(limits: HealthLimits, trace: Trace)
    requires limits.overloadHigh.Finite? && limits.overloadLow.Finite?
  {
    trace != [] &&
    var before, last := trace[..|trace| - 1], trace[|trace| - 1].0;
    if !last.QueuePressure? then LatestVerdict(limits, before)
    else if last.capacity == 0 then false
    else
      var ratio := last.depth as real / last.capacity as real;
      if ratio >= limits.overloadHigh.r then true
      else if ratio <= limits.overloadLow.r then false
      else LatestVerdict(limits, before)
  }

  ghost predicate FlagsOk(trace: Trace, s: HealthState) {
    && (s.started <==> Began(trace))
    && (Ended(trace) <==> !Serving(s))
    && (!Ended(trace) ==> (s.initialized <==> Initialized(trace)) && (s.checkpointOk <==> Validated(trace)))
    && (s.checkpointOk ==> s.initialized && s.checkpointAt.Some? && s.checkpoint.Some? && s.fatal.None?)
    && (s.initialized ==> s.started)
  }

  lemma FlagsStep(trace: Trace, s: HealthState, event: HealthEvent, now: nat)
    requires FlagsOk(trace, s)
    ensures FlagsOk(trace + [(event, now)], Apply(s, event, now)) && Apply(s, event, now).limits == s.limits
  {
    assert (trace + [(event, now)])[..|trace|] == trace;
  }

  /** One sample moves the flag only from outside the band. */
  lemma OverloadStep(currently: bool, depth: nat, capacity: nat, high: real, low: real)
    requires low < high
    ensures NextOverload(currently, depth, capacity, high, low) ==
            if capacity == 0 then false
            else if depth as real / capacity as real >= high then true
            else if depth as real / capacity as real <= low then false
            else currently
  {
  }

  lemma {:induction false} FlagsTellTrace(limits: HealthLimits, trace: Trace)
    ensures FlagsOk(trace, After(limits, trace)) && After(limits, trace).limits == Sanitized(limits)
  {
    hide Apply;
    if trace != [] {
      var front, last := trace[..|trace| - 1], trace[|trace| - 1];
      FlagsTellTrace(limits, front);
      FlagsStep(front, After(limits, front), last.0, last.1);
      assert front + [(last.0, last.1)] == trace;
    }
  }

  lemma VerdictStep(trace: Trace, s: HealthState, event: HealthEvent, now: nat)
    requires LimitsOk(s.limits) && s.overloaded == LatestVerdict(s.limits, trace)
    ensures Apply(s, event, now).overloaded == LatestVerdict(s.limits, trace + [(event, now)])
  {
    assert (trace + [(event, now)])[..|trace|] == trace;
    if event.QueuePressure? {
      OverloadStep(s.overloaded, event.depth, event.capacity, s.limits.overloadHigh.r, s.limits.overloadLow.r);
    }
  }

  /** Overload is hysteresis: decided by the latest sample at or beyond a watermark. */
  lemma {:induction false} OverloadIsLatestVerdict(limits: HealthLimits, trace: Trace)
    ensures LimitsOk(Sanitized(limits))
    ensures After(limits, trace).overloaded == LatestVerdict(Sanitized(limits), trace)
  {
    SanitizedIsOk(limits);
    if trace != [] {
      var front, last := trace[..|trace| - 1], trace[|trace| - 1];
      OverloadIsLatestVerdict(limits, front);
      FlagsTellTrace(limits, front);
      VerdictStep(front, After(limits, front), last.0, last.1);
      assert front + [(last.0, last.1)] == trace;
    }
  }

  /**
   Readiness, decided by the trace alone: the process was started, then initialized, then given a
   checkpoint, and was never drained or failed, in whatever order the other events came.
   */
  lemma ReadyIff(limits: HealthLimits, trace: Trace)
    ensures Ready(After(limits, trace)) <==> Validated(trace) && !Ended(trace)
  {
    FlagsTellTrace(limits, trace);
    ValidatedNeedsAll(trace);
  }

  lemma {:induction false} ValidatedNeedsAll(trace: Trace)
    ensures Validated(trace) ==> Initialized(trace)
    ensures Initialized(trace) ==> Began(trace)
  {
    if trace != [] {
      ValidatedNeedsAll(trace[..|trace| - 1]);
    }
  }

  /** Phase, readiness and reasons never disagree, whenever the snapshot is taken. */
  lemma SnapshotCoherent(limits: HealthLimits, trace: Trace, now: nat)
    ensures var s := After(limits, trace);
            var phase := Phase(s, Stale(s, now));
            && (Ready(s) <==> phase == Running || phase == Degraded)
            && (Reasons(s, Stale(s, now)) == [] <==> phase == Running)
            && (phase == Degraded <==> Ready(s) && (Stale(s, now) || s.overloaded))
            && (s.checkpointOk ==> s.initialized) && (s.initialized ==> s.started)
            && (phase == Fatal <==> s.fatal.Some?)
            && (phase == Fatal || phase == Draining <==> Ended(trace))
  {
    FlagsTellTrace(limits, trace);
  }

  ghost predicate NeverBack(s: HealthState, s': HealthState) {
    && (s.fatal.Some? ==> s'.fatal == s.fatal)
    && (!Serving(s) ==> !Serving(s'))
    && s.counters.AtMost(s'.counters)
  }

  lemma StepNeverBack(s0: HealthState, s: HealthState, event: HealthEvent, now: nat)
    requires NeverBack(s0, s)
    ensures NeverBack(s0, Apply(s, event, now))
  {
  }

  /**
   Nothing brings a drained or failed process back, the first fatal report is the one kept, and the
   published counters never decrease.
   */
  lemma {:induction false} EndedForGood(limits: HealthLimits, trace: Trace, more: Trace)
    ensures NeverBack(After(limits, trace), After(limits, trace + more))
    ensures !Serving(After(limits, trace)) ==> !Ready(After(limits, trace + more))
    decreases |more|
  {
    if more == [] {
      assert trace + more == trace;
    } else {
      var front, last := more[..|more| - 1], more[|more| - 1];
      assert (trace + more)[..|trace + more| - 1] == trace + front;
      EndedForGood(limits, trace, front);
      StepNeverBack(After(limits, trace), After(limits, trace + front), last.0, last.1);
    }
  }

  /** Publishing counters that have not moved backwards shows exactly those. */
  lemma PublishShowsLatest(s: HealthState, next: RuntimeCounters, now: nat)
    ensures s.counters.AtMost(next) <==> Apply(s, CountersPublished(next), now).counters == next
  {
  }
}
