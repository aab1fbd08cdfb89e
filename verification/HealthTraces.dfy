/** What a snapshot of the health machine shows, decided by the events applied so far and when. */
module HealthTraces {
  import opened Prelude
  import opened HealthSpec

  // ---------------------------------------------------------------- stamps

  function Front(trace: Trace): Trace
    requires trace != []
  {
    trace[..|trace| - 1]
  }

  function Last(trace: Trace): HealthEvent
    requires trace != []
  {
    trace[|trace| - 1].0
  }

  function When(trace: Trace): nat
    requires trace != []
  {
    trace[|trace| - 1].1
  }

  /** The time of the newest observed ingress. */
  function LastIngressAt(trace: Trace): Option<nat> {
    if trace == [] then None
    else if Last(trace).IngressObserved? then Some(When(trace))
    else LastIngressAt(Front(trace))
  }

  function LastTickAt(trace: Trace): Option<nat> {
    if trace == [] then None
    else if Last(trace).TickSucceeded? then Some(When(trace))
    else LastTickAt(Front(trace))
  }

  /** The time of the first start. */
  function FirstStartAt(trace: Trace): Option<nat> {
    if trace == [] then None
    else if FirstStartAt(Front(trace)).Some? then FirstStartAt(Front(trace))
    else if Last(trace).ProcessStarted? then Some(When(trace))
    else None
  }

  /** The last checkpoint validated by an initialized process that was neither drained nor failed. */
  function LastAccepted(trace: Trace): Option<(CheckpointIdentity, nat)> {
    if trace == [] then None
    else if Last(trace).CheckpointValidated? && Initialized(Front(trace)) && !Ended(Front(trace)) then
      Some((Last(trace).identity, When(trace)))
    else LastAccepted(Front(trace))
  }

  /** The depth and capacity of the last pressure sample. */
  function LastPressure(trace: Trace): (nat, nat) {
    if trace == [] then (0, 0)
    else if Last(trace).QueuePressure? then (Last(trace).depth, Last(trace).capacity)
    else LastPressure(Front(trace))
  }

  /** The first report that is fatal: any fatal report, or a failure of a boot that had begun. */
  function FirstFatal(trace: Trace): Option<FatalState> {
    if trace == [] then None
    else if FirstFatal(Front(trace)).Some? then FirstFatal(Front(trace))
    else
      match Last(trace)
      case InitializationFailed(detail) =>
        if Began(Front(trace)) then Some(FatalState(InitFailed, detail)) else None
      case CheckpointRejected(detail) =>
        if Began(Front(trace)) then Some(FatalState(CheckpointInvalid, detail)) else None
      case FatalRaised(code, detail) => Some(FatalState(code, detail))
      case _ => None
  }

  /** A drain began before anything fatal. */
  predicate Drained(trace: Trace) {
    trace != [] && (Drained(Front(trace)) || (Last(trace).BeginDrain? && FirstFatal(Front(trace)).None?))
  }

  ghost predicate Stamped(trace: Trace, s: HealthState) {
    RuntimeStamped(trace, s) && BootStamped(trace, s) && EndStamped(trace, s)
  }

  ghost predicate RuntimeStamped(trace: Trace, s: HealthState) {
    && s.lastIngress == LastIngressAt(trace) && s.lastTick == LastTickAt(trace)
    && (s.queueDepth, s.queueCapacity) == LastPressure(trace)
  }

  ghost predicate BootStamped(trace: Trace, s: HealthState) {
    && s.startedAt == FirstStartAt(trace) && (s.startedAt.Some? <==> s.started)
    && s.checkpoint == (if LastAccepted(trace).Some? then Some(LastAccepted(trace).value.0) else None)
    && s.checkpointAt == (if LastAccepted(trace).Some? then Some(LastAccepted(trace).value.1) else None)
  }

  ghost predicate EndStamped(trace: Trace, s: HealthState) {
    s.fatal == FirstFatal(trace) && (s.draining <==> Drained(trace))
  }

  lemma RuntimeOfMore(trace: Trace, event: HealthEvent, now: nat)
    ensures var more := trace + [(event, now)];
            && LastIngressAt(more) == (if event.IngressObserved? then Some(now) else LastIngressAt(trace))
            && LastTickAt(more) == (if event.TickSucceeded? then Some(now) else LastTickAt(trace))
            && LastPressure(more) == (if event.QueuePressure? then (event.depth, event.capacity) else LastPressure(trace))
  {
    var more := trace + [(event, now)];
    assert Front(more) == trace && Last(more) == event && When(more) == now;
  }

  lemma RuntimeStep(trace: Trace, s: HealthState, event: HealthEvent, now: nat)
    requires RuntimeStamped(trace, s)
    ensures RuntimeStamped(trace + [(event, now)], Apply(s, event, now))
  {
    hide LastIngressAt, LastTickAt, LastPressure;
    RuntimeOfMore(trace, event, now);
  }

  lemma BootOfMore(trace: Trace, event: HealthEvent, now: nat)
    ensures var more := trace + [(event, now)];
            && FirstStartAt(more) == (if FirstStartAt(trace).Some? then FirstStartAt(trace)
                                      else if event.ProcessStarted? then Some(now) else None)
            && LastAccepted(more) == (if event.CheckpointValidated? && Initialized(trace) && !Ended(trace)
                                      then Some((event.identity, now)) else LastAccepted(trace))
  {
    var more := trace + [(event, now)];
    assert Front(more) == trace && Last(more) == event && When(more) == now;
  }

  lemma BootStep(trace: Trace, s: HealthState, event: HealthEvent, now: nat)
    requires BootStamped(trace, s) && FlagsOk(trace, s)
    ensures BootStamped(trace + [(event, now)], Apply(s, event, now))
  {
    hide FirstStartAt, LastAccepted;
    BootOfMore(trace, event, now);
  }

  lemma EndStep(trace: Trace, s: HealthState, event: HealthEvent, now: nat)
    requires EndStamped(trace, s) && (s.started <==> Began(trace))
    ensures EndStamped(trace + [(event, now)], Apply(s, event, now))
  {
    hide FirstFatal, Drained, Began;
    FatalOfMore(trace, event, now);
  }

  lemma FatalOfMore(trace: Trace, event: HealthEvent, now: nat)
    ensures FirstFatal(trace + [(event, now)]) ==
            if FirstFatal(trace).Some? then FirstFatal(trace)
            else if event.InitializationFailed? && Began(trace) then Some(FatalState(InitFailed, event.detail))
            else if event.CheckpointRejected? && Began(trace) then Some(FatalState(CheckpointInvalid, event.detail))
            else if event.FatalRaised? then Some(FatalState(event.code, event.detail))
            else None
    ensures Drained(trace + [(event, now)]) <==> Drained(trace) || (event.BeginDrain? && FirstFatal(trace).None?)
  {
    var more := trace + [(event, now)];
    assert Front(more) == trace && Last(more) == event;
  }

  /** Every stamp of the machine is that of the trace, and so are the fatal report and the drain. */
  lemma {:induction false} StampsTellTrace(limits: HealthLimits, trace: Trace)
    ensures Stamped(trace, After(limits, trace))
  {
    hide Apply;
    if trace != [] {
      var front, last := trace[..|trace| - 1], trace[|trace| - 1];
      StampsTellTrace(limits, front);
      FlagsTellTrace(limits, front);
      RuntimeStep(front, After(limits, front), last.0, last.1);
      BootStep(front, After(limits, front), last.0, last.1);
      EndStep(front, After(limits, front), last.0, last.1);
      assert front + [(last.0, last.1)] == trace;
    }
  }

  // ---------------------------------------------------------------- staleness and phases

  /** The input is late: `staleAfter` has passed since the newest ingress, or since the checkpoint if there was none. */
  predicate Late(limits: HealthLimits, trace: Trace, now: nat) {
    var base := if LastIngressAt(trace).Some? then LastIngressAt(trace)
                else if LastAccepted(trace).Some? then Some(LastAccepted(trace).value.1) else None;
    base.Some? && (limits.staleAfter == 0 || now >= base.value + limits.staleAfter)
  }

  /**
   Staleness over traces: a ready machine is stale exactly when its input is late, and a machine
   without a valid checkpoint never is.
   */
  lemma StaleIffLate(limits: HealthLimits, trace: Trace, now: nat)
    ensures var s := After(limits, trace);
            && (Ready(s) ==> (Stale(s, now) <==> Late(limits, trace, now)))
            && (!s.checkpointOk || !Validated(trace) ==> !Stale(s, now))
    ensures Validated(trace) && !Ended(trace) ==> LastAccepted(trace).Some?
  {
    StampsTellTrace(limits, trace);
    FlagsTellTrace(limits, trace);
    SanitizedKeepsStaleness(limits);
    ValidNeedsValidated(limits, trace);
    AcceptedIffValidated(trace);
  }

  lemma SanitizedKeepsStaleness(limits: HealthLimits)
    ensures Sanitized(limits).staleAfter == limits.staleAfter
  {
  }

  lemma ValidStep(s: HealthState, event: HealthEvent, now: nat)
    ensures Apply(s, event, now).checkpointOk ==> s.checkpointOk || (event.CheckpointValidated? && s.initialized && Serving(s))
  {
  }

  lemma {:induction false} ValidNeedsValidated(limits: HealthLimits, trace: Trace)
    ensures After(limits, trace).checkpointOk ==> Validated(trace)
  {
    hide Apply;
    if trace != [] {
      ValidNeedsValidated(limits, Front(trace));
      FlagsTellTrace(limits, Front(trace));
      ValidStep(After(limits, Front(trace)), Last(trace), When(trace));
    }
  }

  lemma {:induction false} AcceptedIffValidated(trace: Trace)
    ensures Validated(trace) && !Ended(trace) ==> LastAccepted(trace).Some?
  {
    if trace != [] {
      AcceptedIffValidated(trace[..|trace| - 1]);
    }
  }

  /** The phase a snapshot shows at `now`, after any trace. */
  function PhaseOf(limits: HealthLimits, trace: Trace, now: nat): HealthPhase
    requires LimitsOk(Sanitized(limits))
  {
    if FirstFatal(trace).Some? then Fatal
    else if Drained(trace) then Draining
    else if !Initialized(trace) then Starting
    else if !Validated(trace) then LoadingCheckpoint
    else if Late(limits, trace, now) || LatestVerdict(Sanitized(limits), trace) then Degraded
    else Running
  }

  lemma PhaseTellsTrace(limits: HealthLimits, trace: Trace, now: nat)
    ensures LimitsOk(Sanitized(limits))
    ensures var s := After(limits, trace);
            Phase(s, Stale(s, now)) == PhaseOf(limits, trace, now)
  {
    SanitizedIsOk(limits);
    StampsTellTrace(limits, trace);
    FlagsTellTrace(limits, trace);
    StaleIffLate(limits, trace, now);
    OverloadIsLatestVerdict(limits, trace);
  }

  function Rank(r: ReasonCode): nat {
    match r
    case FatalError => 0
    case StartingUp => 1
    case CheckpointPending => 2
    case DrainingOut => 3
    case StaleInput => 4
    case Overload => 5
  }

  /** Listed once each in the order of their ranks, all below `bound`. */
  ghost predicate InOrder(reasons: seq<ReasonCode>, bound: nat) {
    && (forall i :: 0 <= i < |reasons| ==> Rank(reasons[i]) < bound)
    && (forall i, j :: 0 <= i < j < |reasons| ==> Rank(reasons[i]) < Rank(reasons[j]))
  }

  /** Exactly the reasons of `codes`, in order. */
  ghost predicate Lists(reasons: seq<ReasonCode>, codes: set<ReasonCode>, bound: nat) {
    InOrder(reasons, bound) && forall r :: r in reasons <==> r in codes
  }

  lemma OneMoreReason(reasons: seq<ReasonCode>, codes: set<ReasonCode>, r: ReasonCode, applies: bool)
    requires Lists(reasons, codes, Rank(r))
    ensures Lists(reasons + (if applies then [r] else []), codes + (if applies then {r} else {}), Rank(r) + 1)
  {
    var all := reasons + (if applies then [r] else []);
    if applies {
      assert all[|reasons|] == r;
      assert forall i :: 0 <= i < |reasons| ==> all[i] == reasons[i];
    } else {
      assert all == reasons;
    }
  }

  /** The reasons that apply to a machine that is not fatal. */
  function Applying(s: HealthState, stale: bool): set<ReasonCode> {
    (if !s.initialized then {StartingUp} else if !s.checkpointOk then {CheckpointPending} else {})
    + (if s.draining then {DrainingOut} else {})
    + (if stale then {StaleInput} else {})
    + (if s.overloaded then {Overload} else {})
  }

  lemma BootReasons(s: HealthState)
    ensures Lists(if !s.initialized then [StartingUp] else if !s.checkpointOk then [CheckpointPending] else [],
                  if !s.initialized then {StartingUp} else if !s.checkpointOk then {CheckpointPending} else {}, 3)
  {
  }

  lemma ReasonsList(s: HealthState, stale: bool)
    requires s.fatal.None?
    ensures Lists(Reasons(s, stale), Applying(s, stale), 6)
  {
    hide Lists;
    var boot := if !s.initialized then [StartingUp] else if !s.checkpointOk then [CheckpointPending] else [];
    var codes := if !s.initialized then {StartingUp} else if !s.checkpointOk then {CheckpointPending} else {};
    BootReasons(s);
    OneMoreReason(boot, codes, DrainingOut, s.draining);
    var drain := boot + (if s.draining then [DrainingOut] else []);
    var drainCodes := codes + (if s.draining then {DrainingOut} else {});
    OneMoreReason(drain, drainCodes, StaleInput, stale);
    OneMoreReason(drain + (if stale then [StaleInput] else []), drainCodes + (if stale then {StaleInput} else {}),
                  Overload, s.overloaded);
  }

  /** A fatal machine gives one reason. Any other lists those that apply, once each, in a fixed order. */
  lemma ReasonsTellState(limits: HealthLimits, trace: Trace, now: nat)
    ensures var s := After(limits, trace);
            var stale := Stale(s, now);
            var reasons := Reasons(s, stale);
            if FirstFatal(trace).Some? then reasons == [FatalError]
            else
              && (forall r :: r in reasons <==> r in Applying(s, stale))
              && (forall i, j :: 0 <= i < j < |reasons| ==> Rank(reasons[i]) < Rank(reasons[j]))
              && (s.draining <==> Drained(trace))
  {
    StampsTellTrace(limits, trace);
    var s := After(limits, trace);
    if s.fatal.None? {
      ReasonsList(s, Stale(s, now));
    }
  }

  // ---------------------------------------------------------------- counters and limits

  lemma MergeIsLeast(a: RuntimeCounters, b: RuntimeCounters, bound: RuntimeCounters)
    ensures a.MergedMonotonic(b).AtMost(bound) <==> a.AtMost(bound) && b.AtMost(bound)
  {
  }

  lemma CountersStep(s: HealthState, event: HealthEvent, now: nat, bound: RuntimeCounters)
    ensures Apply(s, event, now).counters.AtMost(bound) <==>
              s.counters.AtMost(bound) && (event.CountersPublished? ==> event.next.AtMost(bound))
  {
    if event.CountersPublished? {
      MergeIsLeast(s.counters, event.next, bound);
    }
  }

  /** Every counter published in the trace is at most `bound`. */
  predicate AllPublishedAtMost(trace: Trace, bound: RuntimeCounters) {
    trace == []
    || (AllPublishedAtMost(Front(trace), bound) && (Last(trace).CountersPublished? ==> Last(trace).next.AtMost(bound)))
  }

  /** The counters shown are the least that no published counter exceeds. */
  lemma {:induction false} CountersAreMaxima(limits: HealthLimits, trace: Trace, bound: RuntimeCounters)
    ensures After(limits, trace).counters.AtMost(bound) <==> AllPublishedAtMost(trace, bound)
  {
    hide Apply;
    if trace == [] {
      NewMachineIsBlank(limits);
    } else {
      CountersAreMaxima(limits, Front(trace), bound);
      CountersStep(After(limits, Front(trace)), Last(trace), When(trace), bound);
    }
  }

  /** A missing watermark takes its default, 0.90 or 0.70; a pair that is then not usable takes both. */
  lemma DefaultWatermarks(limits: HealthLimits)
    ensures var s := Sanitized(limits);
            var high := if limits.overloadHigh.Finite? then limits.overloadHigh.r else 0.9;
            var low := if limits.overloadLow.Finite? then limits.overloadLow.r else 0.7;
            if 0.0 <= low < high <= 1.0 then s.overloadHigh == Finite(high) && s.overloadLow == Finite(low)
            else s.overloadHigh == Finite(0.9) && s.overloadLow == Finite(0.7)
  {
  }

  /** A new machine has seen nothing. */
  lemma NewMachineIsBlank(limits: HealthLimits)
    ensures var s := NewMachine(limits);
            && !s.started && !s.initialized && !s.checkpointOk && !s.draining && !s.overloaded && s.fatal.None?
            && s.counters == RuntimeCounters(0, 0, 0, 0, 0, 0, 0, 0)
  {
  }
}
