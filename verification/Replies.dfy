/**
 What every call of the harness answers and leaves behind, decided by the session before the call:
 ticks, boots and shutdowns, with and without a fault armed.
 */
module Replies {
  import opened Prelude
  import opened Durable
  import opened Runtime
  import opened Protocol
  import opened SessionFacts
  import opened FaultOracle

  // ---------------------------------------------------------------- a tick that succeeds

  lemma IngressAnswers(s: Session)
    requires SessionOk(s) && s.live
    ensures var r := IngressStep(s);
            r.Ok? ==> r.s == s.(source := Rest(s.source))
                      && r.value == (if s.source == [] then None else Some(s.source[0]))
  {
  }

  lemma WorkAnswers(s: Session, p: Packet)
    requires SessionOk(s) && s.live
    ensures var r := WorkStep(s, p);
            r.Ok? ==>
              && r.s.armed == s.armed && r.s.nowNs == s.nowNs && r.s.restart == s.restart
              && if p.seqNo <= s.durable.committedIngressSeq then
                   r.value == SkippedReplay && r.s == s.(skippedReplays := s.skippedReplays + 1)
                 else
                   && r.value == Committed && |r.s.published| == |s.published| + 1
                   && r.s.coreSteps == s.coreSteps + 1 && r.s.lastStimuli == Some(p.stimuli)
                   && r.s.skippedReplays == s.skippedReplays
  {
  }

  /**
   The answer of a tick that succeeds says exactly what it did: published an output and stepped the
   core on the packet, skipped a replay and counted it, or found nothing. Nothing armed is used up,
   and the clock moves by one millisecond.
   */
  lemma TickAnswers(s: Session)
    requires SessionOk(s) && s.live && TickStep(s).Ok?
    ensures var r := TickStep(s);
            && (r.value == Committed <==> |r.s.published| == |s.published| + 1)
            && (r.value == SkippedReplay <==>
                  s.source != [] && s.source[0].seqNo <= s.durable.committedIngressSeq)
            && (r.value == NoIngress <==> s.source == [])
            && r.s.skippedReplays == s.skippedReplays + (if r.value == SkippedReplay then 1 else 0)
            && r.s.coreSteps == s.coreSteps + (if r.value == Committed then 1 else 0)
            && r.s.lastStimuli == (if r.value == Committed then Some(s.source[0].stimuli) else s.lastStimuli)
            && (r.value != Committed ==> r.s.published == s.published)
            && r.s.armed == s.armed && r.s.nowNs == Min(s.nowNs + 1_000_000, U64_MAX)
  {
    hide TickStep, WorkStep, IngressStep;
    if s.stepsTaken < MAX_STEPS {
      var s0, r := TickOpens(s);
      IngressAnswers(s0);
      IngressFacts(s0);
      if r.Ok? && r.value.Some? {
        WorkAnswers(r.s, r.value.value);
      }
    } else {
      TickIdles(s);
    }
  }

  // ---------------------------------------------------------------- a tick that does not

  /** A session that is not live refuses unchanged; after 64 calls a live one only counts the call. */
  lemma TickRefuses(s: Session)
    ensures !s.live ==> TickStep(s) == Err(s, NotStarted)
    ensures s.live && s.stepsTaken >= 64 ==>
              TickStep(s) == Err(s.(stepsTaken := Min(s.stepsTaken + 1, 0xFFFF_FFFF)), StepLimit)
  {
  }

  /** The armed fault lies on the way of the next tick. */
  predicate InTheWay(s: Session, point: FaultPoint) {
    IsIngressFault(point) || (IsNew(s) && (IsExecuteFault(point) || IsPublishFault(point)))
  }

  lemma WorkUndisturbed(s: Session, p: Packet)
    requires SessionOk(s) && s.live
    requires s.armed.Some? && p.seqNo > s.durable.committedIngressSeq ==>
               !IsExecuteFault(s.armed.value) && !IsPublishFault(s.armed.value)
    ensures var r := WorkStep(s, p);
            if p.seqNo > s.durable.committedIngressSeq && s.durable.committedTickSeq == U64_MAX then
              r == Err(s.(health := Faulted, live := false), TickSequenceOverflow)
            else r.Ok?
  {
    if p.seqNo > s.durable.committedIngressSeq && s.durable.committedTickSeq < U64_MAX {
      assert Inflight(s, p).Validate() && Committing(s, p).Validate();
    }
  }

  /** With no fault in its way a tick within the budget fails only when ticks can no longer be numbered. */
  lemma TickFailsOnlyAtTheEnd(s: Session)
    requires SessionOk(s) && s.live && s.stepsTaken < 64
    requires s.armed.Some? ==> !InTheWay(s, s.armed.value)
    ensures TickStep(s).Err? <==> IsNew(s) && s.durable.committedTickSeq == U64_MAX
    ensures TickStep(s).Err? ==>
              && TickStep(s).error == TickSequenceOverflow && TickStep(s).s.health == Faulted
              && TickStep(s).s.store == s.store && TickStep(s).s.armed == s.armed
  {
    hide TickStep, WorkStep, IngressStep;
    var s0, r := TickOpens(s);
    IngressUndisturbed(s0);
    if r.value.Some? {
      IngressFacts(s0);
      WorkUndisturbed(r.s, r.value.value);
    }
  }

  lemma IngressUndisturbed(s: Session)
    requires SessionOk(s) && s.live && (s.armed.Some? ==> !IsIngressFault(s.armed.value))
    ensures IngressStep(s)
         == Ok(s.(source := Rest(s.source)), if s.source == [] then None else Some(s.source[0]))
  {
  }

  /** A fault on ingress fires even on an empty source, where nothing is taken. */
  lemma IngressFaultFires(s: Session, point: FaultPoint)
    requires SessionOk(s) && s.live && s.stepsTaken < 64 && s.armed == Some(point) && IsIngressFault(point)
    ensures TickStep(s) ==
            Err(s.(armed := None, health := Degraded, live := false, stepsTaken := s.stepsTaken + 1,
                   nowNs := Min(s.nowNs + 1_000_000, U64_MAX),
                   source := if point == After(Ingress) then Rest(s.source) else s.source),
                ErrorOf(point))
  {
  }

  /** What no tick touches, however it ends. */
  ghost predicate TickSpares(s: Session, s': Session) {
    && s'.channelOpen == s.channelOpen && s'.restart == s.restart && s'.incompletePrior == s.incompletePrior
    && s'.sessionId == s.sessionId && s'.liveLoopEntered == s.liveLoopEntered
  }

  lemma WorkSpares(s: Session, p: Packet)
    requires SessionOk(s) && s.live
    ensures TickSpares(s, WorkStep(s, p).s)
  {
    hide SpikesFrom;
  }

  lemma TickLeavesSession(s: Session)
    requires SessionOk(s)
    ensures TickSpares(s, TickStep(s).s)
  {
    hide TickStep, WorkStep;
    if s.live && s.stepsTaken < MAX_STEPS {
      var s0, r := TickOpens(s);
      IngressSpares(s0);
      IngressFacts(s0);
      if r.Ok? && r.value.Some? {
        WorkSpares(r.s, r.value.value);
      }
    } else {
      TickIdles(s);
    }
  }

  lemma IngressSpares(s: Session)
    requires SessionOk(s) && s.live
    ensures TickSpares(s, IngressStep(s).s)
  {
  }

  /** A fault in the work of a tick finds the core stepped on the packet exactly if it comes after the step. */
  lemma FaultAfterCore(s: Session, p: Packet, point: FaultPoint)
    requires AboutTo(s, p, point) && (IsExecuteFault(point) || IsPublishFault(point))
    ensures var s', stepped := WorkStep(s, p).s, point == After(TickExecute) || IsPublishFault(point);
            && s'.coreSteps == s.coreSteps + (if stepped then 1 else 0)
            && s'.lastStimuli == (if stepped then Some(p.stimuli) else s.lastStimuli)
            && s'.skippedReplays == s.skippedReplays && s'.source == s.source
  {
    assert Inflight(s, p).Validate() && Committing(s, p).Validate();
  }

  /** Waiting for backpressure to clear costs ten milliseconds on top of the one of the tick; other faults nothing. */
  lemma FaultTime(s: Session, point: FaultPoint)
    requires s.source != [] && AboutTo(s, s.source[0], point) && IsTickFault(point) && s.stepsTaken < 64
    ensures TickStep(s).s.nowNs
         == Min(s.nowNs + 1_000_000 + (if point == BackpressureTimeout then 10_000_000 else 0), U64_MAX)
  {
    hide TickStep, WorkStep, IngressStep;
    var s0, r := TickOpens(s);
    if IsIngressFault(point) {
      IngressFaultFires(s, point);
    } else {
      IngressUndisturbed(s0);
      WorkTime(r.s, s.source[0], point);
    }
  }

  lemma WorkTime(s: Session, p: Packet, point: FaultPoint)
    requires AboutTo(s, p, point) && (IsExecuteFault(point) || IsPublishFault(point))
    ensures WorkStep(s, p).s.nowNs
         == Min(s.nowNs + (if point == BackpressureTimeout then 10_000_000 else 0), U64_MAX)
  {
    assert Inflight(s, p).Validate() && Committing(s, p).Validate();
  }

  // ---------------------------------------------------------------- boots

  /** A new harness is in no session: nothing runs, nothing is known of the store, the channel is closed. */
  lemma BuildsIdle(seed: u64, store: Blob, packets: seq<Packet>, fault: Option<FaultPoint>)
    ensures var s := Build(seed, store, packets, fault);
            && s.store == store && s.source == packets && s.armed == fault
            && s.published == [] && s.metrics == [] && s.coreSteps == 0 && s.lastStimuli.None?
            && s.health == Starting && s.sessionId == 0 && !s.live && !s.liveLoopEntered && !s.incompletePrior
            && s.restart.None? && s.skippedReplays == 0 && s.stepsTaken == 0 && !s.channelOpen
            && s.durable == DurableState(1, "fake-core-v1", 0, 0, 0, None)
  {
  }

  /** What a new harness starts its clock at. */
  lemma ClockStarts(seed: u64, store: Blob, packets: seq<Packet>, fault: Option<FaultPoint>)
    ensures var now := Build(seed, store, packets, fault).nowNs;
            now >= 1 && (seed <= 18_446_744_073_709 ==> now == seed * 1_000_000 + 1)
  {
  }

  /** What stays as it was through any boot. */
  ghost predicate BootSpares(s: Session, s': Session) {
    && s'.nowNs == s.nowNs && s'.source == s.source
    && s'.stepsTaken == s.stepsTaken && s'.skippedReplays == s.skippedReplays
  }

  /** A boot cleared everything volatile before it looked at the store. */
  ghost predicate Cleared(s: Session) {
    s.coreSteps == 0 && s.lastStimuli.None? && s.published == [] && s.metrics == [] && s.channelOpen
  }

  /**
   With no fault of a boot armed, a boot succeeds exactly if the store loads and its counters have
   room; it reports how it found the store, and a rejection says why and leaves the store alone.
   */
  lemma BootAnswers(s: Session)
    requires s.armed.Some? ==> !IsBootFault(s.armed.value)
    ensures var r := BootStep(s);
            && BootSpares(s, r.s) && Cleared(r.s) && r.s.armed == s.armed
            && match Load(s.store)
               case FirstBoot =>
                 r.Ok? && r.s.restart == Some(FreshStart) && !r.s.incompletePrior && r.s.sessionId == 1
               case Invalid => r.Err? && r.error == InvalidDurable && BootRejects(s, r.s)
               case Found(d) =>
                 if d.committedTickSeq == U64_MAX then r.Err? && r.error == TickSequenceOverflow && BootRejects(s, r.s)
                 else if d.lastSessionId == U64_MAX then r.Err? && r.error == SessionIdOverflow && BootRejects(s, r.s)
                 else
                   && r.Ok? && r.s.sessionId == d.lastSessionId + 1 && r.s.incompletePrior == d.inflight.Some?
                   && r.s.restart == Some(if d.inflight.Some? then RecoveredIncomplete else RecoveredClean)
    ensures BootStep(s).Ok? ==> BootStep(s).s.health == Live && BootStep(s).s.live && BootStep(s).s.liveLoopEntered
  {
    hide InitializeStep, ValidateCheckpoint;
    var s1 := s.(health := Starting);
    InitializeClears(s1);
    CheckpointAnswers(InitializeStep(s1).s);
  }

  ghost predicate BootRejects(s: Session, s': Session) {
    && s'.health == CheckpointInvalid && s'.restart == Some(RejectedInvalid) && !s'.live && s'.store == s.store
  }

  lemma InitializeClears(s: Session)
    requires s.armed.Some? ==> s.armed.value != Before(Initialize) && s.armed.value != After(Initialize)
    ensures var r := InitializeStep(s);
            && r.Ok? && Cleared(r.s)
            && r.s == s.(coreSteps := 0, lastStimuli := None, channelOpen := true, published := [], metrics := [])
  {
  }

  lemma CheckpointAnswers(s: Session)
    requires Cleared(s)
    requires s.armed.Some? ==> !IsBootFault(s.armed.value) || s.armed.value == After(CheckpointValidation)
    ensures var r := ValidateCheckpoint(s);
            && BootSpares(s, r.s) && Cleared(r.s) && r.s.armed == s.armed
            && r.s.liveLoopEntered == s.liveLoopEntered
            && match Load(s.store)
               case FirstBoot =>
                 r.Ok? && r.s.restart == Some(FreshStart) && !r.s.incompletePrior && r.s.sessionId == 1
               case Invalid => r.Err? && r.error == InvalidDurable && BootRejects(s, r.s)
               case Found(d) =>
                 if d.committedTickSeq == U64_MAX then r.Err? && r.error == TickSequenceOverflow && BootRejects(s, r.s)
                 else if d.lastSessionId == U64_MAX then r.Err? && r.error == SessionIdOverflow && BootRejects(s, r.s)
                 else
                   && r.Ok? && r.s.sessionId == d.lastSessionId + 1 && r.s.incompletePrior == d.inflight.Some?
                   && r.s.restart == Some(if d.inflight.Some? then RecoveredIncomplete else RecoveredClean)
  {
  }

  /** A boot in which a fault fires: where it stopped shows in what was cleared and what was written. */
  lemma BootFaultAnswers(s: Session, point: FaultPoint)
    requires s.armed == Some(point) && IsBootFault(point)
    requires point == After(CheckpointValidation) ==>
               MarksOf(s.store).Some? && MarksOf(s.store).value.session < U64_MAX
               && MarksOf(s.store).value.tick < U64_MAX
    ensures var r := BootStep(s);
            && r.Err? && r.s.armed.None? && BootSpares(s, r.s)
            && r.error == (if point == MalformedCheckpoint then MalformedBlob else Injected(point))
            && r.s.health == (if point == MalformedCheckpoint then CheckpointInvalid else Faulted)
            && (point != Before(Initialize) ==> Cleared(r.s))
            && (point == Before(Initialize) ==>
                  r.s.published == s.published && r.s.metrics == s.metrics && r.s.coreSteps == s.coreSteps
                  && r.s.lastStimuli == s.lastStimuli && r.s.channelOpen == s.channelOpen)
            && (point == MalformedCheckpoint ==> r.s.store == Garbage && r.s.restart == Some(RejectedInvalid))
            && (point == After(CheckpointValidation) ==>
                  MarksOf(r.s.store).Some? && MarksOf(r.s.store).value.session == MarksOf(s.store).value.session + 1)
            && (point != MalformedCheckpoint && point != After(CheckpointValidation) ==>
                  r.s.store == s.store && r.s.restart == s.restart)
  {
    var s1 := s.(health := Starting);
    if point == After(CheckpointValidation) {
      InitializeClears(s1);
      CheckpointAnswers(InitializeStep(s1).s);
      ValidateSucceeds(InitializeStep(s1).s);
    }
  }

  // ---------------------------------------------------------------- shutdowns

  /**
   A shutdown with no fault of its own armed ends the session stopped, with the channel closed. A fault
   before the close leaves the channel open and the shutdown incomplete, one after it closes it.
   */
  lemma StopAnswers(s: Session)
    ensures var r := ShutdownStep(s);
            if s.armed.Some? && IsShutdownFault(s.armed.value) then
              && r.Err? && r.s.armed.None?
              && r.error == (if s.armed.value == InterruptedShutdown then ShutdownInterrupted else Injected(s.armed.value))
              && r.s.health == (if s.armed.value == After(Shutdown) then Faulted else IncompleteShutdown)
              && r.s == s.(armed := None, health := r.s.health, live := false,
                           channelOpen := s.channelOpen && s.armed.value != After(Shutdown))
            else
              r == Ok(s.(health := Stopped, live := false, channelOpen := false), ())
  {
  }

  // ---------------------------------------------------------------- what may be stored

  /** A state without a tick in progress: a first boot's, or that of any numbered session. */
  predicate AtRest(d: DurableState) {
    && d.schemaVersion == 1 && d.checkpointId == "fake-core-v1" && d.inflight.None?
    && (d.lastSessionId >= 1 || (d.committedTickSeq == 0 && d.committedIngressSeq == 0))
  }

  /**
   The states that load are exactly those at rest, and those that a numbered session left while working
   on the next tick with a packet above the mark.
   */
  lemma LoadsExactly(d: DurableState)
    ensures Load(Encoded(d)) == Found(d) <==>
              || AtRest(d)
              || (d.inflight.Some? && AtRest(d.(inflight := None)) && d.lastSessionId >= 1
                  && d.committedTickSeq < U64_MAX
                  && d.inflight.value.tickSeq == d.committedTickSeq + 1
                  && d.inflight.value.sessionId == d.lastSessionId
                  && d.inflight.value.ingressSeq > d.committedIngressSeq)
    ensures Load(Encoded(d)) != Found(d) ==> Load(Encoded(d)) == Invalid
    ensures Load(Absent) == FirstBoot && Load(Garbage) == Invalid
  {
  }
}
