/** What one call does to one session: the invariant between calls, and the cases of a boot and of a tick. */
module SessionFacts {
  import opened Prelude
  import opened Durable
  import opened Runtime
  import opened Protocol

  /** Holds between any two calls. */
  ghost predicate SessionOk(s: Session) {
    && (s.live <==> s.health == Live)
    && (s.live ==>
          && s.channelOpen && s.liveLoopEntered
          && s.store == Encoded(s.durable) && s.durable.Validate() && s.durable.inflight.None?
          && s.sessionId == s.durable.lastSessionId && s.sessionId > 0)
    && s.skippedReplays <= Min(s.stepsTaken, MAX_STEPS)
  }

  /** The counters a store can be resumed from; nothing if it would be rejected. */
  datatype Marks = Marks(session: nat, tick: nat, ingress: nat)

  function MarksOf(store: Blob): Option<Marks> {
    match Load(store)
    case FirstBoot => Some(Marks(0, 0, 0))
    case Found(d) => Some(Marks(d.lastSessionId, d.committedTickSeq, d.committedIngressSeq))
    case Invalid => None
  }

  lemma InitializeFacts(s: Session)
    ensures var r := InitializeStep(s);
            && (r.Err? ==> !r.s.live && r.s.health == Faulted)
            && (r.Ok? ==> r.s.health == s.health && r.s.channelOpen && r.s.published == [] && r.s.metrics == [])
            && r.s.store == s.store
            && r.s.stepsTaken == s.stepsTaken && r.s.source == s.source && r.s.skippedReplays == s.skippedReplays
  {
  }

  /** A boot publishes nothing; it keeps the marks but for the session, or poisons the store for good. */
  ghost predicate BootKeeps(s: Session, s': Session) {
    && (MarksOf(s.store).None? ==> MarksOf(s'.store).None? && !s'.live)
    && (MarksOf(s'.store).Some? ==>
          && MarksOf(s.store).Some?
          && var m, m' := MarksOf(s.store).value, MarksOf(s'.store).value;
          && m'.tick == m.tick && m'.ingress == m.ingress
          && m.session <= m'.session <= m.session + 1
          && (s'.live ==> s'.sessionId == m'.session == m.session + 1))
  }

  lemma RecoverFacts(s: Session, state: DurableState)
    requires state.Validate() && s.store == Encoded(state)
    ensures var r := RecoverSession(s, state);
            && (r.Err? ==> !r.s.live && r.s.health == CheckpointInvalid && r.s.store == s.store)
            && r.s.stepsTaken == s.stepsTaken && r.s.source == s.source && r.s.skippedReplays == s.skippedReplays
            && (r.Ok? ==>
                  && r.s.channelOpen == s.channelOpen && r.s.published == s.published && r.s.metrics == s.metrics
                  && r.s.store == Encoded(r.s.durable)
                  && r.s.durable == state.(inflight := None, lastSessionId := r.s.sessionId)
                  && r.s.sessionId == state.lastSessionId + 1)
  {
  }

  lemma ValidateFails(s: Session)
    requires ValidateCheckpoint(s).Err?
    ensures var s' := ValidateCheckpoint(s).s;
            && !s'.live && s'.health in {Faulted, CheckpointInvalid}
            && (s'.store == s.store || s'.store == Garbage)
            && s'.stepsTaken == s.stepsTaken && s'.source == s.source && s'.skippedReplays == s.skippedReplays
  {
  }

  lemma ValidateSucceeds(s: Session)
    requires ValidateCheckpoint(s).Ok?
    ensures var s' := ValidateCheckpoint(s).s;
            && s'.stepsTaken == s.stepsTaken && s'.source == s.source && s'.skippedReplays == s.skippedReplays
            && s'.channelOpen == s.channelOpen && s'.published == s.published && s'.metrics == s.metrics
            && s'.store == Encoded(s'.durable) && s'.sessionId == s'.durable.lastSessionId
            && match Load(s.store)
               case FirstBoot => s'.durable == DurableState.Fresh().(lastSessionId := 1)
               case Found(d) => d.lastSessionId < U64_MAX && d.committedTickSeq < U64_MAX
                                && s'.durable == d.(inflight := None, lastSessionId := d.lastSessionId + 1)
               case Invalid => false
  {
    if s.store.Encoded? && s.store.state.Validate() {
      RecoverFacts(s, s.store.state);
    }
  }

  lemma BootFacts(s: Session)
    requires s.skippedReplays <= Min(s.stepsTaken, MAX_STEPS)
    ensures var r := BootStep(s);
            && SessionOk(r.s) && BootKeeps(s, r.s)
            && (r.Ok? <==> r.s.live)
            && r.s.stepsTaken == s.stepsTaken && r.s.source == s.source
  {
    var r0 := InitializeStep(s.(health := Starting));
    InitializeFacts(s.(health := Starting));
    if r0.Ok? {
      var r1 := ValidateCheckpoint(r0.s);
      if r1.Ok? {
        ValidateSucceeds(r0.s);
      } else {
        ValidateFails(r0.s);
      }
    }
  }

  /** A shutdown ends the session, cleanly or not, and never touches the store. */
  lemma StopFacts(s: Session)
    requires SessionOk(s)
    ensures var s' := ShutdownStep(s).s;
            && SessionOk(s') && !s'.live
            && s'.store == s.store && s'.source == s.source && s'.published == s.published
  {
  }

  /** What a tick leaves alone whichever way it ends. */
  ghost predicate SameVolatile(s: Session, s': Session) {
    s'.source == s.source && s'.stepsTaken == s.stepsTaken && s'.skippedReplays == s.skippedReplays
  }

  function Inflight(s: Session, packet: Packet): DurableState
    requires s.durable.committedTickSeq < U64_MAX
  {
    s.durable.(inflight := Some(InflightRecord(s.sessionId, s.durable.committedTickSeq + 1, packet.seqNo)))
  }

  function Committing(s: Session, packet: Packet): DurableState
    requires s.durable.committedTickSeq < U64_MAX
  {
    s.durable.(committedTickSeq := s.durable.committedTickSeq + 1, committedIngressSeq := packet.seqNo,
               inflight := None)
  }

  lemma ExecuteFacts(s: Session, packet: Packet)
    requires SessionOk(s) && s.live && packet.seqNo > s.durable.committedIngressSeq
    ensures var r := ExecuteTick(s, packet);
            && SameVolatile(s, r.s) && r.s.published == s.published && r.s.metrics == s.metrics
            && (r.Err? ==>
                  && !r.s.live && r.s.health in {Faulted, Degraded} && r.error !in {InvalidDurable, PublishClosed}
                  && (r.s.store == s.store
                      || (s.durable.committedTickSeq < U64_MAX && r.s.store == Encoded(Inflight(s, packet)))))
            && (r.Ok? ==>
                  && s.durable.committedTickSeq < U64_MAX
                  && r.value == (s.durable.committedTickSeq + 1, SpikesFrom(packet.stimuli, 0))
                  && r.s.live && r.s.health == Live && r.s.channelOpen && r.s.liveLoopEntered
                  && r.s.sessionId == s.sessionId && r.s.nowNs == s.nowNs
                  && r.s.durable == Inflight(s, packet) && r.s.store == Encoded(r.s.durable))
  {
  }

  lemma PublishFacts(s: Session, packet: Packet, s1: Session)
    requires SessionOk(s) && s.live && packet.seqNo > s.durable.committedIngressSeq
    requires ExecuteTick(s, packet).Ok? && s1 == ExecuteTick(s, packet).s
    ensures ExecuteTick(s, packet).value.0 == s.durable.committedTickSeq + 1 <= U64_MAX
    ensures var v := ExecuteTick(s, packet).value;
            var r := PublishMetrics(s1, v.0, packet.seqNo, v.1);
            && SameVolatile(s, r.s)
            && (r.Ok? <==> r.s.live)
            && (r.s.live <==> r.s.health == Live)
            && (r.Err? ==> r.error !in {InvalidDurable, PublishClosed})
            && if r.s.store == Encoded(Committing(s, packet)) then
                 && r.s.durable == Committing(s, packet)
                 && r.s.channelOpen && r.s.liveLoopEntered && r.s.sessionId == s.sessionId
                 && r.s.published == s.published
                    + [CommittedOutput(s.sessionId, v.0, packet.seqNo, v.1, s.nowNs)]
                 && r.s.metrics == s.metrics + [MetricEvent(s.sessionId, v.0, packet.seqNo)]
               else
                 && !r.s.live
                 && r.s.published == s.published && r.s.metrics == s.metrics
                 && r.s.store == Encoded(Inflight(s, packet))
  {
    ExecuteFacts(s, packet);
  }

  /** No output, and a restart would resume from the same counters. */
  ghost predicate Keeps(s: Session, s': Session) {
    s'.published == s.published && s'.metrics == s.metrics && MarksOf(s'.store) == MarksOf(s.store)
  }

  function OutputFor(s: Session, packet: Packet, timeNs: u64): CommittedOutput
    requires s.durable.committedTickSeq < U64_MAX
  {
    CommittedOutput(s.sessionId, s.durable.committedTickSeq + 1, packet.seqNo, SpikesFrom(packet.stimuli, 0), timeNs)
  }

  /** At time `now` the live session `s` published `packet` and made that durable, leaving `s'`. */
  ghost predicate Commits(s: Session, s': Session, packet: Packet, now: u64) {
    && s.live && s.durable.committedTickSeq < U64_MAX && packet.seqNo > s.durable.committedIngressSeq
    && s'.store == Encoded(Committing(s, packet)) && s'.durable == Committing(s, packet)
    && s'.published == s.published + [OutputFor(s, packet, now)]
    && s'.metrics == s.metrics + [MetricEvent(s.sessionId, s.durable.committedTickSeq + 1, packet.seqNo)]
  }

  lemma MarksAfterCommit(s: Session, s': Session, packet: Packet, now: u64)
    requires SessionOk(s) && Commits(s, s', packet, now)
    ensures MarksOf(s.store) ==
            Some(Marks(s.durable.lastSessionId, s.durable.committedTickSeq, s.durable.committedIngressSeq))
    ensures MarksOf(s'.store) ==
            Some(Marks(s.durable.lastSessionId, s.durable.committedTickSeq + 1, packet.seqNo))
  {
  }

  function TickTime(s: Session): u64 {
    SaturatingAdd(s.nowNs, TICK_PERIOD_NS)
  }

  lemma WorkFacts(s: Session, packet: Packet)
    requires SessionOk(s) && s.live && s.skippedReplays < Min(s.stepsTaken, MAX_STEPS)
    ensures var r := WorkStep(s, packet);
            && SessionOk(r.s)
            && r.s.stepsTaken == s.stepsTaken && r.s.source == s.source
            && (r.Ok? <==> r.s.live)
            && (r.Err? ==> r.error !in {InvalidDurable, PublishClosed})
            && (Keeps(s, r.s) || Commits(s, r.s, packet, s.nowNs))
            && (r.Ok? ==> if packet.seqNo <= s.durable.committedIngressSeq then Keeps(s, r.s)
                          else Commits(s, r.s, packet, s.nowNs))
            && (packet.seqNo <= s.durable.committedIngressSeq ==> r.s.durable == s.durable)
            && (r.s.live ==> r.s.sessionId == s.sessionId)
  {
    if packet.seqNo > s.durable.committedIngressSeq {
      ExecuteFacts(s, packet);
      if ExecuteTick(s, packet).Ok? {
        PublishFacts(s, packet, ExecuteTick(s, packet).s);
      }
    }
  }

  lemma IngressFacts(s: Session)
    requires SessionOk(s) && s.live
    ensures var r := IngressStep(s);
            && r.s.store == s.store && r.s.durable == s.durable && r.s.sessionId == s.sessionId
            && r.s.published == s.published && r.s.metrics == s.metrics
            && r.s.stepsTaken == s.stepsTaken && r.s.skippedReplays == s.skippedReplays
            && (r.Err? ==> !r.s.live && r.s.health == Degraded && r.error !in {InvalidDurable, PublishClosed})
            && (r.Ok? ==>
                  && r.s == s.(source := r.s.source)
                  && r.value == (if s.source == [] then None else Some(s.source[0]))
                  && r.s.source == (if s.source == [] then [] else s.source[1..]))
  {
  }

  /** A tick of a live session within its budget is the ingress step and the work on what it took. */
  lemma TickOpens(s: Session) returns (s0: Session, r: Run<Option<Packet>>)
    requires s.live && s.stepsTaken < MAX_STEPS
    ensures s0 == s.(stepsTaken := s.stepsTaken + 1, nowNs := TickTime(s)) && r == IngressStep(s0)
    ensures TickStep(s) == match r
                           case Err(s1, e) => Err(s1, e)
                           case Ok(s1, None) => Ok(s1, NoIngress)
                           case Ok(s1, Some(packet)) => WorkStep(s1, packet)
  {
    s0 := BeginTick(s).s;
    r := IngressStep(s0);
  }

  /** Not live, or the step budget is used up. */
  lemma TickIdles(s: Session)
    requires !s.live || s.stepsTaken >= MAX_STEPS
    ensures var s' := TickStep(s).s;
            && TickStep(s).Err? && TickStep(s).error in {NotStarted, StepLimit}
            && s' == (if s.live then s.(stepsTaken := Min(s.stepsTaken + 1, U32_MAX)) else s)
  {
  }

  /** One output and its commit, or none. */
  ghost predicate TickDoes(s: Session, s': Session) {
    Keeps(s, s') || (s.source != [] && Commits(s, s', s.source[0], TickTime(s)))
  }

  lemma TickOutcome(s: Session)
    requires SessionOk(s)
    ensures var r := TickStep(s);
            SessionOk(r.s) && (r.Err? ==> r.error !in {InvalidDurable, PublishClosed}) && TickDoes(s, r.s)
  {
    hide TickStep, WorkStep, IngressStep;
    if s.live && s.stepsTaken < MAX_STEPS {
      var s0, r := TickOpens(s);
      IngressFacts(s0);
      if r.Ok? && r.value.Some? {
        WorkFacts(r.s, r.value.value);
      }
    } else {
      TickIdles(s);
    }
  }

  lemma TickCounts(s: Session)
    requires SessionOk(s)
    ensures var s' := TickStep(s).s;
            && (!s.live ==> s' == s)
            && (s.live && s.stepsTaken >= MAX_STEPS ==>
                  s' == s.(stepsTaken := Min(s.stepsTaken + 1, U32_MAX)))
            && (s.live && s.stepsTaken < MAX_STEPS ==> s'.stepsTaken == s.stepsTaken + 1)
            && (s'.live ==> s'.sessionId == s.sessionId)
  {
    if s.live && s.stepsTaken < MAX_STEPS {
      var s0, r := TickOpens(s);
      IngressFacts(s0);
      if r.Ok? && r.value.Some? {
        WorkFacts(r.s, r.value.value);
      }
    } else {
      TickIdles(s);
    }
  }

  function Rest(source: seq<Packet>): seq<Packet> {
    if source == [] then [] else source[1..]
  }

  /** The errors before the source was asked: a tick that ends so took nothing. */
  predicate TookNothing(r: Run<TickResult>) {
    r.Err? && r.error in {NotStarted, StepLimit, Injected(Before(Ingress)), ChannelClosed}
  }

  /** The errors between taking a new packet and committing it. */
  predicate Unfinished(error: Error) {
    error in {Injected(Before(TickExecute)), TickSequenceOverflow, CoreFailed, Injected(After(TickExecute)),
              Injected(Before(MetricPublish)), Backpressure}
  }

  predicate IsNew(s: Session) {
    s.source != [] && s.source[0].seqNo > s.durable.committedIngressSeq
  }

  lemma IngressTakes(s: Session)
    requires SessionOk(s) && s.live
    ensures var r := IngressStep(s);
            && (r.Err? ==> r.error in {Injected(Before(Ingress)), ChannelClosed, Injected(After(Ingress))})
            && r.s.source == (if r.Err? && r.error != Injected(After(Ingress)) then s.source else Rest(s.source))
  {
  }

  lemma WorkReplies(s: Session, packet: Packet)
    requires SessionOk(s) && s.live && s.skippedReplays < Min(s.stepsTaken, MAX_STEPS)
    ensures var r := WorkStep(s, packet);
            && r.s.source == s.source
            && (r.Err? ==> Unfinished(r.error) || r.error == Injected(After(MetricPublish)))
            && (r.Err? && Unfinished(r.error) ==> packet.seqNo > s.durable.committedIngressSeq && Keeps(s, r.s))
            && (packet.seqNo > s.durable.committedIngressSeq && (r.Ok? || !Unfinished(r.error)) ==>
                  Commits(s, r.s, packet, s.nowNs))
  {
    WorkFacts(s, packet);
  }

  /**
   What the reply of a tick of a live session tells its caller: whether a packet was taken, and
   whether a new packet was taken and not committed.
   */
  lemma ReplyTells(s: Session)
    requires SessionOk(s) && s.live
    ensures var r := TickStep(s);
            && r.s.source == (if TookNothing(r) then s.source else Rest(s.source))
            && (!TookNothing(r) ==> s.stepsTaken < MAX_STEPS && (r.Ok? <==> r.s.live))
            && (TookNothing(r) ==> Keeps(s, r.s))
            && (r.Err? && Unfinished(r.error) ==> IsNew(s) && Keeps(s, r.s))
            && (r.Err? && r.error == Injected(After(Ingress)) ==> Keeps(s, r.s))
            && (!TookNothing(r) && (r.Ok? || !(Unfinished(r.error) || r.error == Injected(After(Ingress)))) ==>
                  if IsNew(s) then Commits(s, r.s, s.source[0], TickTime(s)) else Keeps(s, r.s))
  {
    hide TickStep, WorkStep;
    TickOutcome(s);
    if s.stepsTaken < MAX_STEPS {
      var s0, r := TickOpens(s);
      IngressFacts(s0);
      IngressTakes(s0);
      if r.Ok? && r.value.Some? {
        WorkFacts(r.s, r.value.value);
        WorkReplies(r.s, r.value.value);
      }
    } else {
      TickIdles(s);
    }
  }

  /** Everything a tick can do to a session. */
  lemma TickFacts(s: Session)
    requires SessionOk(s)
    ensures var r := TickStep(s);
            SessionOk(r.s) && (r.Err? ==> r.error !in {InvalidDurable, PublishClosed}) && TickDoes(s, r.s)
    ensures var s' := TickStep(s).s;
            && (!s.live ==> s' == s)
            && (s.live && s.stepsTaken >= MAX_STEPS ==>
                  s' == s.(stepsTaken := Min(s.stepsTaken + 1, U32_MAX)))
            && (s.live && s.stepsTaken < MAX_STEPS ==> s'.stepsTaken == s.stepsTaken + 1)
            && (s'.live ==> s'.sessionId == s.sessionId)
    ensures var r := TickStep(s);
            r.Ok? ==> r.s.source == Rest(s.source) && r.s.live
  {
    hide TickStep;
    TickOutcome(s);
    TickCounts(s);
    if s.live {
      ReplyTells(s);
    } else {
      TickIdles(s);
    }
  }
}
