/**
 Booting one harness again, which keeps what is left of its source. It is harmless exactly while the
 harness owes no packet.
 */
module Reboots {
  import opened Prelude
  import opened Durable
  import opened Runtime
  import opened Protocol
  import opened SessionFacts
  import opened Restarts
  import opened Transparency
  import opened FaultOracle

  /** No harness is booted again while it owes a packet. */
  predicate Careful(w: World, ops: seq<Op>, script: seq<Packet>)
    decreases |ops|
  {
    ops == [] || ((ops[0].Boot? ==> Owed(w.h, script).None?) && Careful(Apply(w, ops[0]), ops[1..], script))
  }

  /** A live session owes nothing, as long as no harness was booted again while it owed a packet. */
  ghost predicate Sound(w: World, script: seq<Packet>, base: Marks) {
    Faithful(w, script, base) && (w.h.live ==> Owed(w.h, script).None?)
  }

  /** What a session owes depends on its source and its marks. */
  lemma SameOwed(s: Session, s': Session, script: seq<Packet>)
    requires s'.source == s.source && Owed(s, script).None?
    requires MarksOf(s'.store).Some? ==>
               MarksOf(s.store).Some? && MarksOf(s'.store).value.ingress == MarksOf(s.store).value.ingress
    ensures Owed(s', script).None?
  {
  }

  lemma CarefulTick(w: World, script: seq<Packet>, base: Marks)
    requires Sound(w, script, base)
    ensures !PassesOver(w, Tick, script) && Sound(Apply(w, Tick), script, base)
  {
    TickStepFaithful(w, script, base);
    if w.h.live {
      LiveOwesNothing(w.h, TickStep(w.h), script);
    } else {
      TickCounts(w.h);
      assert Apply(w, Tick).log == w.log;
    }
  }

  lemma CarefulStep(w: World, op: Op, script: seq<Packet>, base: Marks)
    requires Sound(w, script, base) && OnScript(script, op) && (op.Boot? ==> Owed(w.h, script).None?)
    ensures !PassesOver(w, op, script) && Sound(Apply(w, op), script, base)
  {
    if op.Tick? {
      CarefulTick(w, script, base);
    } else {
      StepFaithful(w, op, script, base);
      if op.Boot? {
        BootFacts(w.h);
        SameOwed(w.h, BootStep(w.h).s, script);
      } else {
        QuietFacts(w, op);
      }
    }
  }

  /**
   Booting a harness again is harmless whenever it owes no packet: such runs, however many boots they
   repeat, never pass one over.
   */
  lemma {:induction false} CarefulLosesNothing(w: World, ops: seq<Op>, script: seq<Packet>, base: Marks)
    requires Sound(w, script, base) && Careful(w, ops, script) && forall op :: op in ops ==> OnScript(script, op)
    ensures !LosesWork(w, ops, script) && Sound(Exec(w, ops), script, base)
    decreases |ops|
  {
    if ops != [] {
      CarefulStep(w, ops[0], script, base);
      CarefulLosesNothing(Apply(w, ops[0]), ops[1..], script, base);
    }
  }

  /** The same from the start, for any script and store: the log is a prefix of the uninterrupted one. */
  lemma CarefulRunsTransparent(seed: u64, store: Blob, script: seq<Packet>, fault: Option<FaultPoint>, ops: seq<Op>)
    requires MarksOf(store).Some? && forall op :: op in ops ==> OnScript(script, op)
    requires Careful(Start(seed, store, script, fault), ops, script)
    ensures var base := MarksOf(store).value;
            Erase(Exec(Start(seed, store, script, fault), ops).log)
            <= Ideal(Window(script), base.ingress, base.tick)
  {
    StartIsFaithful(seed, store, script, fault);
    CarefulLosesNothing(Start(seed, store, script, fault), ops, script, MarksOf(store).value);
  }

  /** Every harness is booted at most once. */
  predicate BootsOnce(booted: bool, ops: seq<Op>)
    decreases |ops|
  {
    ops == [] ||
    match ops[0]
    case Boot => !booted && BootsOnce(true, ops[1..])
    case Rebuild(_, _, _) => BootsOnce(false, ops[1..])
    case _ => BootsOnce(booted, ops[1..])
  }

  /** A harness that was never booted took nothing, so rebuilding for every boot is always careful. */
  lemma {:induction false} OneBootIsCareful(w: World, booted: bool, ops: seq<Op>, script: seq<Packet>)
    requires SessionOk(w.h) && (!booted ==> !w.h.live && w.h.source == script)
    requires BootsOnce(booted, ops) && forall op :: op in ops ==> OnScript(script, op)
    ensures Careful(w, ops, script)
    decreases |ops|
  {
    if ops != [] {
      OneCall(w, ops[0], script);
      OneBootIsCareful(Apply(w, ops[0]), ops[0].Boot? || (booted && !ops[0].Rebuild?), ops[1..], script);
    }
  }

  lemma OneCall(w: World, op: Op, script: seq<Packet>)
    requires SessionOk(w.h) && OnScript(script, op)
    ensures var s, s' := w.h, Apply(w, op).h;
            && SessionOk(s')
            && (s.source == script ==> Owed(s, script).None?)
            && (op.Rebuild? ==> !s'.live && s'.source == script)
            && (!op.Boot? && !op.Rebuild? && !s.live ==> !s'.live && s'.source == s.source)
  {
    match op {
      case Boot => BootFacts(w.h);
      case Tick => TickFacts(w.h);
      case _ =>
        QuietFacts(w, op);
        if op.Stop? {
          StopFacts(w.h);
        }
    }
  }

  // ---------------------------------------------------------------- and only then

  /** A live session with nothing armed that owes `p`, and skips what it is given until it sees something new. */
  ghost predicate Owing(w: World, script: seq<Packet>, base: Marks, p: Packet) {
    Faithful(w, script, base) && w.h.live && w.h.armed.None? && Owed(w.h, script) == Some(p)
  }

  lemma SkipOne(w: World, script: seq<Packet>, base: Marks, p: Packet)
    requires Owing(w, script, base, p) && w.h.stepsTaken < MAX_STEPS && w.h.source != [] && !IsNew(w.h)
    ensures var w' := Apply(w, Tick);
            && Owing(w', script, base, p) && w'.log == w.log && w'.h.durable == w.h.durable
            && w'.h.source == w.h.source[1..] && w'.h.stepsTaken == w.h.stepsTaken + 1
  {
    hide TickStep;
    var d := w.h.durable;
    TickSucceeds(w.h);
    TickFacts(w.h);
    ReplyTells(w.h);
    TickStepFaithful(w, script, base);
    TakeOne(w.h, TickStep(w.h).s, script);
    FirstAboveExtends(Taken(w.h, script), w.h.source[0], d.committedIngressSeq);
  }

  /** The tick that publishes something new while a packet is owed. */
  lemma PassOver(w: World, script: seq<Packet>, base: Marks, p: Packet)
    requires Owing(w, script, base, p) && w.h.stepsTaken < MAX_STEPS && IsNew(w.h)
    requires w.h.durable.committedTickSeq < U64_MAX
    requires w.h.source[0].seqNo != p.seqNo || SpikesFrom(w.h.source[0].stimuli, 0) != SpikesFrom(p.stimuli, 0)
    ensures var log := Apply(w, Tick).log;
            && |log| == |w.log| + 1 && log[|w.log|].ingressSeq == w.h.source[0].seqNo
            && !(Erase(log) <= Ideal(script, base.ingress, base.tick))
  {
    TickSucceeds(w.h);
    TickFacts(w.h);
    ReplyTells(w.h);
    assert Appended(w.h.published, TickStep(w.h).s.published)
        == [OutputFor(w.h, w.h.source[0], TickTime(w.h))];
    TickStepFaithful(w, script, base);
  }

  lemma {:induction false} SkipThenPassOver(w: World, script: seq<Packet>, base: Marks, p: Packet, k: nat)
    requires Owing(w, script, base, p) && w.h.durable.committedTickSeq < U64_MAX
    requires k < |w.h.source| && w.h.stepsTaken + k < MAX_STEPS
    requires FirstAbove(w.h.source[..k], w.h.durable.committedIngressSeq).None?
    requires w.h.source[k].seqNo > w.h.durable.committedIngressSeq
    requires w.h.source[k].seqNo != p.seqNo || SpikesFrom(w.h.source[k].stimuli, 0) != SpikesFrom(p.stimuli, 0)
    ensures var log := Exec(w, Ticks(k + 1)).log;
            && |log| == |w.log| + 1 && log[|w.log|].ingressSeq == w.h.source[k].seqNo
            && !(Erase(log) <= Ideal(script, base.ingress, base.tick))
    decreases k
  {
    hide Apply;
    ExecTick(w, k + 1);
    if k == 0 {
      PassOver(w, script, base, p);
    } else {
      SkipOne(w, script, base, p);
      assert w.h.source[..k][1..] == w.h.source[1..][..k - 1];
      SkipThenPassOver(Apply(w, Tick), script, base, p, k - 1);
    }
  }

  /**
   Booting a harness again while it owes a packet loses it: from any state of any run, if the store
   loads with room and the source still holds a new packet within the step budget, the reboot and the
   ticks up to that packet publish it without the owed one, and the log is no prefix any more.
   */
  lemma RebootLosesOwed(w: World, script: seq<Packet>, base: Marks, k: nat)
    requires Faithful(w, script, base) && Owed(w.h, script).Some? && w.h.armed.None?
    requires MarksOf(w.h.store).value.session < U64_MAX && MarksOf(w.h.store).value.tick < U64_MAX
    requires k < |w.h.source| && w.h.stepsTaken + k < MAX_STEPS
    requires FirstAbove(w.h.source[..k], MarksOf(w.h.store).value.ingress).None?
    requires w.h.source[k].seqNo > MarksOf(w.h.store).value.ingress
    requires w.h.source[k].seqNo != Owed(w.h, script).value.seqNo
             || SpikesFrom(w.h.source[k].stimuli, 0) != SpikesFrom(Owed(w.h, script).value.stimuli, 0)
    ensures var log := Exec(w, [Boot] + Ticks(k + 1)).log;
            && |log| == |w.log| + 1 && log[|w.log|].ingressSeq == w.h.source[k].seqNo
            && !(Erase(log) <= Ideal(script, base.ingress, base.tick))
  {
    var w1 := Apply(w, Boot);
    BootSucceeds(w.h);
    BootFacts(w.h);
    StepFaithful(w, Boot, script, base);
    assert MarksOf(w1.h.store) == Some(Marks(w1.h.durable.lastSessionId, w1.h.durable.committedTickSeq,
                                             w1.h.durable.committedIngressSeq));
    SkipThenPassOver(w1, script, base, Owed(w.h, script).value, k);
    assert ([Boot] + Ticks(k + 1))[1..] == Ticks(k + 1);
  }

  /** The points of a tick after which the packet in hand is owed. */
  predicate Drops(point: FaultPoint) {
    point == After(Ingress) || (IsExecuteFault(point) || (IsPublishFault(point) && point != After(MetricPublish)))
  }

  lemma OwedAfterFault(s: Session, script: seq<Packet>, point: FaultPoint)
    requires s.source != [] && AboutTo(s, s.source[0], point) && IsTickFault(point) && s.stepsTaken < MAX_STEPS
    requires Reads(s, script) && |Taken(s, script)| <= s.stepsTaken && Owed(s, script).None?
    ensures Owed(TickStep(s).s, script).Some? <==> Drops(point)
  {
    hide TickStep;
    TickStopsAt(s, point);
    ReplyTellsOwed(s, script);
  }

  /** What the fault leaves: the rest of the source, nothing armed, and the marks of an uncommitted packet. */
  lemma AfterDrop(w: World, script: seq<Packet>, base: Marks, point: FaultPoint)
    requires Sound(w, script, base) && w.h.stepsTaken < MAX_STEPS && w.h.source != []
    requires AboutTo(w.h, w.h.source[0], point) && IsTickFault(point) && Drops(point)
    ensures var s' := TickStep(w.h).s;
            && s'.source == w.h.source[1..] && s'.armed.None? && s'.stepsTaken == w.h.stepsTaken + 1
            && MarksOf(s'.store) == MarksOf(w.h.store) && Owed(s', script) == Some(w.h.source[0])
  {
    hide TickStep;
    TickFacts(w.h);
    TickStopsAt(w.h, point);
    ReplyTells(w.h);
    TakeOne(w.h, TickStep(w.h).s, script);
    FirstAboveExtends(Taken(w.h, script), w.h.source[0], w.h.durable.committedIngressSeq);
  }

  lemma DropLoses(w: World, w1: World, script: seq<Packet>, base: Marks, point: FaultPoint)
    requires Sound(w, script, base) && w.h.stepsTaken + 1 < MAX_STEPS && |w.h.source| >= 2
    requires AboutTo(w.h, w.h.source[0], point) && IsTickFault(point) && Drops(point)
    requires w.h.source[0].seqNo < w.h.source[1].seqNo && w.h.durable.lastSessionId < U64_MAX
    requires w1 == Apply(w, Tick) && Faithful(w1, script, base)
    ensures !(Erase(Exec(w1, [Boot] + Ticks(1)).log) <= Ideal(script, base.ingress, base.tick))
  {
    AfterDrop(w, script, base, point);
    RebootLosesOwed(w1, script, base, 0);
  }

  lemma NoDropKeeps(w1: World, script: seq<Packet>, base: Marks)
    requires Sound(w1, script, base) && Owed(w1.h, script).None?
    ensures Erase(Exec(w1, [Boot] + Ticks(1)).log) <= Ideal(script, base.ingress, base.tick)
  {
    var w2 := Apply(w1, Boot);
    CarefulStep(w1, Boot, script, base);
    CarefulTick(w2, script, base);
    ExecTick(w2, 1);
    assert ([Boot] + Ticks(1))[1..] == Ticks(1);
    WindowIsPrefix(script, |Window(script)|, base.ingress, base.tick);
  }

  /**
   Any fault of a tick on a new packet, followed by a second boot of the same harness and another tick,
   with a newer packet waiting: the log goes wrong exactly for the faults between taking the packet
   and committing it.
   */
  lemma RebootLosesPacket(w: World, script: seq<Packet>, base: Marks, point: FaultPoint)
    requires Sound(w, script, base) && w.h.stepsTaken + 1 < MAX_STEPS && |w.h.source| >= 2
    requires AboutTo(w.h, w.h.source[0], point) && IsTickFault(point)
    requires w.h.source[0].seqNo < w.h.source[1].seqNo && w.h.durable.lastSessionId < U64_MAX
    ensures Erase(Exec(Apply(w, Tick), [Boot] + Ticks(1)).log) <= Ideal(script, base.ingress, base.tick)
            <==> !Drops(point)
  {
    OwedAfterFault(w.h, script, point);
    CarefulStep(w, Tick, script, base);
    var w1 := Apply(w, Tick);
    if Drops(point) {
      DropLoses(w, w1, script, base, point);
    } else {
      NoDropKeeps(w1, script, base);
    }
  }
}
