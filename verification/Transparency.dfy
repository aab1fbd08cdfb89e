/**
 Crash transparency. The reference is what a harness that never crashes would publish for a script:
 one entry for every packet above the high-water mark, in order. Session ids and times are erased.
 */
module Transparency {
  import opened Prelude
  import opened Durable
  import opened Runtime
  import opened Protocol
  import opened SessionFacts
  import opened Restarts

  datatype Entry = Entry(tickSeq: nat, ingressSeq: nat, spikeIds: seq<nat>)

  function EntryOf(o: CommittedOutput): Entry {
    Entry(o.tickSeq, o.ingressSeq, o.spikeIds)
  }

  function Erase(log: seq<CommittedOutput>): seq<Entry> {
    if log == [] then [] else Erase(log[..|log| - 1]) + [EntryOf(log[|log| - 1])]
  }

  /** The uninterrupted log for `script`, continuing after tick `tick` and ingress `mark`. */
  function Ideal(script: seq<Packet>, mark: nat, tick: nat): seq<Entry> {
    if script == [] then []
    else if script[0].seqNo <= mark then Ideal(script[1..], mark, tick)
    else
      [Entry(tick + 1, script[0].seqNo, SpikesFrom(script[0].stimuli, 0))]
      + Ideal(script[1..], script[0].seqNo, tick + 1)
  }

  /** A session never looks past its first 64 packets, replays included. */
  function Window(script: seq<Packet>): seq<Packet> {
    script[..Min(|script|, MAX_STEPS)]
  }

  /** Replaying the script after its first new packet was committed offers exactly the rest. */
  lemma {:induction false} ReplayOffersTheRest(script: seq<Packet>, mark: nat, tick: nat)
    requires Ideal(script, mark, tick) != []
    ensures var all := Ideal(script, mark, tick);
            all[0].tickSeq == tick + 1 && Ideal(script, all[0].ingressSeq, tick + 1) == all[1..]
    ensures Ideal(script, mark, tick)[0].ingressSeq > mark
  {
    if script[0].seqNo <= mark {
      ReplayOffersTheRest(script[1..], mark, tick);
    }
  }

  lemma {:induction false} WindowIsPrefix(script: seq<Packet>, k: nat, mark: nat, tick: nat)
    requires k <= |script|
    ensures Ideal(script[..k], mark, tick) <= Ideal(script, mark, tick)
  {
    if k > 0 {
      assert script[..k][1..] == script[1..][..k - 1];
      if script[0].seqNo <= mark {
        WindowIsPrefix(script[1..], k - 1, mark, tick);
      } else {
        WindowIsPrefix(script[1..], k - 1, script[0].seqNo, tick + 1);
      }
    }
  }

  // ---------------------------------------------------------------- what a session took

  /** The first packet above the mark. */
  function FirstAbove(taken: seq<Packet>, mark: nat): Option<Packet> {
    if taken == [] then None
    else if taken[0].seqNo > mark then Some(taken[0])
    else FirstAbove(taken[1..], mark)
  }

  /** The source is what is left of the script the harness was built with. */
  predicate Reads(s: Session, script: seq<Packet>) {
    |s.source| <= |script| && s.source == script[|script| - |s.source|..]
  }

  function Taken(s: Session, script: seq<Packet>): seq<Packet>
    requires Reads(s, script)
  {
    script[..|script| - |s.source|]
  }

  /** The packet that was taken from the source and neither committed nor skipped, if there is one. */
  function Owed(s: Session, script: seq<Packet>): Option<Packet> {
    if Reads(s, script) && MarksOf(s.store).Some? then FirstAbove(Taken(s, script), MarksOf(s.store).value.ingress)
    else None
  }

  lemma {:induction false} FirstAboveExtends(taken: seq<Packet>, p: Packet, mark: nat)
    ensures FirstAbove(taken + [p], mark) ==
            if FirstAbove(taken, mark).Some? then FirstAbove(taken, mark)
            else if p.seqNo > mark then Some(p) else None
  {
    if taken == [] {
      assert taken + [p] == [p] && [p][1..] == [];
    } else {
      assert (taken + [p])[1..] == taken[1..] + [p];
      FirstAboveExtends(taken[1..], p, mark);
    }
  }

  lemma {:induction false} NoneAboveLater(taken: seq<Packet>, mark: nat, later: nat)
    requires FirstAbove(taken, mark).None? && mark <= later
    ensures FirstAbove(taken, later).None?
  {
    if taken != [] {
      NoneAboveLater(taken[1..], mark, later);
    }
  }

  /** The first packet above the mark is the next entry of the uninterrupted log. */
  lemma {:induction false} FirstAboveIsNext(script: seq<Packet>, k: nat, mark: nat, tick: nat)
    requires k <= |script| && FirstAbove(script[..k], mark).Some?
    ensures var p := FirstAbove(script[..k], mark).value;
            Ideal(script, mark, tick) != []
            && Ideal(script, mark, tick)[0] == Entry(tick + 1, p.seqNo, SpikesFrom(p.stimuli, 0))
  {
    if script[0].seqNo <= mark {
      assert script[..k][1..] == script[1..][..k - 1];
      FirstAboveIsNext(script[1..], k - 1, mark, tick);
    }
  }

  lemma {:induction false} NoneAboveNothingNew(script: seq<Packet>, mark: nat, tick: nat)
    requires FirstAbove(script, mark).None?
    ensures Ideal(script, mark, tick) == []
  {
    if script != [] {
      NoneAboveNothingNew(script[1..], mark, tick);
    }
  }

  // ---------------------------------------------------------------- the invariant

  /** What is published, followed by what is still to come, is the uninterrupted log. */
  ghost predicate Faithful(w: World, script: seq<Packet>, base: Marks) {
    var all := Ideal(Window(script), base.ingress, base.tick);
    && SessionOk(w.h)
    && Reads(w.h, script) && |Taken(w.h, script)| <= Min(w.h.stepsTaken, MAX_STEPS)
    && Erase(w.log) <= all
    && (MarksOf(w.h.store).Some? ==>
          var m := MarksOf(w.h.store).value;
          Erase(w.log) + Ideal(Window(script), m.ingress, m.tick) == all)
  }

  /** Every harness is built with the whole script; faults, boots, ticks and stops are arbitrary. */
  predicate OnScript(script: seq<Packet>, op: Op) {
    match op
    case Rebuild(_, packets, _) => packets == script
    case Push(_) => false
    case PushFront(_) => false
    case _ => true
  }

  predicate SameWork(o: CommittedOutput, p: Packet) {
    o.ingressSeq == p.seqNo && o.spikeIds == SpikesFrom(p.stimuli, 0)
  }

  /** The session publishes something else than the packet it owes. */
  predicate PassesOver(w: World, op: Op, script: seq<Packet>) {
    && op.Tick? && Owed(w.h, script).Some?
    && var log := Apply(w, Tick).log;
       |w.log| < |log| && !SameWork(log[|log| - 1], Owed(w.h, script).value)
  }

  /** Somewhere in the run a session passes over the packet it owes. */
  predicate LosesWork(w: World, ops: seq<Op>, script: seq<Packet>)
    decreases |ops|
  {
    ops != [] && (PassesOver(w, ops[0], script) || LosesWork(Apply(w, ops[0]), ops[1..], script))
  }

  lemma EraseAppend(log: seq<CommittedOutput>, o: CommittedOutput)
    ensures Erase(log + [o]) == Erase(log) + [EntryOf(o)]
  {
    assert (log + [o])[..|log|] == log;
  }

  /** A packet taken, seen through the window. */
  lemma TakeOne(s: Session, s': Session, script: seq<Packet>)
    requires Reads(s, script) && s.source != [] && s'.source == s.source[1..]
    requires |Taken(s, script)| < MAX_STEPS
    ensures Reads(s', script) && Taken(s', script) == Taken(s, script) + [s.source[0]]
    ensures |Taken(s', script)| <= |Window(script)| && Window(script)[..|Taken(s', script)|] == Taken(s', script)
  {
  }

  lemma SplitLog(done: seq<Entry>, e: Entry, rest: seq<Entry>, all: seq<Entry>)
    requires done + ([e] + rest) == all
    ensures done + [e] + rest == all && done + [e] <= all
  {
    assert done + [e] + rest == done + ([e] + rest);
  }

  lemma WrongEntry(done: seq<Entry>, e: Entry, next: seq<Entry>, all: seq<Entry>)
    requires done + next <= all && next != [] && next[0] != e
    ensures !(done + [e] <= all)
  {
    assert (done + next)[|done|] == next[0];
    assert (done + [e])[|done|] == e;
  }

  /** The packet the log needs next when a session takes its next packet and it is new. */
  function Due(s: Session, script: seq<Packet>): Packet
    requires s.source != []
  {
    if Owed(s, script).Some? then Owed(s, script).value else s.source[0]
  }

  lemma DueIsNext(w: World, s': Session, script: seq<Packet>, base: Marks)
    requires Faithful(w, script, base) && w.h.live && IsNew(w.h) && w.h.stepsTaken < MAX_STEPS
    requires s'.source == w.h.source[1..]
    ensures var d, p := w.h.durable, Due(w.h, script);
            && Erase(w.log) + Ideal(Window(script), d.committedIngressSeq, d.committedTickSeq)
               == Ideal(Window(script), base.ingress, base.tick)
            && Ideal(Window(script), d.committedIngressSeq, d.committedTickSeq) ==
               [Entry(d.committedTickSeq + 1, p.seqNo, SpikesFrom(p.stimuli, 0))]
               + Ideal(Window(script), p.seqNo, d.committedTickSeq + 1)
  {
    var d := w.h.durable;
    assert MarksOf(w.h.store) == Some(Marks(d.lastSessionId, d.committedTickSeq, d.committedIngressSeq));
    TakeOne(w.h, s', script);
    FirstAboveExtends(Taken(w.h, script), w.h.source[0], d.committedIngressSeq);
    FirstAboveIsNext(Window(script), |Taken(s', script)|, d.committedIngressSeq, d.committedTickSeq);
    ReplayOffersTheRest(Window(script), d.committedIngressSeq, d.committedTickSeq);
  }

  /** The session `s'` is what committing and publishing the next packet of `w` leaves behind. */
  ghost predicate CommitsNext(w: World, s': Session) {
    && w.h.live && IsNew(w.h) && w.h.stepsTaken < MAX_STEPS && s'.stepsTaken == w.h.stepsTaken + 1
    && SessionOk(s') && s'.source == w.h.source[1..] && Commits(w.h, s', w.h.source[0], TickTime(w.h))
  }

  lemma RightCommit(w: World, s': Session, o: CommittedOutput, script: seq<Packet>, base: Marks)
    requires Faithful(w, script, base) && CommitsNext(w, s') && o == OutputFor(w.h, w.h.source[0], TickTime(w.h))
    requires SameWork(o, Due(w.h, script))
    ensures Faithful(w.(h := s', log := w.log + [o]), script, base)
  {
    var p := Due(w.h, script);
    EraseAppend(w.log, o);
    DueIsNext(w, s', script, base);
    MarksAfterCommit(w.h, s', w.h.source[0], TickTime(w.h));
    SplitLog(Erase(w.log), EntryOf(o), Ideal(Window(script), p.seqNo, w.h.durable.committedTickSeq + 1),
             Ideal(Window(script), base.ingress, base.tick));
    TakeOne(w.h, s', script);
  }

  lemma WrongCommit(w: World, s': Session, o: CommittedOutput, script: seq<Packet>, base: Marks)
    requires Faithful(w, script, base) && CommitsNext(w, s') && o == OutputFor(w.h, w.h.source[0], TickTime(w.h))
    requires !SameWork(o, Due(w.h, script))
    ensures !(Erase(w.log + [o]) <= Ideal(script, base.ingress, base.tick))
  {
    EraseAppend(w.log, o);
    DueIsNext(w, s', script, base);
    WindowIsPrefix(script, |Window(script)|, base.ingress, base.tick);
    WrongEntry(Erase(w.log), EntryOf(o),
               Ideal(Window(script), w.h.durable.committedIngressSeq, w.h.durable.committedTickSeq),
               Ideal(script, base.ingress, base.tick));
  }

  lemma KeepStep(w: World, s': Session, script: seq<Packet>, base: Marks)
    requires Faithful(w, script, base) && SessionOk(s') && Keeps(w.h, s') && s'.stepsTaken >= w.h.stepsTaken
    requires s'.source == w.h.source
             || (w.h.stepsTaken < MAX_STEPS && s'.stepsTaken == w.h.stepsTaken + 1 && s'.source == Rest(w.h.source))
    ensures Faithful(w.(h := s'), script, base)
  {
    if w.h.stepsTaken < MAX_STEPS && w.h.source != [] && s'.source == w.h.source[1..] {
      TakeOne(w.h, s', script);
    }
  }

  /** A tick is faithful unless it passes over a packet, and then the log is wrong. */
  lemma TickStepFaithful(w: World, script: seq<Packet>, base: Marks)
    requires Faithful(w, script, base)
    ensures if PassesOver(w, Tick, script)
            then !(Erase(Apply(w, Tick).log) <= Ideal(script, base.ingress, base.tick))
            else Faithful(Apply(w, Tick), script, base)
  {
    hide TickStep;
    var s' := TickStep(w.h).s;
    TickFacts(w.h);
    if w.h.live {
      ReplyTells(w.h);
    }
    if Keeps(w.h, s') {
      assert Apply(w, Tick).log == w.log;
      KeepStep(w, s', script, base);
    } else {
      var o := OutputFor(w.h, w.h.source[0], TickTime(w.h));
      assert Appended(w.h.published, s'.published) == [o];
      if SameWork(o, Due(w.h, script)) {
        RightCommit(w, s', o, script, base);
      } else {
        WrongCommit(w, s', o, script, base);
      }
    }
  }

  lemma StepFaithful(w: World, op: Op, script: seq<Packet>, base: Marks)
    requires Faithful(w, script, base) && OnScript(script, op) && !op.Tick?
    ensures Faithful(Apply(w, op), script, base)
  {
    hide BootStep;
    if op.Boot? {
      BootFacts(w.h);
    } else {
      QuietFacts(w, op);
      if op.Stop? {
        StopFacts(w.h);
      }
    }
  }

  lemma {:induction false} EraseGrows(a: seq<CommittedOutput>, b: seq<CommittedOutput>)
    requires a <= b
    ensures Erase(a) <= Erase(b)
    decreases |b|
  {
    if |a| < |b| {
      EraseGrows(a, b[..|b| - 1]);
    } else {
      assert a == b;
    }
  }

  lemma {:induction false} LogGrows(w: World, ops: seq<Op>)
    ensures w.log <= Exec(w, ops).log
    decreases |ops|
  {
    if ops != [] {
      LogGrows(Apply(w, ops[0]), ops[1..]);
    }
  }

  /** A log that went wrong stays wrong. */
  lemma WrongForGood(w: World, ops: seq<Op>, all: seq<Entry>)
    requires !(Erase(w.log) <= all)
    ensures !(Erase(Exec(w, ops).log) <= all)
  {
    LogGrows(w, ops);
    EraseGrows(w.log, Exec(w, ops).log);
  }

  /** A run is faithful unless it passes over a packet, and then its log is wrong for good. */
  lemma {:induction false} RunFaithful(w: World, ops: seq<Op>, script: seq<Packet>, base: Marks)
    requires Faithful(w, script, base) && forall op :: op in ops ==> OnScript(script, op)
    ensures if LosesWork(w, ops, script) then !(Erase(Exec(w, ops).log) <= Ideal(script, base.ingress, base.tick))
            else Faithful(Exec(w, ops), script, base)
    decreases |ops|
  {
    if ops != [] {
      if ops[0].Tick? {
        TickStepFaithful(w, script, base);
      } else {
        StepFaithful(w, ops[0], script, base);
      }
      if PassesOver(w, ops[0], script) {
        WrongForGood(Apply(w, ops[0]), ops[1..], Ideal(script, base.ingress, base.tick));
      } else {
        RunFaithful(Apply(w, ops[0]), ops[1..], script, base);
      }
    }
  }

  lemma StartIsFaithful(seed: u64, store: Blob, script: seq<Packet>, fault: Option<FaultPoint>)
    requires MarksOf(store).Some?
    ensures Faithful(Start(seed, store, script, fault), script, MarksOf(store).value)
  {
    assert Erase([]) + Ideal(Window(script), MarksOf(store).value.ingress, MarksOf(store).value.tick)
        == Ideal(Window(script), MarksOf(store).value.ingress, MarksOf(store).value.tick);
  }

  /**
   Crash transparency, exactly. For every script, in any order, any number of sessions built on the
   store the last one left, booted any number of times, with faults armed at any points and at any
   times: what was published is a prefix of the uninterrupted log if and only if no session passed
   over a packet it owed, and then of the part of it that lies in the first 64 packets.
   */
  lemma CrashTransparent(seed: u64, store: Blob, script: seq<Packet>, fault: Option<FaultPoint>, ops: seq<Op>)
    requires MarksOf(store).Some? && forall op :: op in ops ==> OnScript(script, op)
    ensures var base, w := MarksOf(store).value, Start(seed, store, script, fault);
            var log := Erase(Exec(w, ops).log);
            && (log <= Ideal(script, base.ingress, base.tick) <==> !LosesWork(w, ops, script))
            && (!LosesWork(w, ops, script) ==> log <= Ideal(Window(script), base.ingress, base.tick))
  {
    var base := MarksOf(store).value;
    StartIsFaithful(seed, store, script, fault);
    RunFaithful(Start(seed, store, script, fault), ops, script, base);
    WindowIsPrefix(script, |Window(script)|, base.ingress, base.tick);
  }

  // ---------------------------------------------------------------- what the reply tells

  /**
   The reply of a tick tells its caller whether the session now owes a packet: it does after an error
   between taking a new packet and committing it, and after no other reply.
   */
  lemma ReplyTellsOwed(s: Session, script: seq<Packet>)
    requires SessionOk(s) && s.live && Reads(s, script) && |Taken(s, script)| <= Min(s.stepsTaken, MAX_STEPS)
    requires Owed(s, script).None?
    ensures var r := TickStep(s);
            Owed(r.s, script).Some? <==>
              r.Err? && (Unfinished(r.error) || (r.error == Injected(After(Ingress)) && IsNew(s)))
  {
    hide TickStep;
    var r := TickStep(s);
    var m := s.durable.committedIngressSeq;
    TickFacts(s);
    ReplyTells(s);
    assert MarksOf(s.store) == Some(Marks(s.durable.lastSessionId, s.durable.committedTickSeq, m));
    if !TookNothing(r) && s.source != [] {
      TakeOne(s, r.s, script);
      FirstAboveExtends(Taken(s, script), s.source[0], m);
      if Commits(s, r.s, s.source[0], TickTime(s)) {
        MarksAfterCommit(s, r.s, s.source[0], TickTime(s));
        NoneAboveLater(Taken(s, script), m, s.source[0].seqNo);
        FirstAboveExtends(Taken(s, script), s.source[0], s.source[0].seqNo);
      }
    }
  }

  lemma LiveOwesNothing(s: Session, r: Run<TickResult>, script: seq<Packet>)
    requires SessionOk(s) && s.live && Reads(s, script) && |Taken(s, script)| <= Min(s.stepsTaken, MAX_STEPS)
    requires Owed(s, script).None? && r == TickStep(s)
    ensures r.s.live ==> Owed(r.s, script).None?
  {
    hide TickStep;
    ReplyTells(s);
    ReplyTellsOwed(s, script);
  }

  // ---------------------------------------------------------------- the bound is reached

  function Ticks(n: nat): seq<Op> {
    if n == 0 then [] else [Tick] + Ticks(n - 1)
  }

  lemma BootSucceeds(s: Session)
    requires s.armed.None? && MarksOf(s.store).Some? && s.skippedReplays <= Min(s.stepsTaken, MAX_STEPS)
    requires MarksOf(s.store).value.session < U64_MAX && MarksOf(s.store).value.tick < U64_MAX
    ensures BootStep(s).Ok? && BootStep(s).s.armed.None?
  {
  }

  /** With nothing armed and room for one more number, a tick within the budget succeeds. */
  lemma TickSucceeds(s: Session)
    requires SessionOk(s) && s.live && s.armed.None? && s.stepsTaken < MAX_STEPS
    requires IsNew(s) ==> s.durable.committedTickSeq < U64_MAX
    ensures TickStep(s).Ok? && TickStep(s).s.live && TickStep(s).s.armed.None?
  {
    if IsNew(s) {
      assert Inflight(s, s.source[0]).Validate();
      assert Committing(s, s.source[0]).Validate();
    }
  }

  /** A live session with nothing armed that took a packet in every step, and its ticks in step with the log. */
  ghost predicate Ready(w: World, script: seq<Packet>, base: Marks) {
    && w.h.live && w.h.armed.None? && Reads(w.h, script) && Owed(w.h, script).None?
    && |Taken(w.h, script)| == Min(w.h.stepsTaken, |Window(script)|)
    && w.h.durable.committedTickSeq == base.tick + |w.log|
  }

  lemma ExecConcat(w: World, a: seq<Op>, b: seq<Op>)
    ensures Exec(w, a + b) == Exec(Exec(w, a), b)
    decreases |a|
  {
    if a == [] {
      assert a + b == b;
    } else {
      assert (a + b)[1..] == a[1..] + b;
      ExecConcat(Apply(w, a[0]), a[1..], b);
    }
  }

  lemma ExecTick(w: World, n: nat)
    requires n > 0
    ensures Exec(w, Ticks(n)) == Exec(Apply(w, Tick), Ticks(n - 1))
  {
    assert Ticks(n)[0] == Tick && Ticks(n)[1..] == Ticks(n - 1);
  }

  /** The session is ready, and `n` steps short of the end of the window. */
  ghost predicate StepsLeft(w: World, script: seq<Packet>, base: Marks, n: nat) {
    && Faithful(w, script, base) && Ready(w, script, base) && w.h.stepsTaken + n == |Window(script)|
    && base.tick + |Ideal(Window(script), base.ingress, base.tick)| <= U64_MAX
  }

  lemma OneStepLess(w: World, script: seq<Packet>, base: Marks, n: nat) returns (w': World)
    requires StepsLeft(w, script, base, n) && n > 0
    ensures StepsLeft(w', script, base, n - 1) && Exec(w, Ticks(n)) == Exec(w', Ticks(n - 1))
  {
    w' := Apply(w, Tick);
    ExecTick(w, n);
    ReadyAfterTick(w, script, base);
  }

  lemma ReadyAfterTick(w: World, script: seq<Packet>, base: Marks)
    requires Faithful(w, script, base) && Ready(w, script, base) && w.h.stepsTaken < MAX_STEPS
    requires base.tick + |Ideal(Window(script), base.ingress, base.tick)| <= U64_MAX
    ensures var w' := Apply(w, Tick);
            Faithful(w', script, base) && Ready(w', script, base) && w'.h.stepsTaken == w.h.stepsTaken + 1
  {
    RoomForNext(w, script, base);
    TickSucceeds(w.h);
    TickFacts(w.h);
    ReplyTells(w.h);
    TickStepFaithful(w, script, base);
    LiveOwesNothing(w.h, TickStep(w.h), script);
    TickKeepsPace(w, Apply(w, Tick), script, base);
  }

  lemma TickKeepsPace(w: World, w': World, script: seq<Packet>, base: Marks)
    requires Faithful(w, script, base) && Ready(w, script, base) && w.h.stepsTaken < MAX_STEPS
    requires w'.h.stepsTaken == w.h.stepsTaken + 1 && w'.h.source == Rest(w.h.source) && SessionOk(w'.h) && w'.h.live
    requires w'.log == w.log + Appended(w.h.published, w'.h.published)
    requires if IsNew(w.h) then Commits(w.h, w'.h, w.h.source[0], TickTime(w.h)) else Keeps(w.h, w'.h)
    ensures Reads(w'.h, script) && |Taken(w'.h, script)| == Min(w'.h.stepsTaken, |Window(script)|)
    ensures w'.h.durable.committedTickSeq == base.tick + |w'.log|
  {
    assert MarksOf(w'.h.store).value.tick == w'.h.durable.committedTickSeq;
    if w.h.source != [] {
      TakeOne(w.h, w'.h, script);
    }
  }

  lemma RoomForNext(w: World, script: seq<Packet>, base: Marks)
    requires Faithful(w, script, base) && Ready(w, script, base) && w.h.stepsTaken < MAX_STEPS
    requires base.tick + |Ideal(Window(script), base.ingress, base.tick)| <= U64_MAX
    ensures IsNew(w.h) ==> w.h.durable.committedTickSeq < U64_MAX
  {
    if IsNew(w.h) {
      DueIsNext(w, w.h.(source := w.h.source[1..]), script, base);
      EraseLength(w.log);
    }
  }

  /** The last of the session's steps leaves exactly what was promised. */
  lemma LastStep(w: World, script: seq<Packet>, base: Marks)
    requires StepsLeft(w, script, base, 0)
    ensures Erase(Exec(w, Ticks(0)).log) == Ideal(Window(script), base.ingress, base.tick)
  {
    NothingLeft(w, script, base);
  }

  /** A ready session publishes all that is left within its step budget. */
  lemma {:induction false} TicksComplete(w: World, script: seq<Packet>, base: Marks, n: nat)
    requires StepsLeft(w, script, base, n)
    ensures Erase(Exec(w, Ticks(n)).log) == Ideal(Window(script), base.ingress, base.tick)
    decreases n
  {
    hide Apply;
    if n == 0 {
      LastStep(w, script, base);
    } else {
      var w1 := OneStepLess(w, script, base, n);
      TicksComplete(w1, script, base, n - 1);
    }
  }

  lemma NothingLeft(w: World, script: seq<Packet>, base: Marks)
    requires Faithful(w, script, base) && Ready(w, script, base) && w.h.stepsTaken == |Window(script)|
    ensures Erase(w.log) == Ideal(Window(script), base.ingress, base.tick)
  {
    var d := w.h.durable;
    assert MarksOf(w.h.store) == Some(Marks(d.lastSessionId, d.committedTickSeq, d.committedIngressSeq));
    assert Taken(w.h, script) == Window(script);
    NoneAboveNothingNew(Window(script), d.committedIngressSeq, d.committedTickSeq);
  }

  lemma EraseLength(log: seq<CommittedOutput>)
    ensures |Erase(log)| == |log|
  {
  }

  /** The store loads, its session id can advance, and ticks can be numbered up to `lastTick`. */
  predicate HasRoom(store: Blob, lastTick: nat) {
    MarksOf(store).Some? && MarksOf(store).value.session < U64_MAX && lastTick < U64_MAX
  }

  /**
   The bound is tight. After any run that passed over nothing, with any crashes in it, one more session
   that nothing disturbs brings the log to exactly what an uninterrupted harness publishes from the
   first 64 packets, provided the store still loads and its counters have room.
   */
  lemma OneCleanSessionCompletes(seed: u64, store: Blob, script: seq<Packet>, fault: Option<FaultPoint>,
                                 ops: seq<Op>, again: u64)
    requires MarksOf(store).Some? && forall op :: op in ops ==> OnScript(script, op)
    requires !LosesWork(Start(seed, store, script, fault), ops, script)
    ensures var base := MarksOf(store).value;
            var all := Ideal(Window(script), base.ingress, base.tick);
            var w := Exec(Start(seed, store, script, fault), ops);
            HasRoom(w.h.store, base.tick + |all|) ==>
              Erase(Exec(w, [Rebuild(again, script, None), Boot] + Ticks(|Window(script)|)).log) == all
  {
    hide Apply;
    var base := MarksOf(store).value;
    var w := Exec(Start(seed, store, script, fault), ops);
    StartIsFaithful(seed, store, script, fault);
    RunFaithful(Start(seed, store, script, fault), ops, script, base);
    RunKeepsWorld(Start(seed, store, script, fault), ops, base);
    EraseLength(w.log);
    if HasRoom(w.h.store, base.tick + |Ideal(Window(script), base.ingress, base.tick)|) {
      var w2 := CleanBoot(w, script, base, again);
      TicksComplete(w2, script, base, |Window(script)|);
      ExecConcat(w, [Rebuild(again, script, None), Boot], Ticks(|Window(script)|));
    }
  }

  lemma CleanBoot(w: World, script: seq<Packet>, base: Marks, seed: u64) returns (w2: World)
    requires Faithful(w, script, base) && WorldOk(w, base) && MarksOf(w.h.store).Some?
    requires MarksOf(w.h.store).value.session < U64_MAX && base.tick + |w.log| < U64_MAX
    ensures Faithful(w2, script, base) && Ready(w2, script, base) && w2.h.stepsTaken == 0
    ensures w2 == Exec(w, [Rebuild(seed, script, None), Boot])
  {
    var w1 := Apply(w, Rebuild(seed, script, None));
    w2 := Apply(w1, Boot);
    StepFaithful(w, Rebuild(seed, script, None), script, base);
    BootSucceeds(w1.h);
    BootFacts(w1.h);
    StepFaithful(w1, Boot, script, base);
    assert MarksOf(w2.h.store) == Some(Marks(w2.h.durable.lastSessionId, w2.h.durable.committedTickSeq,
                                             w2.h.durable.committedIngressSeq));
    assert Exec(w1, [Boot]) == Exec(w2, []);
    assert [Rebuild(seed, script, None), Boot][1..] == [Boot];
  }
}
