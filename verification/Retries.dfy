/**
 How often interrupted work is retried: by every later session, until one of them commits it, and then
 by none.
 */
module Retries {
  import opened Prelude
  import opened Durable
  import opened Runtime
  import opened Protocol
  import opened SessionFacts
  import opened Restarts
  import opened Transparency
  import opened FaultOracle

  /** The faults that stop a tick between the inflight marker and the commit. */
  predicate Interrupts(point: FaultPoint) {
    (IsExecuteFault(point) && point != Before(TickExecute)) || (IsPublishFault(point) && point != After(MetricPublish))
  }

  /** One session that is built on what the last one left, booted, and ticks once. */
  function OneSession(seed: u64, packets: seq<Packet>, fault: Option<FaultPoint>): seq<Op> {
    [Rebuild(seed, packets, fault), Boot, Tick]
  }

  /** One such session for every point. */
  function Crashes(seed: u64, packets: seq<Packet>, points: seq<FaultPoint>): seq<Op> {
    if points == [] then []
    else Crashes(seed, packets, points[..|points| - 1]) + OneSession(seed, packets, Some(points[|points| - 1]))
  }

  /** The store loads with room for `n` more sessions and a tick, and `p` is new to it. */
  predicate Retries(store: Blob, p: Packet, n: nat) {
    && MarksOf(store).Some?
    && var m := MarksOf(store).value;
       p.seqNo > m.ingress && m.tick < U64_MAX && m.session + n <= U64_MAX
  }

  lemma BootRuns(s: Session)
    requires s.armed.None? || !IsBootFault(s.armed.value)
    requires MarksOf(s.store).Some? && s.skippedReplays <= Min(s.stepsTaken, MAX_STEPS)
    requires MarksOf(s.store).value.session < U64_MAX && MarksOf(s.store).value.tick < U64_MAX
    ensures BootStep(s).Ok? && BootStep(s).s.armed == s.armed
  {
  }

  /** A new session on the store, one boot later. */
  lemma Rebooted(w: World, seed: u64, packets: seq<Packet>, fault: Option<FaultPoint>) returns (w1: World)
    requires packets != [] && Retries(w.h.store, packets[0], 1)
    requires fault.None? || !IsBootFault(fault.value)
    ensures w1.log == w.log && Exec(w, OneSession(seed, packets, fault)) == Apply(w1, Tick)
    ensures SessionOk(w1.h) && w1.h.live && w1.h.armed == fault && w1.h.source == packets && w1.h.stepsTaken == 0
    ensures var m := MarksOf(w.h.store).value;
            && w1.h.sessionId == w1.h.durable.lastSessionId == m.session + 1
            && w1.h.durable.committedTickSeq == m.tick && w1.h.durable.committedIngressSeq == m.ingress
  {
    var w0 := Apply(w, Rebuild(seed, packets, fault));
    w1 := Apply(w0, Boot);
    BootRuns(w0.h);
    BootFacts(w0.h);
    var d := w1.h.durable;
    assert MarksOf(w1.h.store) == Some(Marks(d.lastSessionId, d.committedTickSeq, d.committedIngressSeq));
    ThreeCalls(w, seed, packets, fault);
  }

  lemma ThreeCalls(w: World, seed: u64, packets: seq<Packet>, fault: Option<FaultPoint>)
    ensures Exec(w, OneSession(seed, packets, fault))
         == Apply(Apply(Apply(w, Rebuild(seed, packets, fault)), Boot), Tick)
  {
    var ops := OneSession(seed, packets, fault);
    var w0 := Apply(w, Rebuild(seed, packets, fault));
    assert ops[1..] == [Boot, Tick] && [Boot, Tick][1..] == [Tick] && [Tick][1..] == [];
    assert Exec(w0, [Boot, Tick]) == Exec(Apply(w0, Boot), [Tick]);
  }

  /** The store names `p` as interrupted by session `session`. */
  predicate NamesInflight(store: Blob, m: Marks, p: Packet) {
    && Load(store).Found?
    && var d := Load(store).state;
       && d.inflight.Some? && d.inflight.value.sessionId == m.session
       && d.inflight.value.tickSeq == m.tick + 1 && d.inflight.value.ingressSeq == p.seqNo
  }

  lemma OneCrash(w: World, seed: u64, p: Packet, rest: seq<Packet>, point: FaultPoint)
    requires Retries(w.h.store, p, 1) && Interrupts(point)
    ensures var w', m := Exec(w, OneSession(seed, [p] + rest, Some(point))), MarksOf(w.h.store).value;
            var m' := m.(session := m.session + 1);
            w'.log == w.log && MarksOf(w'.h.store) == Some(m') && NamesInflight(w'.h.store, m', p)
  {
    var w1 := Rebooted(w, seed, [p] + rest, Some(point));
    Interrupted(w1, p, point);
  }

  lemma Interrupted(w1: World, p: Packet, point: FaultPoint)
    requires SessionOk(w1.h) && w1.h.stepsTaken == 0 && w1.h.source != [] && w1.h.source[0] == p
    requires AboutTo(w1.h, p, point) && Interrupts(point)
    ensures var w', d := Apply(w1, Tick), w1.h.durable;
            var m := Marks(d.lastSessionId, d.committedTickSeq, d.committedIngressSeq);
            w'.log == w1.log && MarksOf(w'.h.store) == Some(m) && NamesInflight(w'.h.store, m, p)
  {
    hide TickStep;
    TickStopsAt(w1.h, point);
    MarkerStays(w1.h, TickStep(w1.h).s, p);
    assert Appended(w1.h.published, TickStep(w1.h).s.published) == [];
  }

  lemma MarkerStays(s: Session, s': Session, p: Packet)
    requires SessionOk(s) && s.live && p.seqNo > s.durable.committedIngressSeq && s.durable.committedTickSeq < U64_MAX
    requires s'.store == Encoded(Inflight(s, p))
    ensures var d := s.durable;
            var m := Marks(d.lastSessionId, d.committedTickSeq, d.committedIngressSeq);
            MarksOf(s'.store) == Some(m) && NamesInflight(s'.store, m, p)
  {
    assert Inflight(s, p).Validate();
  }

  lemma CrashOnceMore(w: World, seed: u64, packets: seq<Packet>, points: seq<FaultPoint>) returns (w1: World)
    requires points != []
    ensures w1 == Exec(w, Crashes(seed, packets, points[..|points| - 1]))
    ensures Exec(w, Crashes(seed, packets, points))
         == Exec(w1, OneSession(seed, packets, Some(points[|points| - 1])))
  {
    w1 := Exec(w, Crashes(seed, packets, points[..|points| - 1]));
    ExecConcat(w, Crashes(seed, packets, points[..|points| - 1]),
               OneSession(seed, packets, Some(points[|points| - 1])));
  }

  /**
   However many sessions are interrupted on `p`, each at any of these points, the next one is offered it
   again: nothing was published, the marks are those of the start but for the session, and the store
   names `p` as the interrupted work of the last session.
   */
  lemma {:induction false} RetriedWithoutLimit(w: World, seed: u64, p: Packet, rest: seq<Packet>,
                                               points: seq<FaultPoint>)
    requires Retries(w.h.store, p, |points|) && forall point :: point in points ==> Interrupts(point)
    ensures var w', m := Exec(w, Crashes(seed, [p] + rest, points)), MarksOf(w.h.store).value;
            var m' := m.(session := m.session + |points|);
            && w'.log == w.log && MarksOf(w'.h.store) == Some(m')
            && (points != [] ==> NamesInflight(w'.h.store, m', p))
    decreases |points|
  {
    hide Apply;
    if points != [] {
      var front, last := points[..|points| - 1], points[|points| - 1];
      RetriedWithoutLimit(w, seed, p, rest, front);
      var w1 := CrashOnceMore(w, seed, [p] + rest, points);
      OneCrash(w1, seed, p, rest, last);
    }
  }

  lemma CleanSession(w: World, seed: u64, p: Packet, rest: seq<Packet>)
    requires Retries(w.h.store, p, 1)
    ensures var w', m := Exec(w, OneSession(seed, [p] + rest, None)), MarksOf(w.h.store).value;
            && |w'.log| == |w.log| + 1 && w'.log[..|w.log|] == w.log
            && EntryOf(w'.log[|w.log|]) == Entry(m.tick + 1, p.seqNo, SpikesFrom(p.stimuli, 0))
            && w'.log[|w.log|].sessionId == m.session + 1
  {
    hide TickStep;
    var w1 := Rebooted(w, seed, [p] + rest, None);
    TickSucceeds(w1.h);
    ReplyTells(w1.h);
    assert Appended(w1.h.published, TickStep(w1.h).s.published)
        == [OutputFor(w1.h, p, TickTime(w1.h))];
  }

  /**
   The first session that nothing interrupts publishes `p`, whatever number of sessions was
   interrupted on it before, and from then on no run publishes it again.
   */
  lemma RetriedUntilCommitted(w: World, base: Marks, seed: u64, p: Packet, rest: seq<Packet>,
                              points: seq<FaultPoint>, later: seq<Op>)
    requires WorldOk(w, base) && Retries(w.h.store, p, |points| + 1)
    requires forall point :: point in points ==> Interrupts(point)
    ensures var w1 := Exec(w, Crashes(seed, [p] + rest, points));
            var w2 := Exec(w1, OneSession(seed, [p] + rest, None));
            var log := Exec(w2, later).log;
            && |w2.log| == |w.log| + 1 && w2.log <= log
            && EntryOf(log[|w.log|])
               == Entry(MarksOf(w.h.store).value.tick + 1, p.seqNo, SpikesFrom(p.stimuli, 0))
            && forall i :: 0 <= i < |log| && i != |w.log| ==> log[i].ingressSeq != p.seqNo
  {
    var w1 := Exec(w, Crashes(seed, [p] + rest, points));
    RetriedWithoutLimit(w, seed, p, rest, points);
    CleanSession(w1, seed, p, rest);
    var w2 := Exec(w1, OneSession(seed, [p] + rest, None));
    LogGrows(w2, later);
    RunKeepsWorld(w, Crashes(seed, [p] + rest, points), base);
    RunKeepsWorld(w1, OneSession(seed, [p] + rest, None), base);
    RunKeepsWorld(w2, later, base);
  }
}
