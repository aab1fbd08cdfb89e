/**
 Runs of the harness across crashes and restarts. A world is the harness now running together with
 the log of everything published so far, over all sessions; a restart keeps nothing but the store.
 */
module Restarts {
  import opened Prelude
  import opened Durable
  import opened Runtime
  import opened Protocol
  import opened SessionFacts

  /** What a caller can do. Ticks and shutdowns that fail, and boots repeated on one harness, are included. */
  datatype Op =
    | Boot
    | Tick
    | Stop
    | Arm(point: FaultPoint)
    | Push(packet: Packet)
    | PushFront(packet: Packet)
    | Rebuild(seed: u64, packets: seq<Packet>, fault: Option<FaultPoint>)

  datatype World = World(
    h: Session,
    log: seq<CommittedOutput>,
    boots: seq<u64>)

  function Start(seed: u64, store: Blob, packets: seq<Packet>, fault: Option<FaultPoint>): World {
    World(Build(seed, store, packets, fault), [], [])
  }

  function Appended<T>(before: seq<T>, after: seq<T>): seq<T> {
    if |before| <= |after| then after[|before|..] else []
  }

  function Apply(w: World, op: Op): World {
    match op
    case Boot =>
      var r := BootStep(w.h);
      w.(h := r.s, boots := if r.Ok? then w.boots + [r.s.sessionId] else w.boots)
    case Tick =>
      var s := TickStep(w.h).s;
      w.(h := s, log := w.log + Appended(w.h.published, s.published))
    case Stop => w.(h := ShutdownStep(w.h).s)
    case Arm(point) => w.(h := w.h.(armed := Some(point)))
    case Push(packet) => w.(h := w.h.(source := w.h.source + [packet]))
    case PushFront(packet) => w.(h := w.h.(source := [packet] + w.h.source))
    case Rebuild(seed, packets, fault) => w.(h := Build(seed, w.h.store, packets, fault))
  }

  function Exec(w: World, ops: seq<Op>): World
    decreases |ops|
  {
    if ops == [] then w else Exec(Apply(w, ops[0]), ops[1..])
  }

  // ---------------------------------------------------------------- every run

  function LastIngress(log: seq<CommittedOutput>, from: nat): nat {
    if log == [] then from else log[|log| - 1].ingressSeq
  }

  function LastBoot(boots: seq<u64>, from: nat): nat {
    if boots == [] then from else boots[|boots| - 1]
  }

  /** Consecutive tick numbers, strictly increasing ingress numbers, sessions in order of their boots. */
  ghost predicate LogOk(log: seq<CommittedOutput>, boots: seq<u64>, base: Marks) {
    && (forall i :: 0 <= i < |log| ==> log[i].tickSeq == base.tick + 1 + i)
    && (forall i :: 0 <= i < |log| ==> log[i].ingressSeq > base.ingress)
    && (forall i, j :: 0 <= i < j < |log| ==> log[i].ingressSeq < log[j].ingressSeq)
    && (forall i, j :: 0 <= i < j < |log| ==> log[i].sessionId <= log[j].sessionId)
    && (forall i :: 0 <= i < |log| ==> log[i].sessionId in boots && log[i].sessionId <= LastBoot(boots, base.session))
  }

  ghost predicate BootsOk(boots: seq<u64>, base: Marks) {
    && (forall i :: 0 <= i < |boots| ==> boots[i] > base.session)
    && (forall i, j :: 0 <= i < j < |boots| ==> boots[i] < boots[j])
  }

  ghost predicate WorldOk(w: World, base: Marks) {
    && SessionOk(w.h)
    && LogOk(w.log, w.boots, base)
    && BootsOk(w.boots, base)
    && (w.h.live ==> w.boots != [] && w.h.sessionId == LastBoot(w.boots, base.session))
    && (MarksOf(w.h.store).Some? ==>
          var m := MarksOf(w.h.store).value;
          && m.tick == base.tick + |w.log|
          && m.ingress == LastIngress(w.log, base.ingress)
          && m.session >= LastBoot(w.boots, base.session))
  }

  lemma AppendBoot(log: seq<CommittedOutput>, boots: seq<u64>, base: Marks, id: u64)
    requires LogOk(log, boots, base) && BootsOk(boots, base) && id > LastBoot(boots, base.session)
    ensures LogOk(log, boots + [id], base) && BootsOk(boots + [id], base)
  {
  }

  lemma AppendOutput(log: seq<CommittedOutput>, boots: seq<u64>, base: Marks, o: CommittedOutput)
    requires LogOk(log, boots, base) && boots != []
    requires o.sessionId == LastBoot(boots, base.session) && o.tickSeq == base.tick + |log| + 1
    requires o.ingressSeq > LastIngress(log, base.ingress)
    ensures LogOk(log + [o], boots, base)
  {
  }

  lemma WorldAfterBoot(w: World, s': Session, base: Marks)
    requires WorldOk(w, base) && SessionOk(s') && BootKeeps(w.h, s')
    ensures var boots := if s'.live then w.boots + [s'.sessionId] else w.boots;
            WorldOk(w.(h := s', boots := boots), base)
  {
    if s'.live {
      AppendBoot(w.log, w.boots, base, s'.sessionId);
    }
  }

  lemma WorldAfterTick(w: World, s': Session, base: Marks)
    requires WorldOk(w, base) && SessionOk(s')
    requires TickDoes(w.h, s')
    requires !w.h.live ==> s' == w.h
    requires s'.live ==> s'.sessionId == w.h.sessionId
    ensures WorldOk(w.(h := s', log := w.log + Appended(w.h.published, s'.published)), base)
  {
    hide SpikesFrom;
    if Keeps(w.h, s') {
      assert w.log + Appended(w.h.published, s'.published) == w.log;
    } else {
      var o := OutputFor(w.h, w.h.source[0], TickTime(w.h));
      assert Appended(w.h.published, s'.published) == [o];
      AppendOutput(w.log, w.boots, base, o);
    }
  }

  /** The remaining calls touch neither the store nor the logs. */
  lemma QuietFacts(w: World, op: Op)
    requires SessionOk(w.h) && !op.Boot? && !op.Tick?
    ensures var w' := Apply(w, op);
            && SessionOk(w'.h) && w'.h.store == w.h.store && w'.log == w.log && w'.boots == w.boots
            && (w'.h.live ==> w.h.live && w'.h.sessionId == w.h.sessionId)
  {
    if op.Stop? {
      StopFacts(w.h);
    }
  }

  lemma StepKeepsWorld(w: World, op: Op, base: Marks)
    requires WorldOk(w, base)
    ensures WorldOk(Apply(w, op), base)
  {
    if op.Boot? {
      BootFacts(w.h);
      WorldAfterBoot(w, BootStep(w.h).s, base);
    } else if op.Tick? {
      TickFacts(w.h);
      WorldAfterTick(w, TickStep(w.h).s, base);
    } else {
      QuietFacts(w, op);
    }
  }

  /** The invariant of every run, whatever is called in whatever order and however often it restarts. */
  lemma {:induction false} RunKeepsWorld(w: World, ops: seq<Op>, base: Marks)
    requires WorldOk(w, base)
    ensures WorldOk(Exec(w, ops), base)
    decreases |ops|
  {
    if ops != [] {
      StepKeepsWorld(w, ops[0], base);
      RunKeepsWorld(Apply(w, ops[0]), ops[1..], base);
    }
  }

  /**
   No run publishes a sequence number twice or out of order: over all sessions the published ticks
   are numbered consecutively from where the first store stood, ingress numbers strictly increase,
   every successful boot gets a larger session id, and the store counts exactly what was published.
   */
  lemma PublishedOnceInOrder(seed: u64, store: Blob, packets: seq<Packet>, fault: Option<FaultPoint>, ops: seq<Op>)
    requires MarksOf(store).Some?
    ensures var base := MarksOf(store).value;
            var w := Exec(Start(seed, store, packets, fault), ops);
            && (forall i :: 0 <= i < |w.log| ==> w.log[i].tickSeq == base.tick + 1 + i)
            && (forall i :: 0 <= i < |w.log| ==> base.ingress < w.log[i].ingressSeq)
            && (forall i, j :: 0 <= i < j < |w.log| ==> w.log[i].ingressSeq < w.log[j].ingressSeq)
            && (forall i :: 0 <= i < |w.boots| ==> base.session < w.boots[i])
            && (forall i, j :: 0 <= i < j < |w.boots| ==> w.boots[i] < w.boots[j])
            && (forall i :: 0 <= i < |w.log| ==> w.log[i].sessionId in w.boots)
            && (MarksOf(w.h.store).Some? ==> MarksOf(w.h.store).value.tick - base.tick == |w.log|)
            && (w.h.live <==> w.h.health == Live)
  {
    RunKeepsWorld(Start(seed, store, packets, fault), ops, MarksOf(store).value);
  }

  /** On a live path no save is refused and the publish channel is never found closed. */
  lemma LiveTickNeverRefused(seed: u64, store: Blob, packets: seq<Packet>, fault: Option<FaultPoint>, ops: seq<Op>)
    requires MarksOf(store).Some?
    ensures var s := Exec(Start(seed, store, packets, fault), ops).h;
            && (s.live ==>
                  && s.channelOpen && s.store == Encoded(s.durable) && s.durable.Validate()
                  && s.durable.inflight.None? && s.sessionId == s.durable.lastSessionId)
            && (TickStep(s).Err? ==> TickStep(s).error != InvalidDurable && TickStep(s).error != PublishClosed)
  {
    var w := Start(seed, store, packets, fault);
    RunKeepsWorld(w, ops, MarksOf(store).value);
    TickFacts(Exec(w, ops).h);
  }

  ghost predicate Rejected(w: World, w': World) {
    SessionOk(w'.h) && MarksOf(w'.h.store).None? && !w'.h.live && w'.boots == w.boots && w'.log == w.log
  }

  lemma StepKeepsRejected(w: World, op: Op)
    requires Rejected(w, w)
    ensures Rejected(w, Apply(w, op))
  {
    if op.Boot? {
      BootFacts(w.h);
    } else if op.Tick? {
      TickFacts(w.h);
    } else {
      QuietFacts(w, op);
    }
  }

  /** A store that does not validate stays rejected: no session ever goes live and nothing is published. */
  lemma {:induction false} RejectedForGood(w: World, ops: seq<Op>)
    requires Rejected(w, w)
    ensures Rejected(w, Exec(w, ops))
    decreases |ops|
  {
    if ops != [] {
      StepKeepsRejected(w, ops[0]);
      RejectedForGood(Apply(w, ops[0]), ops[1..]);
    }
  }
}
