/**
 Every interleaving over the four queues and the shared shutdown flag. A push loads the flag first
 and takes the queue lock later; a shutdown sets the flag first and closes the queues one by one.
 */
module IngressRuns {
  import opened Prelude
  import opened IngressTypes
  import opened QueueSpec
  import opened QueueRuns
  import opened IngressSpec

  /** A producer that has read the flag and not yet taken a lock. */
  datatype Pending =
    | Cleared(kind: MessageClass, packet: IngressPacket, wait: WaitMode)
    | Barred(kind: MessageClass)

  datatype Ingress = Ingress(
    flag: bool,
    queues: map<MessageClass, System>,
    pending: map<nat, Pending>)

  datatype Move =
    | LoadFlag(id: nat, kind: MessageClass, packet: IngressPacket, wait: WaitMode)
    | TakeLock(id: nat, now: nat)
    | Wake(id: nat, kind: MessageClass, timedOut: bool, elapsed: nat, now: nat)
    | PopFrom(kind: MessageClass)
    | DrainFrom(kind: MessageClass)
    | SetFlag
    | CloseQueue(kind: MessageClass)

  function Opened(): Ingress {
    Ingress(false, map[Sensory := EmptySystem, Reward := EmptySystem, Control := EmptySystem,
                       Telemetry := EmptySystem], map[])
  }

  ghost predicate Total(w: Ingress) {
    forall k: MessageClass :: k in w.queues
  }

  /** The step of one queue that a move makes, if it makes one. */
  function StepOf(w: Ingress, m: Move): Option<(MessageClass, Event)> {
    match m
    case LoadFlag(_, _, _, _) => None
    case TakeLock(id, now) =>
      if id !in w.pending then None
      else
        (match w.pending[id]
         case Cleared(k, packet, wait) => Some((k, Begin(id, packet, wait, now)))
         case Barred(k) => Some((k, TurnAway)))
    case Wake(id, k, timedOut, elapsed, now) => Some((k, WakeUp(id, timedOut, elapsed, now)))
    case PopFrom(k) => Some((k, Pop))
    case DrainFrom(k) => Some((k, DrainAll))
    case SetFlag => None
    case CloseQueue(k) => if w.flag then Some((k, Close)) else None
  }

  function Play(cfg: IngressConfig, w: Ingress, m: Move): Ingress
    requires cfg.Total()
  {
    var step := StepOf(w, m);
    var queues :=
      if step.Some? && step.value.0 in w.queues then
        w.queues[step.value.0 := Next(ClassConfig(cfg, step.value.0), w.queues[step.value.0], step.value.1)]
      else w.queues;
    match m
    case LoadFlag(id, k, packet, wait) =>
      if id in w.pending then w
      else w.(pending := w.pending[id := if w.flag then Barred(k) else Cleared(k, packet, wait)])
    case TakeLock(id, _) => w.(queues := queues, pending := w.pending - {id})
    case SetFlag => w.(flag := true)
    case _ => w.(queues := queues)
  }

  function PlayAll(cfg: IngressConfig, w: Ingress, moves: seq<Move>): Ingress
    requires cfg.Total()
    decreases |moves|
  {
    if moves == [] then w else PlayAll(cfg, Play(cfg, w, moves[0]), moves[1..])
  }

  /** The step of the queue of class `k` that the move stands for, in the words of the move. */
  ghost predicate Steps(w: Ingress, m: Move, k: MessageClass, e: Event) {
    match m
    case TakeLock(id, now) =>
      id in w.pending &&
      (match w.pending[id]
       case Cleared(kind, packet, wait) => kind == k && e == Begin(id, packet, wait, now)
       case Barred(kind) => kind == k && e == TurnAway)
    case Wake(id, kind, timedOut, elapsed, now) => kind == k && e == WakeUp(id, timedOut, elapsed, now)
    case PopFrom(kind) => kind == k && e == Pop
    case DrainFrom(kind) => kind == k && e == DrainAll
    case CloseQueue(kind) => kind == k && w.flag && e == Close
    case _ => false
  }

  /** Every move is one step of the queue of its own class, with its own packet, and touches no other. */
  lemma MovesTheirOwnClass(cfg: IngressConfig, w: Ingress, m: Move, k: MessageClass)
    requires cfg.Total() && Total(w)
    ensures var w' := Play(cfg, w, m);
            && Total(w')
            && (forall e :: Steps(w, m, k, e) ==> w'.queues[k] == Next(ClassConfig(cfg, k), w.queues[k], e))
            && ((forall e :: !Steps(w, m, k, e)) ==> w'.queues[k] == w.queues[k])
            && (w'.flag <==> w.flag || m.SetFlag?)
  {
    var step := StepOf(w, m);
    if step.Some? {
      assert Steps(w, m, step.value.0, step.value.1);
    }
  }

  ghost predicate IngressOk(cfg: IngressConfig, w: Ingress)
    requires cfg.Total()
  {
    && Total(w)
    && (forall k: MessageClass :: SystemOk(ClassConfig(cfg, k), w.queues[k]))
    && (forall k: MessageClass :: w.queues[k].q.closed ==> w.flag)
  }

  lemma ConfigsOk(cfg: IngressConfig, k: MessageClass)
    requires cfg.Total() && cfg.Validate()
    ensures ConfigOk(ClassConfig(cfg, k))
  {
    match k { case Sensory => case Reward => case Control => case Telemetry => }
  }

  lemma OnlyCloseCloses(c: QueueConfig, s: System, e: Event)
    ensures Next(c, s, e).q.closed <==> s.q.closed || e.Close?
  {
  }

  lemma PlaceKeeps(cfg: IngressConfig, w: Ingress, k: MessageClass, s: System)
    requires cfg.Total() && IngressOk(cfg, w) && SystemOk(ClassConfig(cfg, k), s) && (s.q.closed ==> w.flag)
    ensures IngressOk(cfg, w.(queues := w.queues[k := s]))
  {
    var queues := w.queues[k := s];
    forall j: MessageClass
      ensures j in queues && queues[j] == if j == k then s else w.queues[j]
    {
      assert j in w.queues;
    }
  }

  lemma QueueStepKeeps(cfg: IngressConfig, w: Ingress, k: MessageClass, e: Event)
    requires cfg.Total() && cfg.Validate() && IngressOk(cfg, w) && (e.Close? ==> w.flag)
    ensures IngressOk(cfg, w.(queues := w.queues[k := Next(ClassConfig(cfg, k), w.queues[k], e)]))
  {
    ConfigsOk(cfg, k);
    NextKeeps(ClassConfig(cfg, k), w.queues[k], e);
    OnlyCloseCloses(ClassConfig(cfg, k), w.queues[k], e);
    PlaceKeeps(cfg, w, k, Next(ClassConfig(cfg, k), w.queues[k], e));
  }

  lemma MoveKeeps(cfg: IngressConfig, w: Ingress, m: Move)
    requires cfg.Total() && cfg.Validate() && IngressOk(cfg, w)
    ensures IngressOk(cfg, Play(cfg, w, m))
  {
    var step := StepOf(w, m);
    if step.Some? {
      QueueStepKeeps(cfg, w, step.value.0, step.value.1);
    }
  }

  /** Over every run each queue conserves its packets, and none is closed before the flag is set. */
  lemma {:induction false} EveryQueueConserves(cfg: IngressConfig, w: Ingress, moves: seq<Move>)
    requires cfg.Total() && cfg.Validate() && IngressOk(cfg, w)
    ensures IngressOk(cfg, PlayAll(cfg, w, moves))
    decreases |moves|
  {
    if moves != [] {
      MoveKeeps(cfg, w, moves[0]);
      EveryQueueConserves(cfg, Play(cfg, w, moves[0]), moves[1..]);
    }
  }

  lemma OpenedOk(cfg: IngressConfig)
    requires cfg.Total() && cfg.Validate()
    ensures IngressOk(cfg, Opened())
  {
    forall k: MessageClass
      ensures k in Opened().queues && Opened().queues[k] == EmptySystem
    {
      match k { case Sensory => case Reward => case Control => case Telemetry => }
    }
  }

  lemma EveryRunConserves(cfg: IngressConfig, moves: seq<Move>)
    requires cfg.Total() && cfg.Validate()
    ensures var w := PlayAll(cfg, Opened(), moves);
            IngressOk(cfg, w) && forall k: MessageClass :: ContentFits(ClassConfig(cfg, k), w.queues[k])
  {
    OpenedOk(cfg);
    EveryQueueConserves(cfg, Opened(), moves);
    var w := PlayAll(cfg, Opened(), moves);
    forall k: MessageClass
      ensures ContentFits(ClassConfig(cfg, k), w.queues[k])
    {
      ConfigsOk(cfg, k);
      NothingLost(ClassConfig(cfg, k), w.queues[k]);
    }
  }

  // ---------------------------------------------------------------- shutdown

  /** `shutdown` has returned: the flag is set and every queue closed. */
  ghost predicate ShutDown(w: Ingress) {
    Total(w) && w.flag && forall k: MessageClass :: w.queues[k].q.closed
  }

  ghost predicate AllFrozen(from: Ingress, w: Ingress)
    requires Total(from)
  {
    Total(w) && w.flag && forall k: MessageClass :: FrozenSince(from.queues[k], w.queues[k])
  }

  lemma MoveKeepsFrozen(cfg: IngressConfig, from: Ingress, w: Ingress, m: Move)
    requires cfg.Total() && Total(from) && AllFrozen(from, w)
    ensures AllFrozen(from, Play(cfg, w, m))
  {
    var step := StepOf(w, m);
    if step.Some? {
      var (k, e) := step.value;
      ClosedStep(ClassConfig(cfg, k), from.queues[k], w.queues[k], e);
    }
  }

  /**
   After `shutdown` returned, no push on any class is accepted or rejected any more, racing and
   waiting producers included: each is refused and counted in its own class, and every queued packet
   is still delivered in order.
   */
  lemma {:induction false} NothingAcceptedAfterShutdown(cfg: IngressConfig, from: Ingress, w: Ingress,
                                                        moves: seq<Move>)
    requires cfg.Total() && ShutDown(from) && AllFrozen(from, w)
    ensures AllFrozen(from, PlayAll(cfg, w, moves))
    decreases |moves|
  {
    if moves != [] {
      MoveKeepsFrozen(cfg, from, w, moves[0]);
      NothingAcceptedAfterShutdown(cfg, from, Play(cfg, w, moves[0]), moves[1..]);
    }
  }

  lemma ShutdownIsFinal(cfg: IngressConfig, before: seq<Move>, after: seq<Move>)
    requires cfg.Total() && cfg.Validate() && ShutDown(PlayAll(cfg, Opened(), before))
    ensures var w := PlayAll(cfg, Opened(), before);
            var w' := PlayAll(cfg, w, after);
            && Total(w')
            && forall k: MessageClass ::
                 && w'.queues[k].q.accepted == w.queues[k].q.accepted
                 && w'.queues[k].q.rejected == w.queues[k].q.rejected
                 && w'.queues[k].delivered + w'.queues[k].q.items == w.queues[k].delivered + w.queues[k].q.items
                 && w'.queues[k].q.shutdownRefused - w.queues[k].q.shutdownRefused
                    == w'.queues[k].attempts - w.queues[k].attempts
                       + |w.queues[k].waiting| - |w'.queues[k].waiting|
  {
    var w := PlayAll(cfg, Opened(), before);
    NothingAcceptedAfterShutdown(cfg, w, w, after);
  }

  /** A push that begins once the flag is set touches nothing but the refusal count of its own class. */
  lemma RefusedInItsOwnClass(cfg: IngressConfig, w: Ingress, id: nat, k: MessageClass, packet: IngressPacket,
                             wait: WaitMode, now: nat)
    requires cfg.Total() && Total(w) && w.flag && id !in w.pending
    ensures var w1 := Play(cfg, w, LoadFlag(id, k, packet, wait));
            w1.pending == w.pending[id := Barred(k)] && w1.queues == w.queues
    ensures forall u: Ingress :: Total(u) && id in u.pending && u.pending[id] == Barred(k) ==>
              var u' := Play(cfg, u, TakeLock(id, now));
              && Total(u') && id !in u'.pending
              && u'.queues == u.queues[k := u.queues[k].(
                   attempts := u.queues[k].attempts + 1,
                   q := u.queues[k].q.(shutdownRefused := u.queues[k].q.shutdownRefused + 1))]
  {
  }

  /** Nobody else can turn that refusal into anything else, whatever is played in between. */
  lemma {:induction false} RefusalStands(cfg: IngressConfig, w: Ingress, id: nat, k: MessageClass, moves: seq<Move>)
    requires cfg.Total() && id in w.pending && w.pending[id] == Barred(k)
    requires forall m :: m in moves ==> !(m.TakeLock? && m.id == id)
    ensures var w' := PlayAll(cfg, w, moves);
            id in w'.pending && w'.pending[id] == Barred(k)
    decreases |moves|
  {
    if moves != [] {
      assert moves[0] in moves;
      RefusalStands(cfg, Play(cfg, w, moves[0]), id, k, moves[1..]);
    }
  }
}
