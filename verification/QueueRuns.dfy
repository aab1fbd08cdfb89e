/**
 Every interleaving of producers, consumers and shutdown on one queue. The lock makes each step of
 QueueSpec atomic; a run is any sequence of such steps, with spurious wake-ups and any clock readings.
 */
module QueueRuns {
  import opened Prelude
  import opened IngressTypes
  import opened QueueSpec

  /** A producer in a push: its packet and deadline, and when, how long and on what queue it last parked. */
  datatype Waiter = Waiter(packet: IngressPacket, deadline: Option<nat>, since: nat, asked: nat, seen: QueueState)

  /**
   The queue, the parked producers, and the histories: what went in and what came out, the greatest
   depth, how often a producer parked and how long all waits that ended took.
   */
  datatype System = System(
    q: QueueState,
    waiting: map<nat, Waiter>,
    attempts: nat,
    history: seq<IngressPacket>,
    delivered: seq<IngressPacket>,
    deepest: nat,
    parks: nat,
    waitedNs: nat)

  const EmptySystem: System := System(EmptyQueue, map[], 0, [], [], 0, 0, 0)

  datatype Event =
    | Begin(id: nat, packet: IngressPacket, wait: WaitMode, now: nat)
    | WakeUp(id: nat, timedOut: bool, elapsed: nat, now: nat)
    | TurnAway
    | Pop
    | DrainAll
    | Close

  /** The end of a step of producer `id`. */
  function Settle(s: System, id: nat, w: Waiter, step: Step): System {
    match step
    case Park(q, asked) => s.(q := q, waiting := s.waiting[id := w.(asked := asked, seen := q)], parks := s.parks + 1)
    case Done(q, outcome) =>
      s.(q := q, waiting := s.waiting - {id},
         history := if outcome.Queued() then s.history + [w.packet] else s.history,
         deepest := Max(s.deepest, |q.items|))
  }

  /** A step that is not enabled (a parked producer beginning again, a wake-up of nobody) changes nothing. */
  function Next(c: QueueConfig, s: System, e: Event): System {
    match e
    case Begin(id, packet, wait, now) =>
      if id in s.waiting then s
      else Settle(s.(attempts := s.attempts + 1), id, Waiter(packet, Deadline(c, wait, now), now, 0, s.q),
                  Enter(c, s.q, packet, wait, now))
    case WakeUp(id, timedOut, elapsed, now) =>
      if id !in s.waiting then s
      else
        var w := s.waiting[id];
        Settle(s.(waitedNs := s.waitedNs + elapsed), id, w.(since := now), Resume(c, s.q, w.packet, w.deadline, timedOut, elapsed, now))
    case TurnAway => s.(attempts := s.attempts + 1, q := RefuseShutdown(s.q).q)
    case Pop => s.(q := Popped(s.q), delivered := s.delivered + s.q.items[..Min(1, |s.q.items|)])
    case DrainAll => s.(q := Drained(s.q), delivered := s.delivered + s.q.items)
    case Close => s.(q := Closed(s.q))
  }

  function Run(c: QueueConfig, s: System, events: seq<Event>): System
    decreases |events|
  {
    if events == [] then s else Run(c, Next(c, s, events[0]), events[1..])
  }

  /** `a` is `b` with some elements left out. */
  ghost predicate Subsequence<T(!new)>(a: seq<T>, b: seq<T>)
    decreases |b|
  {
    if a == [] then true
    else if b == [] then false
    else if a[|a| - 1] == b[|b| - 1] && Subsequence(a[..|a| - 1], b[..|b| - 1]) then true
    else Subsequence(a, b[..|b| - 1])
  }

  /** What left the queue, delivered or not: the history before the items still queued. */
  function Gone(items: seq<IngressPacket>, history: seq<IngressPacket>): seq<IngressPacket>
    requires |items| <= |history|
  {
    history[..|history| - |items|]
  }

  /** The newest of the history are queued, in order; the delivered are among the older, in order. */
  ghost predicate ContentOk(items: seq<IngressPacket>, history: seq<IngressPacket>, delivered: seq<IngressPacket>) {
    && |items| <= |history|
    && items == history[|history| - |items|..]
    && Subsequence(delivered, Gone(items, history))
  }

  ghost predicate CountsOk(c: QueueConfig, s: System) {
    && s.q.accepted == |s.history| == |s.q.items| + |s.delivered| + s.q.dropped + s.q.coalesced
    && s.attempts == s.q.accepted + s.q.rejected + s.q.shutdownRefused + |s.waiting|
    && |s.q.items| <= s.q.highWaterMark == s.deepest <= c.capacity
    && (c.policy != DropOldest ==> s.q.dropped == 0)
    && (c.policy != Coalesce ==> s.q.coalesced == 0)
    && (s.waiting != map[] ==> c.policy == BlockTimeout)
    && s.q.producerWaits == s.parks && s.q.producerWaitNs == s.waitedNs
  }

  ghost predicate SystemOk(c: QueueConfig, s: System) {
    CountsOk(c, s) && ContentOk(s.q.items, s.history, s.delivered)
  }

  lemma SubsequenceGrows<T(!new)>(a: seq<T>, b: seq<T>, x: T)
    requires Subsequence(a, b)
    ensures Subsequence(a, b + [x]) && Subsequence(a + [x], b + [x])
  {
    assert (b + [x])[..|b|] == b && (a + [x])[..|a|] == a;
  }

  lemma {:induction false} SubsequenceConcat<T(!new)>(a: seq<T>, b: seq<T>, tail: seq<T>)
    requires Subsequence(a, b)
    ensures Subsequence(a + tail, b + tail)
    decreases |tail|
  {
    if tail == [] {
      assert a + tail == a && b + tail == b;
    } else {
      var front, x := tail[..|tail| - 1], tail[|tail| - 1];
      SubsequenceConcat(a, b, front);
      SubsequenceGrows(a + front, b + front, x);
      assert a + front + [x] == a + tail && b + front + [x] == b + tail;
    }
  }

  lemma {:induction false} FullSubsequenceIsEqual<T(!new)>(a: seq<T>, b: seq<T>)
    requires Subsequence(a, b)
    ensures |a| <= |b| && (|a| == |b| ==> a == b)
    decreases |b|
  {
    if a != [] {
      var b' := b[..|b| - 1];
      if a[|a| - 1] == b[|b| - 1] && Subsequence(a[..|a| - 1], b') {
        FullSubsequenceIsEqual(a[..|a| - 1], b');
      } else {
        FullSubsequenceIsEqual(a, b');
      }
    }
  }

  // ---------------------------------------------------------------- one step

  lemma ContentAppend(items: seq<IngressPacket>, history: seq<IngressPacket>, delivered: seq<IngressPacket>,
                      p: IngressPacket)
    requires ContentOk(items, history, delivered)
    ensures ContentOk(items + [p], history + [p], delivered)
  {
    assert Gone(items + [p], history + [p]) == Gone(items, history);
  }

  /** The oldest item leaves: dropped, or delivered. */
  lemma ContentShift(items: seq<IngressPacket>, history: seq<IngressPacket>, delivered: seq<IngressPacket>)
    requires ContentOk(items, history, delivered) && items != []
    ensures ContentOk(items[1..], history, delivered)
    ensures ContentOk(items[1..], history, delivered + [items[0]])
  {
    assert Gone(items[1..], history) == Gone(items, history) + [items[0]];
    SubsequenceGrows(delivered, Gone(items, history), items[0]);
  }

  lemma ContentDrain(items: seq<IngressPacket>, history: seq<IngressPacket>, delivered: seq<IngressPacket>)
    requires ContentOk(items, history, delivered)
    ensures ContentOk([], history, delivered + items)
  {
    assert Gone([], history) == Gone(items, history) + items;
    SubsequenceConcat(delivered, Gone(items, history), items);
  }

  /** The ways a step of a push can end. */
  datatype Ending = TurnedAway | Refused | Free | Replaced | Evicted | Parked

  ghost predicate EndsBy(c: QueueConfig, q: QueueState, p: IngressPacket, step: Step, e: Ending) {
    match e
    case TurnedAway => q.closed && step == RefuseShutdown(q)
    case Refused => !q.closed && step == Refuse(q)
    case Free => !q.closed && |q.items| < c.capacity && step == PushFree(q, p)
    case Replaced => !q.closed && c.policy == Coalesce && |q.items| == 1 && step == PushCoalesce(q, p)
    case Evicted =>
      !q.closed && c.policy == DropOldest && |q.items| == c.capacity > 0 && step == DropOldestAndPush(q, p)
    case Parked =>
      && !q.closed && c.policy == BlockTimeout
      && step.Park? && step.q == q.(producerWaits := q.producerWaits + 1)
  }

  ghost predicate ConfigOk(c: QueueConfig) {
    (c.policy == DropOldest ==> c.capacity >= 1) && (c.policy == Coalesce ==> c.capacity == 1)
  }

  lemma AttemptEnding(c: QueueConfig, q: QueueState, p: IngressPacket, deadline: Option<nat>, now: nat)
    returns (e: Ending)
    requires ConfigOk(c) && |q.items| <= c.capacity
    ensures EndsBy(c, q, p, Attempt(c, q, p, deadline, now), e)
  {
    e := if q.closed then TurnedAway
         else if |q.items| < c.capacity then Free
         else if c.policy == Coalesce then Replaced
         else if c.policy == DropOldest then Evicted
         else if c.policy == Reject || Remaining(deadline, now) == 0 then Refused
         else Parked;
  }

  lemma EnterEnding(c: QueueConfig, q: QueueState, p: IngressPacket, wait: WaitMode, now: nat) returns (e: Ending)
    requires ConfigOk(c) && |q.items| <= c.capacity
    ensures EndsBy(c, q, p, Enter(c, q, p, wait, now), e)
  {
    if Oversized(c, p) {
      e := if q.closed then TurnedAway else Refused;
    } else {
      e := AttemptEnding(c, q, p, Deadline(c, wait, now), now);
    }
  }

  lemma ResumeEnding(c: QueueConfig, q: QueueState, p: IngressPacket, deadline: Option<nat>, timedOut: bool,
                     elapsed: nat, now: nat) returns (e: Ending)
    requires ConfigOk(c) && |q.items| <= c.capacity
    ensures EndsBy(c, q.(producerWaitNs := q.producerWaitNs + elapsed), p,
                   Resume(c, q, p, deadline, timedOut, elapsed, now), e)
  {
    if q.closed {
      e := TurnedAway;
    } else if timedOut && |q.items| >= c.capacity {
      e := Refused;
    } else {
      e := AttemptEnding(c, q.(producerWaitNs := q.producerWaitNs + elapsed), p, deadline, now);
    }
  }

  /** The counters while producer `id` is in the middle of a step. */
  ghost predicate CountsDuring(c: QueueConfig, s: System, id: nat) {
    && CountsOk(c, s.(attempts := s.q.accepted + s.q.rejected + s.q.shutdownRefused + |s.waiting|))
    && s.attempts == s.q.accepted + s.q.rejected + s.q.shutdownRefused + |s.waiting - {id}| + 1
  }

  lemma SettleCounts(c: QueueConfig, s: System, id: nat, w: Waiter, step: Step, e: Ending)
    requires ConfigOk(c) && CountsDuring(c, s, id) && EndsBy(c, s.q, w.packet, step, e)
    ensures CountsOk(c, Settle(s, id, w, step))
  {
    match e
    case Parked => assert s.waiting[id := w.(asked := step.asked, seen := step.q)] - {id} == s.waiting - {id};
    case Evicted => assert |s.q.items[1..] + [w.packet]| == |s.q.items|;
    case _ =>
  }

  lemma SettleContent(c: QueueConfig, s: System, id: nat, w: Waiter, step: Step, e: Ending)
    requires ContentOk(s.q.items, s.history, s.delivered) && EndsBy(c, s.q, w.packet, step, e)
    ensures var s' := Settle(s, id, w, step);
            ContentOk(s'.q.items, s'.history, s'.delivered)
  {
    match e
    case Free => ContentAppend(s.q.items, s.history, s.delivered, w.packet);
    case Replaced =>
      ContentShift(s.q.items, s.history, s.delivered);
      ContentAppend([], s.history, s.delivered, w.packet);
    case Evicted =>
      ContentShift(s.q.items, s.history, s.delivered);
      ContentAppend(s.q.items[1..], s.history, s.delivered, w.packet);
    case _ =>
  }

  lemma SettleKeeps(c: QueueConfig, s: System, id: nat, w: Waiter, step: Step, e: Ending)
    requires ConfigOk(c) && CountsDuring(c, s, id) && ContentOk(s.q.items, s.history, s.delivered)
    requires EndsBy(c, s.q, w.packet, step, e)
    ensures SystemOk(c, Settle(s, id, w, step))
  {
    SettleCounts(c, s, id, w, step, e);
    SettleContent(c, s, id, w, step, e);
  }

  lemma BeginCounts(c: QueueConfig, s: System, id: nat)
    requires CountsOk(c, s) && id !in s.waiting
    ensures CountsDuring(c, s.(attempts := s.attempts + 1), id)
  {
    assert s.waiting - {id} == s.waiting;
  }

  lemma BeginKeeps(c: QueueConfig, s: System, event: Event)
    requires ConfigOk(c) && SystemOk(c, s) && event.Begin? && event.id !in s.waiting
    ensures SystemOk(c, Next(c, s, event))
  {
    hide Enter, EndsBy;
    var s1 := s.(attempts := s.attempts + 1);
    BeginCounts(c, s, event.id);
    var e := EnterEnding(c, s.q, event.packet, event.wait, event.now);
    var w := Waiter(event.packet, Deadline(c, event.wait, event.now), event.now, 0, s.q);
    var step := Enter(c, s.q, event.packet, event.wait, event.now);
    assert Next(c, s, event) == Settle(s1, event.id, w, step);
    SettleKeeps(c, s1, event.id, w, step, e);
  }

  lemma WakeUpKeeps(c: QueueConfig, s: System, event: Event)
    requires ConfigOk(c) && SystemOk(c, s) && event.WakeUp? && event.id in s.waiting
    ensures SystemOk(c, Next(c, s, event))
  {
    hide Resume, EndsBy;
    var w := s.waiting[event.id];
    var e := ResumeEnding(c, s.q, w.packet, w.deadline, event.timedOut, event.elapsed, event.now);
    var s1 := s.(q := s.q.(producerWaitNs := s.q.producerWaitNs + event.elapsed),
                 waitedNs := s.waitedNs + event.elapsed);
    assert s.waiting == (s.waiting - {event.id})[event.id := w];
    var step := Resume(c, s.q, w.packet, w.deadline, event.timedOut, event.elapsed, event.now);
    var w' := w.(since := event.now);
    SettleKeeps(c, s1, event.id, w', step, e);
    assert Settle(s1, event.id, w', step) == Settle(s.(waitedNs := s1.waitedNs), event.id, w', step);
  }

  lemma ConsumerKeeps(c: QueueConfig, s: System, event: Event)
    requires ConfigOk(c) && SystemOk(c, s) && !event.Begin? && !event.WakeUp?
    ensures SystemOk(c, Next(c, s, event))
  {
    if event.Pop? && s.q.items != [] {
      ContentShift(s.q.items, s.history, s.delivered);
      assert s.q.items[..1] == [s.q.items[0]];
    } else if event.Pop? {
      assert s.delivered + s.q.items[..0] == s.delivered;
    } else if event.DrainAll? {
      ContentDrain(s.q.items, s.history, s.delivered);
    }
  }

  lemma NextKeeps(c: QueueConfig, s: System, event: Event)
    requires ConfigOk(c) && SystemOk(c, s)
    ensures SystemOk(c, Next(c, s, event))
  {
    if event.Begin? {
      if event.id !in s.waiting { BeginKeeps(c, s, event); }
    } else if event.WakeUp? {
      if event.id in s.waiting { WakeUpKeeps(c, s, event); }
    } else {
      ConsumerKeeps(c, s, event);
    }
  }

  lemma {:induction false} RunKeeps(c: QueueConfig, s: System, events: seq<Event>)
    requires ConfigOk(c) && SystemOk(c, s)
    ensures SystemOk(c, Run(c, s, events))
    decreases |events|
  {
    if events != [] {
      NextKeeps(c, s, events[0]);
      RunKeeps(c, Next(c, s, events[0]), events[1..]);
    }
  }

  ghost predicate Conserves(c: QueueConfig, s: System) {
    && s.q.accepted == |s.q.items| + |s.delivered| + s.q.dropped + s.q.coalesced
    && s.attempts == s.q.accepted + s.q.rejected + s.q.shutdownRefused + |s.waiting|
    && |s.q.items| <= s.q.highWaterMark == s.deepest <= c.capacity
    && s.q.producerWaits == s.parks && s.q.producerWaitNs == s.waitedNs
  }

  /**
   Conservation in every reachable state: what was accepted is queued, delivered, dropped or
   coalesced; every push that began was accepted, rejected or refused at shutdown, or is waiting;
   the high-water mark is the greatest depth there ever was and never exceeds the capacity; every
   time a producer parked is counted, and so is all the time it waited.
   */
  lemma Conservation(c: QueueConfig, events: seq<Event>)
    requires ConfigOk(c)
    ensures Conserves(c, Run(c, EmptySystem, events))
  {
    RunKeeps(c, EmptySystem, events);
  }

  ghost predicate ContentFits(c: QueueConfig, s: System) {
    && ContentOk(s.q.items, s.history, s.delivered)
    && match c.policy
       case Reject => s.delivered + s.q.items == s.history
       case BlockTimeout => s.delivered + s.q.items == s.history
       case DropOldest => |Gone(s.q.items, s.history)| == |s.delivered| + s.q.dropped
       case Coalesce => s.q.items == [] || s.q.items == [s.history[|s.history| - 1]]
  }

  lemma NothingLost(c: QueueConfig, s: System)
    requires ConfigOk(c) && SystemOk(c, s)
    ensures ContentFits(c, s)
  {
    FullSubsequenceIsEqual(s.delivered, Gone(s.q.items, s.history));
    if s.q.dropped == 0 && s.q.coalesced == 0 {
      assert s.history == Gone(s.q.items, s.history) + s.q.items;
    }
  }

  /**
   What each overflow policy does to the contents, over every interleaving: the queue always holds
   the newest accepted packets in order and delivers older ones in order; reject and block_timeout
   lose none, drop_oldest loses exactly the dropped, coalesce keeps at most the last.
   */
  lemma ContentsByPolicy(c: QueueConfig, events: seq<Event>)
    requires ConfigOk(c)
    ensures ContentFits(c, Run(c, EmptySystem, events))
  {
    RunKeeps(c, EmptySystem, events);
    NothingLost(c, Run(c, EmptySystem, events));
  }

  /** A drop_oldest queue of capacity zero overfills and miscounts on its first packet. */
  lemma ZeroCapacityMiscounts(c: QueueConfig, p: IngressPacket)
    requires c.capacity == 0 && c.policy == DropOldest && !Oversized(c, p)
    ensures !Conserves(c, Run(c, EmptySystem, [Begin(0, p, Never, 0)]))
  {
    var s := Next(c, EmptySystem, Begin(0, p, Never, 0));
    assert s.q.items == [p] && s.q.dropped == 1 && s.q.accepted == 1;
    assert Run(c, EmptySystem, [Begin(0, p, Never, 0)]) == Run(c, s, []);
  }

  /**
   What the configuration check is for: over every run, the queue made from a capacity and a policy
   conserves its packets and stays within its capacity exactly if it is not a drop_oldest queue of
   capacity zero. The other policies conserve at capacity zero as well.
   */
  lemma ZeroCapacityBreaks(capacity: nat, policy: OverflowPolicy, blockTimeout: nat, maxPayloadLen: nat)
    ensures var c := MakeConfig(capacity, policy, blockTimeout, maxPayloadLen);
            (forall events :: Conserves(c, Run(c, EmptySystem, events))) <==> capacity >= 1 || policy != DropOldest
  {
    var c := MakeConfig(capacity, policy, blockTimeout, maxPayloadLen);
    if capacity >= 1 || policy != DropOldest {
      forall events
        ensures Conserves(c, Run(c, EmptySystem, events))
      {
        Conservation(c, events);
      }
    } else {
      ZeroCapacityMiscounts(c, IngressPacket.Default());
    }
  }

  // ---------------------------------------------------------------- who waits

  /** It parked on a full, open block_timeout queue, and asked to wake exactly at its one deadline. */
  ghost predicate ParkedRightly(c: QueueConfig, w: Waiter) {
    && c.policy == BlockTimeout && !w.seen.closed && |w.seen.items| >= c.capacity
    && w.asked > 0 && w.deadline == Some(w.since + w.asked)
  }

  ghost predicate AllParkedRightly(c: QueueConfig, s: System) {
    forall id :: id in s.waiting ==> ParkedRightly(c, s.waiting[id])
  }

  lemma NextParksRightly(c: QueueConfig, s: System, event: Event)
    requires AllParkedRightly(c, s)
    ensures AllParkedRightly(c, Next(c, s, event))
  {
  }

  /** In every reachable state every waiter parked with time left, on a queue that gave it no slot. */
  lemma {:induction false} WaitersParkedRightly(c: QueueConfig, s: System, events: seq<Event>)
    requires AllParkedRightly(c, s)
    ensures AllParkedRightly(c, Run(c, s, events))
    decreases |events|
  {
    if events != [] {
      NextParksRightly(c, s, events[0]);
      WaitersParkedRightly(c, Next(c, s, events[0]), events[1..]);
    }
  }

  // ---------------------------------------------------------------- shutdown

  /** Producers refused at shutdown since `from`; a push in progress at the close can only end that way. */
  ghost predicate FrozenSince(from: System, s: System) {
    && s.q.closed
    && s.q.accepted == from.q.accepted && s.q.rejected == from.q.rejected && s.history == from.history
    && s.q.dropped == from.q.dropped && s.q.coalesced == from.q.coalesced
    && s.delivered + s.q.items == from.delivered + from.q.items
    && s.waiting.Keys <= from.waiting.Keys
    && s.q.shutdownRefused - from.q.shutdownRefused
       == (s.attempts - from.attempts) + (|from.waiting| - |s.waiting|)
  }

  /** On a closed queue a push that begins is turned away. */
  lemma ClosedBegin(c: QueueConfig, s: System, event: Event)
    requires s.q.closed && event.Begin? && event.id !in s.waiting
    ensures Next(c, s, event) == s.(attempts := s.attempts + 1, deepest := Max(s.deepest, |s.q.items|),
                                    q := s.q.(shutdownRefused := s.q.shutdownRefused + 1))
  {
    assert s.waiting - {event.id} == s.waiting;
  }

  /** And so is one that wakes up. */
  lemma ClosedWakeUp(c: QueueConfig, s: System, event: Event)
    requires s.q.closed && event.WakeUp? && event.id in s.waiting
    ensures Next(c, s, event) == s.(waiting := s.waiting - {event.id}, waitedNs := s.waitedNs + event.elapsed,
                                    deepest := Max(s.deepest, |s.q.items|),
                                    q := s.q.(shutdownRefused := s.q.shutdownRefused + 1,
                                              producerWaitNs := s.q.producerWaitNs + event.elapsed))
  {
  }

  lemma OneFewer(waiting: map<nat, Waiter>, id: nat)
    requires id in waiting
    ensures |waiting - {id}| == |waiting| - 1 && (waiting - {id}).Keys <= waiting.Keys
  {
    assert waiting == (waiting - {id})[id := waiting[id]];
  }

  lemma ClosedPush(c: QueueConfig, from: System, s: System, event: Event)
    requires FrozenSince(from, s) && (event.Begin? || event.WakeUp?)
    ensures FrozenSince(from, Next(c, s, event))
  {
    hide Enter, Resume, Settle;
    if event.Begin? && event.id !in s.waiting {
      ClosedBegin(c, s, event);
    } else if event.WakeUp? && event.id in s.waiting {
      ClosedWakeUp(c, s, event);
      OneFewer(s.waiting, event.id);
    }
  }

  lemma ClosedStep(c: QueueConfig, from: System, s: System, event: Event)
    requires FrozenSince(from, s)
    ensures FrozenSince(from, Next(c, s, event))
  {
    if event.Begin? || event.WakeUp? {
      ClosedPush(c, from, s, event);
    } else if event.Pop? {
      assert s.q.items == s.q.items[..Min(1, |s.q.items|)] + Popped(s.q).items;
    }
  }

  /**
   Once closed, a queue accepts and rejects nothing more: every later push and every push that was
   waiting ends in Shutdown and is counted there, and the queued packets still come out, in order.
   */
  lemma {:induction false} ClosedForGood(c: QueueConfig, from: System, s: System, events: seq<Event>)
    requires FrozenSince(from, s)
    ensures FrozenSince(from, Run(c, s, events))
    decreases |events|
  {
    if events != [] {
      ClosedStep(c, from, s, events[0]);
      ClosedForGood(c, from, Next(c, s, events[0]), events[1..]);
    }
  }

  // ---------------------------------------------------------------- one blocking push

  /** One wait: when it began and the duration it asked for. */
  datatype Wait = Wait(at: nat, asked: nat)

  /** What a producer saw when its push ended: the queue, the time, how its last wait ended, and all its waits. */
  datatype Look = Look(q: QueueState, now: nat, timedOut: bool, waits: seq<Wait>)

  function LastLook(c: QueueConfig, look: Look, step: Step, p: IngressPacket, deadline: Option<nat>,
                    wakes: (nat, nat) -> Wake): Look
    requires step.Park? ==> Remaining(deadline, look.now) > 0
    decreases Remaining(deadline, look.now), step.Park?
  {
    match step
    case Done(_, _) => look
    case Park(_, asked) =>
      var w := wakes(|look.waits|, asked);
      var later := look.now + 1 + w.extraNs;
      var next := Resume(c, w.q, p, deadline, w.timedOut, later - look.now, later);
      LastLook(c, Look(w.q, later, w.timedOut, look.waits + [Wait(look.now, asked)]), next, p, deadline, wakes)
  }

  /** The last look of a whole push. */
  function WholeLook(c: QueueConfig, q: QueueState, p: IngressPacket, wait: WaitMode, start: nat,
                     wakes: (nat, nat) -> Wake): Look {
    LastLook(c, Look(q, start, false, []), Enter(c, q, p, wait, start), p, Deadline(c, wait, start), wakes)
  }

  /** Why a push may end as it does, given the last look it had at the queue. */
  ghost predicate Justified(c: QueueConfig, look: Look, p: IngressPacket, deadline: Option<nat>, r: Step) {
    r.Done? &&
    match r.outcome
    case Shutdown => look.q.closed && r.q.items == look.q.items
    case Rejected =>
      && !look.q.closed && r.q.items == look.q.items
      && (Oversized(c, p)
          || (|look.q.items| >= c.capacity
              && (c.policy == Reject
                  || (c.policy == BlockTimeout
                      && (look.timedOut || deadline.None? || look.now >= deadline.value)))))
    case _ =>
      && !look.q.closed && r.q.items != [] && r.q.items[|r.q.items| - 1] == p
      && r.outcome.depth == |r.q.items|
  }

  /** Every wait asked for exactly what was left until the one deadline, later ones for less. */
  ghost predicate AskedForTheRest(waits: seq<Wait>, deadline: Option<nat>, now: nat) {
    && (forall i :: 0 <= i < |waits| ==> waits[i].asked > 0 && deadline == Some(waits[i].at + waits[i].asked))
    && (forall i, j :: 0 <= i < j < |waits| ==> waits[j].asked < waits[i].asked)
    && (forall i :: 0 <= i < |waits| ==> waits[i].at < now)
  }

  /** One look after a wait parks again only with time left, and ends the push only for a reason. */
  lemma ResumeJustified(c: QueueConfig, look: Look, p: IngressPacket, deadline: Option<nat>, elapsed: nat)
    requires c.policy == BlockTimeout
    ensures var step := Resume(c, look.q, p, deadline, look.timedOut, elapsed, look.now);
            && (step.Park? ==> step.asked == Remaining(deadline, look.now) > 0)
            && (step.Done? ==> Justified(c, look, p, deadline, step))
  {
  }

  lemma {:induction false} PushEndsForAReason(c: QueueConfig, look: Look, step: Step, p: IngressPacket,
                                              deadline: Option<nat>, wakes: (nat, nat) -> Wake)
    requires step.Park? ==> step.asked == Remaining(deadline, look.now) > 0 && c.policy == BlockTimeout
    requires step.Done? ==> Justified(c, look, p, deadline, step)
    requires AskedForTheRest(look.waits, deadline, look.now)
    ensures var last := LastLook(c, look, step, p, deadline, wakes);
            && Justified(c, last, p, deadline, PushRun(c, step, p, deadline, look.now, wakes, |look.waits|))
            && AskedForTheRest(last.waits, deadline, last.now)
            && |last.waits| - |look.waits| <= Remaining(deadline, look.now)
    decreases Remaining(deadline, look.now), step.Park?
  {
    hide Resume, Justified;
    if step.Park? {
      var w := wakes(|look.waits|, step.asked);
      var later := look.now + 1 + w.extraNs;
      var next := Resume(c, w.q, p, deadline, w.timedOut, later - look.now, later);
      ResumeJustified(c, Look(w.q, later, w.timedOut, look.waits + [Wait(look.now, step.asked)]), p, deadline,
                      later - look.now);
      PushEndsForAReason(c, Look(w.q, later, w.timedOut, look.waits + [Wait(look.now, step.asked)]), next, p,
                         deadline, wakes);
    }
  }

  /**
   A push always ends, after at most `blockTimeout` waits however often it is woken or robbed of a
   slot, each of which asks for exactly the time left; it is rejected only for size, or for a full
   queue whose policy rejects, whose deadline has passed, or on which its last wait timed out.
   */
  lemma PushTerminates(c: QueueConfig, q: QueueState, p: IngressPacket, wait: WaitMode, start: nat,
                       wakes: (nat, nat) -> Wake)
    ensures var end := if wait == HonorPolicy && c.blockTimeout > 0 then Some(start + c.blockTimeout) else None;
            var last := WholeLook(c, q, p, wait, start, wakes);
            && Justified(c, last, p, end, WholePush(c, q, p, wait, start, wakes))
            && AskedForTheRest(last.waits, end, last.now)
            && |last.waits| <= (if wait == HonorPolicy then c.blockTimeout else 0)
  {
    PushEndsForAReason(c, Look(q, start, false, []), Enter(c, q, p, wait, start), p, Deadline(c, wait, start), wakes);
  }

  /**
   A blocking push on a full queue asks for the whole block timeout first; every wait asks to wake when
   it is over, and a rejection of a packet of admissible size comes only then, or on a wait that timed out.
   */
  lemma PushWaitsOut(c: QueueConfig, q: QueueState, p: IngressPacket, start: nat, wakes: (nat, nat) -> Wake)
    requires c.policy == BlockTimeout && !Oversized(c, p)
    ensures !q.closed && |q.items| >= c.capacity && c.blockTimeout > 0 ==>
              var first := Enter(c, q, p, HonorPolicy, start);
              first.Park? && first.asked == c.blockTimeout
    ensures var last, r := WholeLook(c, q, p, HonorPolicy, start, wakes), WholePush(c, q, p, HonorPolicy, start, wakes);
            && (r.outcome == Rejected ==> last.timedOut || last.now >= start + c.blockTimeout)
            && (forall i :: 0 <= i < |last.waits| ==>
                  last.waits[i].at + last.waits[i].asked == start + c.blockTimeout)
            && (last.waits != [] ==> last.waits[0] == Wait(start, c.blockTimeout))
  {
    PushTerminates(c, q, p, HonorPolicy, start, wakes);
    FirstWait(c, q, p, start, wakes);
  }

  lemma {:induction false} WaitsGrow(c: QueueConfig, look: Look, step: Step, p: IngressPacket, deadline: Option<nat>,
                                     wakes: (nat, nat) -> Wake)
    requires step.Park? ==> Remaining(deadline, look.now) > 0
    ensures look.waits <= LastLook(c, look, step, p, deadline, wakes).waits
    decreases Remaining(deadline, look.now), step.Park?
  {
    if step.Park? {
      var w := wakes(|look.waits|, step.asked);
      var later := look.now + 1 + w.extraNs;
      var next := Resume(c, w.q, p, deadline, w.timedOut, later - look.now, later);
      WaitsGrow(c, Look(w.q, later, w.timedOut, look.waits + [Wait(look.now, step.asked)]), next, p, deadline, wakes);
    }
  }

  lemma FirstWait(c: QueueConfig, q: QueueState, p: IngressPacket, start: nat, wakes: (nat, nat) -> Wake)
    ensures var waits := WholeLook(c, q, p, HonorPolicy, start, wakes).waits;
            waits != [] ==> waits[0] == Wait(start, c.blockTimeout)
  {
    var first, deadline := Enter(c, q, p, HonorPolicy, start), Deadline(c, HonorPolicy, start);
    if first.Park? {
      var w := wakes(0, first.asked);
      var later := start + 1 + w.extraNs;
      var next := Resume(c, w.q, p, deadline, w.timedOut, later - start, later);
      WaitsGrow(c, Look(w.q, later, w.timedOut, [] + [Wait(start, first.asked)]), next, p, deadline, wakes);
    }
  }
}
