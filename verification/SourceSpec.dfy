/**
 What the draining stimulus source makes of a stream of frames (src/backend.rs). A frame is reduced
 to the verdict of the wire decoder: a packet, a refusal, or a failed receive.
 */
module SourceSpec {
  import opened Prelude
  import opened IngressTypes

  const MAX_DRAIN_PER_TICK: nat := 32

  datatype Frame = Good(packet: IngressPacket) | Bad | Broken

  /** What a call hands to the tick. */
  datatype Outcome = Idle | Delivered(packet: IngressPacket) | Flagged(packet: IngressPacket) | Failed

  type Held = Option<seq<Float>>

  function FlaggedSkip(held: Held): Outcome {
    Flagged(IngressPacket.Default().(rejected := true, modulators := held))
  }

  // ---------------------------------------------------------------- the reference

  /** The modulators this frame would leave held, if it carries any that are accepted. */
  function Carries(f: Frame): Held {
    if f.Good? && f.packet.modulators.Some? && AllFinite(f.packet.modulators.value) then f.packet.modulators
    else None
  }

  /** The last accepted modulators in `frames`, or those held before. */
  function LastHeld(held: Held, frames: seq<Frame>): Held {
    if frames == [] then held
    else if Carries(frames[|frames| - 1]).Some? then Carries(frames[|frames| - 1])
    else LastHeld(held, frames[..|frames| - 1])
  }

  /** What one frame puts out when `held` is held before it: nothing for accepted modulators alone. */
  function Emit(held: Held, f: Frame): seq<Outcome> {
    match f
    case Broken => [Failed]
    case Bad => [FlaggedSkip(held)]
    case Good(p) =>
      if p.modulators.None? then [Delivered(p.(modulators := held))]
      else if !AllFinite(p.modulators.value) then [FlaggedSkip(held)]
      else if p.stimuli == [] then []
      else [Delivered(p)]
  }

  /** The outputs of a whole stream, frame by frame, with no notion of ticks. */
  function Deliver(held: Held, frames: seq<Frame>): seq<Outcome> {
    if frames == [] then []
    else
      var before := frames[..|frames| - 1];
      Deliver(held, before) + Emit(LastHeld(held, before), frames[|frames| - 1])
  }

  // ---------------------------------------------------------------- one call

  datatype Reception = Reception(outcome: Outcome, held: Held, rest: seq<Frame>)

  function Receive(held: Held, frames: seq<Frame>, budget: nat): Reception
    decreases budget
  {
    if budget == 0 || frames == [] then Reception(Idle, held, frames)
    else
      var f, rest := frames[0], frames[1..];
      match f
      case Broken => Reception(Failed, held, rest)
      case Bad => Reception(FlaggedSkip(held), held, rest)
      case Good(p) =>
        if p.modulators.None? then Reception(Delivered(p.(modulators := held)), held, rest)
        else if !AllFinite(p.modulators.value) then Reception(FlaggedSkip(held), held, rest)
        else if p.stimuli == [] then Receive(p.modulators, rest, budget - 1)
        else Reception(Delivered(p), p.modulators, rest)
  }

  /** One frame of a call. */
  lemma ReceiveOne(held: Held, frames: seq<Frame>, budget: nat)
    ensures Receive(held, frames, budget) ==
            if budget == 0 || frames == [] then Reception(Idle, held, frames)
            else
              match frames[0]
              case Broken => Reception(Failed, held, frames[1..])
              case Bad => Reception(FlaggedSkip(held), held, frames[1..])
              case Good(p) =>
                if p.modulators.None? then Reception(Delivered(p.(modulators := held)), held, frames[1..])
                else if !AllFinite(p.modulators.value) then Reception(FlaggedSkip(held), held, frames[1..])
                else if p.stimuli == [] then Receive(p.modulators, frames[1..], budget - 1)
                else Reception(Delivered(p), p.modulators, frames[1..])
  {
  }

  /** What the tick gets: an idle call still replays held modulators. */
  function PacketOf(r: Reception): Option<IngressPacket> {
    match r.outcome
    case Idle => if r.held.None? then None else Some(IngressPacket.Default().(modulators := r.held))
    case Delivered(p) => Some(p)
    case Flagged(p) => Some(p)
    case Failed => None
  }

  /** The outputs of a call: an idle one puts nothing out. */
  function Put(o: Outcome): seq<Outcome> {
    if o.Idle? then [] else [o]
  }

  // ---------------------------------------------------------------- many calls

  datatype Served = Served(outcomes: seq<Outcome>, held: Held, queued: seq<Frame>)

  /** Before each call, with its budget of frames, some more arrive; idle calls put nothing out. */
  function Serve(held: Held, queued: seq<Frame>, arrivals: seq<seq<Frame>>, budget: nat): Served
    decreases |arrivals|
  {
    if arrivals == [] then Served([], held, queued)
    else
      var r := Receive(held, queued + arrivals[0], budget);
      var later := Serve(r.held, r.rest, arrivals[1..], budget);
      later.(outcomes := Put(r.outcome) + later.outcomes)
  }

  function Concat(arrivals: seq<seq<Frame>>): seq<Frame> {
    if arrivals == [] then [] else arrivals[0] + Concat(arrivals[1..])
  }

  // ---------------------------------------------------------------- proofs

  lemma Assoc<T>(a: seq<T>, b: seq<T>, c: seq<T>)
    ensures (a + b) + c == a + (b + c)
  {
  }

  lemma {:induction false} HeldSplits(held: Held, a: seq<Frame>, b: seq<Frame>)
    ensures LastHeld(held, a + b) == LastHeld(LastHeld(held, a), b)
    decreases |b|
  {
    if b == [] {
      assert a + b == a;
    } else {
      assert (a + b)[..|a + b| - 1] == a + b[..|b| - 1];
      HeldSplits(held, a, b[..|b| - 1]);
    }
  }

  lemma {:induction false} DeliverSplits(held: Held, a: seq<Frame>, b: seq<Frame>)
    ensures Deliver(held, a + b) == Deliver(held, a) + Deliver(LastHeld(held, a), b)
    decreases |b|
  {
    if b == [] {
      assert a + b == a;
    } else {
      var front, last := b[..|b| - 1], b[|b| - 1];
      assert (a + b)[..|a + b| - 1] == a + front && (a + b)[|a + b| - 1] == last;
      DeliverSplits(held, a, front);
      HeldSplits(held, a, front);
      var mid := LastHeld(held, a);
      Assoc(Deliver(held, a), Deliver(mid, front), Emit(LastHeld(mid, front), last));
    }
  }

  lemma DeliverOne(held: Held, f: Frame, rest: seq<Frame>)
    ensures Deliver(held, [f] + rest) == Emit(held, f) + Deliver(LastHeld(held, [f]), rest)
    ensures LastHeld(held, [f]) == if Carries(f).Some? then Carries(f) else held
  {
    assert [f][..0] == [];
    DeliverSplits(held, [f], rest);
  }

  /** A call whose last frame was the first, or that took none. */
  lemma StopFollows(held: Held, frames: seq<Frame>, budget: nat)
    requires budget == 0 || frames == [] || Emit(held, frames[0]) != []
    ensures var r := Receive(held, frames, budget);
            && (if budget == 0 || frames == [] then r.rest == frames && r.held == held && r.outcome.Idle?
                else r.rest == frames[1..] && r.held == LastHeld(held, frames[..1])
                     && Put(r.outcome) == Emit(held, frames[0]))
  {
    if budget > 0 && frames != [] {
      assert frames[..1] == [frames[0]] && frames[..1][..0] == [];
    }
  }

  /** One call takes a prefix of the stream, at least one frame if there is any and at most `budget`. */
  lemma {:induction false} ReceiveTakesPrefix(held: Held, frames: seq<Frame>, budget: nat)
    ensures var r := Receive(held, frames, budget);
            && |r.rest| <= |frames| <= |r.rest| + budget
            && (frames != [] && budget > 0 ==> |r.rest| < |frames|)
            && r.rest == frames[|frames| - |r.rest|..]
    decreases budget
  {
    hide Receive;
    ReceiveOne(held, frames, budget);
    if budget > 0 && frames != [] && Emit(held, frames[0]) == [] {
      ReceiveTakesPrefix(frames[0].packet.modulators, frames[1..], budget - 1);
    }
  }

  /** One call puts out what the reference says comes next and holds what it says is held. */
  lemma {:induction false} ReceiveFollows(held: Held, frames: seq<Frame>, budget: nat, more: seq<Frame>)
    ensures var r := Receive(held, frames, budget);
            && Put(r.outcome) + Deliver(r.held, r.rest + more) == Deliver(held, frames + more)
            && LastHeld(r.held, r.rest + more) == LastHeld(held, frames + more)
    decreases budget
  {
    hide Receive;
    StopOrGo(held, frames, budget);
    if budget > 0 && frames != [] {
      var f, rest := frames[0], frames[1..];
      assert frames + more == [f] + (rest + more);
      DeliverOne(held, f, rest + more);
      HeldSplits(held, [f], rest + more);
      if Emit(held, f) == [] {
        ReceiveFollows(f.packet.modulators, rest, budget - 1, more);
      } else {
        StopFollows(held, frames, budget);
        assert frames[..1] == [f];
      }
    }
  }

  lemma StopOrGo(held: Held, frames: seq<Frame>, budget: nat)
    ensures budget == 0 || frames == [] ==> Receive(held, frames, budget) == Reception(Idle, held, frames)
    ensures budget > 0 && frames != [] && Emit(held, frames[0]) == [] ==>
              && frames[0].Good? && Carries(frames[0]) == frames[0].packet.modulators
              && Receive(held, frames, budget) == Receive(frames[0].packet.modulators, frames[1..], budget - 1)
  {
  }

  lemma ServeOne(held: Held, queued: seq<Frame>, arrivals: seq<seq<Frame>>, budget: nat)
    returns (put: seq<Outcome>, held1: Held, rest: seq<Frame>)
    requires arrivals != []
    ensures var later := Serve(held1, rest, arrivals[1..], budget);
            Serve(held, queued, arrivals, budget) == later.(outcomes := put + later.outcomes)
    ensures put + Deliver(held1, rest + Concat(arrivals[1..])) == Deliver(held, queued + Concat(arrivals))
    ensures LastHeld(held1, rest + Concat(arrivals[1..])) == LastHeld(held, queued + Concat(arrivals))
  {
    var r := Receive(held, queued + arrivals[0], budget);
    put, held1, rest := Put(r.outcome), r.held, r.rest;
    ReceiveFollows(held, queued + arrivals[0], budget, Concat(arrivals[1..]));
    Assoc(queued, arrivals[0], Concat(arrivals[1..]));
  }

  /**
   Delivery does not depend on when frames arrive relative to ticks: however a stream is split over
   calls, what has been put out followed by what the queued frames will put out is the reference,
   and the held modulators are the last accepted ones.
   */
  lemma {:induction false} DeliveryIgnoresTicks(held: Held, queued: seq<Frame>, arrivals: seq<seq<Frame>>,
                                                budget: nat)
    ensures var s := Serve(held, queued, arrivals, budget);
            && s.outcomes + Deliver(s.held, s.queued) == Deliver(held, queued + Concat(arrivals))
            && LastHeld(s.held, s.queued) == LastHeld(held, queued + Concat(arrivals))
    decreases |arrivals|
  {
    if arrivals == [] {
      assert queued + Concat(arrivals) == queued;
    } else {
      var put, held1, rest := ServeOne(held, queued, arrivals, budget);
      DeliveryIgnoresTicks(held1, rest, arrivals[1..], budget);
      var s := Serve(held1, rest, arrivals[1..], budget);
      Assoc(put, s.outcomes, Deliver(s.held, s.queued));
    }
  }

  /** Enough further calls deliver everything: nothing is left queued and the outputs are the reference. */
  lemma {:induction false} EverythingComesOut(held: Held, queued: seq<Frame>, arrivals: seq<seq<Frame>>,
                                                budget: nat)
    requires budget > 0 && |arrivals| >= |queued| && forall i :: 0 <= i < |arrivals| ==> arrivals[i] == []
    ensures var s := Serve(held, queued, arrivals, budget);
            s.queued == [] && s.outcomes == Deliver(held, queued)
    decreases |arrivals|
  {
    if arrivals != [] {
      var r := Receive(held, queued, budget);
      ReceiveTakesPrefix(held, queued, budget);
      ReceiveFollows(held, queued, budget, []);
      assert queued + arrivals[0] == queued && queued + [] == queued && r.rest + [] == r.rest;
      EverythingComesOut(r.held, r.rest, arrivals[1..], budget);
    }
  }

  /** The frames a call consumed. */
  function Consumed(frames: seq<Frame>, r: Reception): seq<Frame>
    requires |r.rest| <= |frames|
  {
    frames[..|frames| - |r.rest|]
  }

  lemma ConsumedOneMore(frames: seq<Frame>, r: Reception)
    requires |r.rest| < |frames|
    ensures Consumed(frames, r) == [frames[0]] + Consumed(frames[1..], r)
  {
  }

  /** A call holds what the frames it consumed leave held; it is idle exactly if they put nothing out. */
  lemma {:induction false} HoldsTheLast(held: Held, frames: seq<Frame>, budget: nat)
    ensures var r := Receive(held, frames, budget);
            && |r.rest| <= |frames| && r.held == LastHeld(held, Consumed(frames, r))
            && (r.outcome.Idle? <==> Deliver(held, Consumed(frames, r)) == [])
    decreases budget
  {
    hide Receive;
    ReceiveOne(held, frames, budget);
    var r := Receive(held, frames, budget);
    if budget > 0 && frames != [] {
      var f, rest := frames[0], frames[1..];
      if Emit(held, f) == [] {
        HoldsTheLast(f.packet.modulators, rest, budget - 1);
        assert r == Receive(f.packet.modulators, rest, budget - 1);
        ConsumedOneMore(frames, r);
        DeliverOne(held, f, Consumed(rest, r));
        HeldSplits(held, [f], Consumed(rest, r));
      } else {
        assert r.rest == rest;
        ConsumedOneMore(frames, r);
        assert Consumed(rest, r) == [];
        DeliverOne(held, f, []);
      }
    }
  }

  /**
   An idle call replays the held modulators: it hands out a packet with nothing but the last accepted
   ones, unflagged, or nothing if none were ever accepted. A flagged packet carries them as well.
   */
  lemma IdleReplaysHeld(held: Held, frames: seq<Frame>, budget: nat)
    ensures var r := Receive(held, frames, budget);
            && |r.rest| <= |frames|
            && var last := LastHeld(held, Consumed(frames, r));
            && (r.outcome.Idle? ==>
                  PacketOf(r) == if last.None? then None
                                 else Some(IngressPacket([], last, None, None, None, None, false)))
            && (r.outcome.Flagged? ==>
                  PacketOf(r) == Some(IngressPacket([], last, None, None, None, None, true)))
            && (r.outcome.Failed? ==> PacketOf(r).None?)
  {
    HoldsTheLast(held, frames, budget);
    FlaggedSays(held, frames, budget);
  }

  lemma {:induction false} FlaggedSays(held: Held, frames: seq<Frame>, budget: nat)
    ensures var r := Receive(held, frames, budget);
            r.outcome.Flagged? ==> r.outcome.packet == IngressPacket([], r.held, None, None, None, None, true)
    decreases budget
  {
    hide Receive;
    ReceiveOne(held, frames, budget);
    if budget > 0 && frames != [] && Emit(held, frames[0]) == [] {
      FlaggedSays(frames[0].packet.modulators, frames[1..], budget - 1);
    }
  }

  /** Frames the wire decoder refused, or whose modulators are not finite. */
  function Refused(frames: seq<Frame>): nat {
    if frames == [] then 0
    else
      var f := frames[|frames| - 1];
      Refused(frames[..|frames| - 1])
      + (if f.Bad? || (f.Good? && f.packet.modulators.Some? && !AllFinite(f.packet.modulators.value)) then 1 else 0)
  }

  function Flags(outcomes: seq<Outcome>): nat {
    if outcomes == [] then 0
    else Flags(outcomes[..|outcomes| - 1]) + (if outcomes[|outcomes| - 1].Flagged? then 1 else 0)
  }

  lemma {:induction false} FlagsSplit(a: seq<Outcome>, b: seq<Outcome>)
    ensures Flags(a + b) == Flags(a) + Flags(b)
    decreases |b|
  {
    if b == [] {
      assert a + b == a;
    } else {
      assert (a + b)[..|a + b| - 1] == a + b[..|b| - 1];
      FlagsSplit(a, b[..|b| - 1]);
    }
  }

  lemma FlagsOfEmit(held: Held, f: Frame)
    ensures Flags(Emit(held, f)) == Refused([f])
  {
    assert [f][..0] == [];
    var out := Emit(held, f);
    assert out != [] ==> out[..0] == [];
  }

  /** Every refused frame comes out as one flagged packet, and nothing else does. */
  lemma {:induction false} OneFlagPerRefusal(held: Held, frames: seq<Frame>)
    ensures Flags(Deliver(held, frames)) == Refused(frames)
  {
    hide Emit, LastHeld;
    if frames != [] {
      var before, f := frames[..|frames| - 1], frames[|frames| - 1];
      OneFlagPerRefusal(held, before);
      FlagsSplit(Deliver(held, before), Emit(LastHeld(held, before), f));
      FlagsOfEmit(LastHeld(held, before), f);
      assert [f][..0] == [];
    }
  }

  /** A frame with nothing but accepted modulators does not end a call. */
  predicate Silent(f: Frame) {
    f.Good? && f.packet.stimuli == [] && Carries(f).Some?
  }

  lemma {:induction false} SilentFramesDrain(held: Held, frames: seq<Frame>, budget: nat)
    requires forall f :: f in frames ==> Silent(f)
    ensures var r := Receive(held, frames, budget);
            r.outcome.Idle? && |frames| - |r.rest| == Min(|frames|, budget)
    decreases budget
  {
    hide Receive;
    ReceiveOne(held, frames, budget);
    if budget > 0 && frames != [] {
      assert frames[0] in frames;
      SilentFramesDrain(frames[0].packet.modulators, frames[1..], budget - 1);
    }
  }

  /** Of frames that do not end it, a call takes thirty-two. */
  lemma CallDrains32(held: Held, frames: seq<Frame>)
    requires forall f :: f in frames ==> Silent(f)
    ensures |frames| - |Receive(held, frames, MAX_DRAIN_PER_TICK).rest| == if |frames| <= 32 then |frames| else 32
  {
    hide Receive;
    SilentFramesDrain(held, frames, MAX_DRAIN_PER_TICK);
  }

  ghost predicate HeldOk(held: Held) {
    held.None? || AllFinite(held.value)
  }

  /** Held modulators stay finite, so no call hands out non-finite modulators. */
  lemma {:induction false} HeldStaysFinite(held: Held, frames: seq<Frame>, budget: nat)
    requires HeldOk(held)
    ensures var r := Receive(held, frames, budget);
            && HeldOk(r.held)
            && (PacketOf(r).Some? ==> HeldOk(PacketOf(r).value.modulators))
    decreases budget
  {
    hide Receive;
    ReceiveOne(held, frames, budget);
    if budget > 0 && frames != [] && Emit(held, frames[0]) == [] {
      HeldStaysFinite(frames[0].packet.modulators, frames[1..], budget - 1);
    }
  }
}
