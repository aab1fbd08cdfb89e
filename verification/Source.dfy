/** The source: a socket drained without blocking, and the modulator vector it holds between ticks. */
module Source {
  import opened Prelude
  import opened IngressTypes
  import opened SourceSpec

  datatype Polled = Packet(packet: Option<IngressPacket>) | ReceiveError | NotInitialized

  class ZmqStimulusSource {
    var connected: bool
    /** What receive calls would yield, in order; empty means the socket would block. */
    var inbox: seq<Frame>
    var lastModulators: Option<seq<Float>>

    constructor ()
      ensures !connected && inbox == [] && lastModulators.None?
    {
      connected, inbox, lastModulators := false, [], None;
    }

    /** Idempotent on success. */
    method Initialize()
      modifies this`connected
      ensures connected
    {
      connected := true;
    }

    method HoldModulators(mods: seq<Float>) returns (held: bool)
      modifies this`lastModulators
      ensures held == AllFinite(mods)
      ensures lastModulators == if held then Some(mods) else old(lastModulators)
    {
      var i := 0;
      while i < |mods|
        invariant 0 <= i <= |mods|
        invariant forall j :: 0 <= j < i ==> mods[j].IsFinite()
      {
        if !mods[i].IsFinite() {
          assert mods[i] in mods;
          return false;
        }
        i := i + 1;
      }
      lastModulators := Some(mods);
      held := true;
    }

    method SkipIngress(rejected: bool) returns (packet: Option<IngressPacket>)
      ensures packet == if !rejected && lastModulators.None? then None
                        else Some(IngressPacket.Default().(rejected := rejected, modulators := lastModulators))
    {
      if !rejected && lastModulators.None? {
        return None;
      }
      packet := Some(IngressPacket.Default().(rejected := rejected, modulators := lastModulators));
    }

    method AttachHeldModulators(p: IngressPacket) returns (packet: IngressPacket)
      ensures packet == if p.modulators.None? then p.(modulators := lastModulators) else p
    {
      packet := p;
      if packet.modulators.None? {
        packet := packet.(modulators := lastModulators);
      }
    }

    /** At most 32 frames are taken; accepted modulators alone do not end the call. */
    method NextIngress() returns (polled: Polled)
      modifies this`inbox, this`lastModulators
      ensures !connected ==>
                polled == NotInitialized && inbox == old(inbox) && lastModulators == old(lastModulators)
      ensures connected ==>
                var r := Receive(old(lastModulators), old(inbox), MAX_DRAIN_PER_TICK);
                && inbox == r.rest && lastModulators == r.held
                && polled == if r.outcome.Failed? then ReceiveError else Packet(PacketOf(r))
    {
      hide Receive;
      if !connected {
        return NotInitialized;
      }
      for i := 0 to MAX_DRAIN_PER_TICK
        invariant Receive(lastModulators, inbox, MAX_DRAIN_PER_TICK - i)
               == Receive(old(lastModulators), old(inbox), MAX_DRAIN_PER_TICK)
      {
        ReceiveOne(lastModulators, inbox, MAX_DRAIN_PER_TICK - i);
        if inbox == [] {
          var skipped := SkipIngress(false);
          return Packet(skipped);
        }
        var frame := inbox[0];
        inbox := inbox[1..];
        match frame {
          case Broken =>
            return ReceiveError;
          case Bad =>
            var skipped := SkipIngress(true);
            return Packet(skipped);
          case Good(p) =>
            if p.modulators.Some? {
              var held := HoldModulators(p.modulators.value);
              if !held {
                var skipped := SkipIngress(true);
                return Packet(skipped);
              }
              if p.stimuli != [] {
                return Packet(Some(p));
              }
            } else {
              var packet := AttachHeldModulators(p);
              return Packet(Some(packet));
            }
        }
      }
      ReceiveOne(lastModulators, inbox, 0);
      var skipped := SkipIngress(false);
      polled := Packet(skipped);
    }
  }
}
