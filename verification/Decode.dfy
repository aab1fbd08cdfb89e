/**
 From a packet to what the network steps on (src/daemon.rs), the experiment drivers' own decoder
 (examples/usefulness_inprocess.rs) and the input variants they compare
 (examples/usefulness_secondary_common/mod.rs). Both decoders write one reused buffer in place.
 */
module Decode {
  import opened Prelude
  import opened IngressTypes

  datatype NeuroModulators = NeuroModulators(
    dopamine: Float, serotonin: Float, acetylcholine: Float, norepinephrine: Float)
  {
    predicate IsFinite() {
      dopamine.IsFinite() && serotonin.IsFinite() && acetylcholine.IsFinite() && norepinephrine.IsFinite()
    }
  }

  type Mask = Option<seq<bool>>

  predicate MaskedOut(mask: Mask, i: nat) {
    mask.Some? && i < |mask.value| && !mask.value[i]
  }

  /** Channel `i`: the value if there is one and it is not masked out, else zero. */
  function ChannelValue(values: seq<Float>, mask: Mask, i: nat): Float {
    if i < |values| && !MaskedOut(mask, i) then values[i] else ZERO
  }

  function Decoded(values: seq<Float>, mask: Mask, channels: nat): (out: seq<Float>)
    ensures |out| == channels && forall i :: 0 <= i < channels ==> out[i] == ChannelValue(values, mask, i)
  {
    seq(channels, i requires 0 <= i => ChannelValue(values, mask, i))
  }

  /** Four or more modulator values are read by position; fewer, or none, mean the defaults. */
  function DecodedModulators(mods: Option<seq<Float>>, defaults: NeuroModulators): NeuroModulators {
    if mods.Some? && |mods.value| >= NEUROMODULATOR_COUNT then
      NeuroModulators(mods.value[0], mods.value[1], mods.value[2], mods.value[3])
    else defaults
  }

  /** A channel reads its value unless it lies beyond the values or the mask says no; a short mask says nothing more. */
  lemma ChannelReads(values: seq<Float>, mask: Mask, channels: nat, i: nat)
    requires i < channels
    ensures Decoded(values, mask, channels)[i] ==
            if i < |values| && (mask.None? || i >= |mask.value| || mask.value[i]) then values[i] else Finite(0.0)
  {
  }

  /** Dopamine, serotonin, acetylcholine and norepinephrine in this order, or all four defaults. */
  lemma ModulatorsRead(mods: Option<seq<Float>>, defaults: NeuroModulators)
    ensures var m := DecodedModulators(mods, defaults);
            if mods.Some? && |mods.value| >= 4 then
              && m.dopamine == mods.value[0] && m.serotonin == mods.value[1]
              && m.acetylcholine == mods.value[2] && m.norepinephrine == mods.value[3]
            else m == defaults
  {
  }

  /** Zeroes the masked channels of `buf`, leaving the others. */
  method ApplyMask(mask: seq<bool>, buf: array<Float>)
    modifies buf
    ensures forall i :: 0 <= i < buf.Length ==>
              buf[i] == if MaskedOut(Some(mask), i) then ZERO else old(buf[i])
  {
    var i := 0;
    while i < |mask| && i < buf.Length
      invariant 0 <= i <= |mask| && i <= buf.Length
      invariant forall j :: 0 <= j < i ==> buf[j] == if MaskedOut(Some(mask), j) then ZERO else old(buf[j])
      invariant forall j :: i <= j < buf.Length ==> buf[j] == old(buf[j])
    {
      if !mask[i] {
        buf[i] := ZERO;
      }
      i := i + 1;
    }
  }

  /** The daemon's decoder: copy what fits, fill the rest with zeros, then mask. Nothing old is left. */
  method DecodeInputs(packet: IngressPacket, buf: array<Float>, defaults: NeuroModulators)
    returns (modulators: NeuroModulators)
    modifies buf
    ensures buf[..] == Decoded(packet.stimuli, packet.validMask, buf.Length)
    ensures modulators == DecodedModulators(packet.modulators, defaults)
  {
    var upto := Min(|packet.stimuli|, buf.Length);
    forall i | 0 <= i < upto {
      buf[i] := packet.stimuli[i];
    }
    if |packet.stimuli| < buf.Length {
      forall i | upto <= i < buf.Length {
        buf[i] := ZERO;
      }
    }
    if packet.validMask.Some? {
      ApplyMask(packet.validMask.value, buf);
    }
    if packet.modulators.Some? && |packet.modulators.value| >= NEUROMODULATOR_COUNT {
      var mods := packet.modulators.value;
      return NeuroModulators(mods[0], mods[1], mods[2], mods[3]);
    }
    modulators := defaults;
  }

  // ---------------------------------------------------------------- the drivers' decoder

  datatype EventModulators = EventModulators(dopamine: Float, cortisol: Float, acetylcholine: Float, tempo: Float)

  datatype Event = Event(values: seq<Float>, validMask: Mask, modulators: Option<EventModulators>)

  /** The wire order of the modulators. */
  function WireModulators(m: Option<EventModulators>): Option<seq<Float>> {
    if m.None? then None
    else Some([m.value.dopamine, m.value.cortisol, m.value.acetylcholine, m.value.tempo])
  }

  /** The packet that carries an event to the daemon; no event is an empty packet. */
  function EventPacket(event: Option<Event>): IngressPacket {
    if event.None? then IngressPacket.Default()
    else
      IngressPacket.Default().(stimuli := event.value.values, validMask := event.value.validMask,
                               modulators := WireModulators(event.value.modulators))
  }

  /** What the network reads of an event: its values under its mask, and its modulators in the order of the daemon's. */
  lemma EventReads(event: Event, channels: nat, defaults: NeuroModulators)
    ensures var p := EventPacket(Some(event));
            && Decoded(p.stimuli, p.validMask, channels) == Decoded(event.values, event.validMask, channels)
            && DecodedModulators(p.modulators, defaults)
               == (if event.modulators.None? then defaults
                   else
                     var m := event.modulators.value;
                     NeuroModulators(m.dopamine, m.cortisol, m.acetylcholine, m.tempo))
    ensures var p := EventPacket(None);
            Decoded(p.stimuli, p.validMask, channels) == seq(channels, _ => Finite(0.0))
            && DecodedModulators(p.modulators, defaults) == defaults
  {
  }

  /** Agrees with DecodeInputs on the packet of the event, whatever either buffer held before. */
  method DecodeEvent(event: Option<Event>, buf: array<Float>, defaults: NeuroModulators)
    returns (modulators: NeuroModulators)
    modifies buf
    ensures buf[..] == Decoded(EventPacket(event).stimuli, EventPacket(event).validMask, buf.Length)
    ensures modulators == DecodedModulators(EventPacket(event).modulators, defaults)
  {
    forall i | 0 <= i < buf.Length {
      buf[i] := ZERO;
    }
    if event.None? {
      return defaults;
    }
    var e := event.value;
    var upto := Min(|e.values|, buf.Length);
    forall i | 0 <= i < upto {
      buf[i] := e.values[i];
    }
    if e.validMask.Some? {
      ApplyMask(e.validMask.value, buf);
    }
    if e.modulators.None? {
      return defaults;
    }
    var m := e.modulators.value;
    modulators := NeuroModulators(m.dopamine, m.cortisol, m.acetylcholine, m.tempo);
  }

  // ---------------------------------------------------------------- input variants

  datatype Variant = MainInput | Zeroed | Unmasked

  function ZipZero(values: seq<Float>, mask: seq<bool>): seq<Float> {
    seq(Min(|values|, |mask|), i requires 0 <= i < |values| && i < |mask| => if mask[i] then values[i] else ZERO)
  }

  function Variation(variant: Variant, values: seq<Float>, mask: Mask): (seq<Float>, Mask) {
    match variant
    case MainInput => (values, mask)
    case Zeroed => if mask.Some? then (ZipZero(values, mask.value), Some(seq(|mask.value|, _ => true))) else (values, None)
    case Unmasked => (values, None)
  }

  ghost predicate SameInputs(values: seq<Float>, mask: Mask) {
    var (zeroed, all) := Variation(Zeroed, values, mask);
    forall channels: nat :: Decoded(zeroed, all, channels) == Decoded(values, mask, channels)
  }

  /**
   Zeroing masked slots up front gives the network the same inputs as masking them in the decoder,
   at every channel count, exactly when the mask covers every nonzero value. Equal widths, which the
   drivers check when they load a workload, are enough.
   */
  lemma ZeroedIsMasked(values: seq<Float>, mask: Mask)
    ensures SameInputs(values, mask) <==>
              (mask.Some? ==> forall i :: |mask.value| <= i < |values| ==> values[i] == ZERO)
    ensures mask.None? || |mask.value| == |values| ==> SameInputs(values, mask)
  {
    var (zeroed, all) := Variation(Zeroed, values, mask);
    if mask.Some? {
      if i :| |mask.value| <= i < |values| && values[i] != ZERO {
        assert Decoded(zeroed, all, i + 1)[i] == ZERO && Decoded(values, mask, i + 1)[i] == values[i];
        assert !SameInputs(values, mask);
      } else {
        forall channels: nat
          ensures Decoded(zeroed, all, channels) == Decoded(values, mask, channels)
        {
        }
      }
    }
  }

  /** The mask matters: leaving it out changes what the network sees exactly when it hides a nonzero value. */
  lemma UnmaskedDiffers(values: seq<Float>, mask: Mask, channels: nat)
    ensures Variation(MainInput, values, mask) == (values, mask)
    ensures var (all, none) := Variation(Unmasked, values, mask);
            Decoded(all, none, channels) != Decoded(values, mask, channels) <==>
              exists i :: 0 <= i < |values| && i < channels && MaskedOut(mask, i) && values[i] != ZERO
  {
    var a, b := Decoded(values, None, channels), Decoded(values, mask, channels);
    if i :| 0 <= i < |values| && i < channels && MaskedOut(mask, i) && values[i] != ZERO {
      assert a[i] != b[i];
    } else {
      assert a == b;
    }
  }
}
