/** What one tick tells health, remembers of its batch, and reports through which limiter. */
module TickLaws {
  import opened Prelude
  import opened IngressTypes
  import opened QueueSpec
  import opened IngressSpec
  import opened HealthSpec
  import opened LimiterSpec
  import opened Decode
  import opened TickSpec
  import opened TickRuns

  // ---------------------------------------------------------------- what the gates let through

  /** A packet passes a gate exactly if every stimulus and every modulator in it is a number. */
  lemma GatesPassNumbers(p: IngressPacket)
    ensures PacketFinite(p) <==>
              && (forall i :: 0 <= i < |p.stimuli| ==> p.stimuli[i].Finite?)
              && (p.modulators.Some? ==> forall i :: 0 <= i < |p.modulators.value| ==> p.modulators.value[i].Finite?)
  {
    assert forall i :: 0 <= i < |p.stimuli| ==> p.stimuli[i] in p.stimuli;
    if p.modulators.Some? {
      assert forall i :: 0 <= i < |p.modulators.value| ==> p.modulators.value[i] in p.modulators.value;
    }
  }

  // ---------------------------------------------------------------- queue pressure

  /** How many packets a class may hold: one if it coalesces. */
  function Room(cfg: IngressConfig, k: MessageClass): nat
    requires cfg.Total()
  {
    if cfg.policy[k] == Coalesce then 1 else cfg.capacity[k]
  }

  /**
   A tick tells health how full the queues are after the drain: the depths and the capacities summed
   over the four classes. Overload sets in at the high watermark of the ratio, ends at the low one,
   and stays as it was in between.
   */
  lemma TickTellsPressure(cfg: IngressConfig, channels: nat, d: Daemon, o: Outside)
    requires cfg.Total() && cfg.Validate() && LimitsOk(d.health.limits)
    ensures var d' := Tick(cfg, channels, d, o);
            var depth := |d'.ingress.sensory.items| + |d'.ingress.reward.items| + |d'.ingress.control.items|
                         + |d'.ingress.telemetry.items|;
            var capacity := Room(cfg, Sensory) + Room(cfg, Reward) + Room(cfg, Control) + Room(cfg, Telemetry);
            && capacity > 0 && d'.health.queueDepth == depth && d'.health.queueCapacity == capacity
            && d'.health.overloaded ==
               if depth as real / capacity as real >= d.health.limits.overloadHigh.r then true
               else if depth as real / capacity as real <= d.health.limits.overloadLow.r then false
               else d.health.overloaded
  {
    hide DiagnosticKey, StepPhase, InputPhase;
    var d1 := InputPhase(cfg, d, o);
    var d2 := DrainPhase(cfg, d1, o.clock(3));
    InputStamps(cfg, d, o);
    StepKeepsIngress(d2, IntoPacket(DrainedOf(d1.ingress)), channels, o);
    StepKeepsPressure(d2, IntoPacket(DrainedOf(d1.ingress)), channels, o);
    DrainTellsPressure(cfg, d1, o.clock(3));
  }

  lemma DrainTellsPressure(cfg: IngressConfig, d: Daemon, now: nat)
    requires cfg.Total() && cfg.Validate() && LimitsOk(d.health.limits)
    ensures var d' := DrainPhase(cfg, d, now);
            var depth := |d'.ingress.sensory.items| + |d'.ingress.reward.items| + |d'.ingress.control.items|
                         + |d'.ingress.telemetry.items|;
            var capacity := Room(cfg, Sensory) + Room(cfg, Reward) + Room(cfg, Control) + Room(cfg, Telemetry);
            && capacity > 0 && d'.health.queueDepth == depth && d'.health.queueCapacity == capacity
            && d'.health.overloaded ==
               if depth as real / capacity as real >= d.health.limits.overloadHigh.r then true
               else if depth as real / capacity as real <= d.health.limits.overloadLow.r then false
               else d.health.overloaded
  {
    hide NextOverload;
    var ingress := AfterDrain(d.ingress);
    OverloadStep(d.health.overloaded, ingress.Depth(), TotalCapacity(cfg), d.health.limits.overloadHigh.r,
                 d.health.limits.overloadLow.r);
  }

  ghost predicate SamePressure(h: HealthState, h': HealthState) {
    h'.queueDepth == h.queueDepth && h'.queueCapacity == h.queueCapacity && h'.overloaded == h.overloaded
  }

  lemma StepKeepsPressure(d: Daemon, p: IngressPacket, channels: nat, o: Outside)
    ensures SamePressure(d.health, StepPhase(d, p, channels, o).health)
  {
    hide DiagnosticKey, SpikePhase;
    if PacketFinite(p) {
      match o.network(Decoded(p.stimuli, p.validMask, channels), DecodedModulators(p.modulators, o.defaults)) {
        case StepError(_) =>
        case Spikes(ids) => SpikeKeepsPressure(d, ids, o);
      }
    }
  }

  lemma SpikeKeepsPressure(d: Daemon, ids: seq<nat>, o: Outside)
    ensures SamePressure(d.health, SpikePhase(d, ids, o).health)
  {
    hide DiagnosticKey;
  }

  // ---------------------------------------------------------------- the batch, the fatal report, the spikes

  /** The last accepted batch and its mask are remembered, and no other packet touches them. */
  lemma TickRemembersBatch(cfg: IngressConfig, channels: nat, d: Daemon, o: Outside)
    requires cfg.Total()
    ensures var s' := Tick(cfg, channels, d, o).stats;
            && s'.lastBatchId == (if Accepts(o) then o.received.packet.batchId else d.stats.lastBatchId)
            && s'.lastValidMask == (if Accepts(o) then o.received.packet.validMask else d.stats.lastValidMask)
  {
    hide DiagnosticKey, StepPhase, Record;
    var d1 := InputPhase(cfg, d, o);
    StepKeepsBatch(DrainPhase(cfg, d1, o.clock(3)), IntoPacket(DrainedOf(d1.ingress)), channels, o);
  }

  ghost predicate SameBatch(s: Stats, s': Stats) {
    s'.lastBatchId == s.lastBatchId && s'.lastValidMask == s.lastValidMask
  }

  lemma StepKeepsBatch(d: Daemon, p: IngressPacket, channels: nat, o: Outside)
    ensures SameBatch(d.stats, StepPhase(d, p, channels, o).stats)
  {
    hide DiagnosticKey, SpikePhase, Record;
    if PacketFinite(p) {
      match o.network(Decoded(p.stimuli, p.validMask, channels), DecodedModulators(p.modulators, o.defaults)) {
        case StepError(_) =>
        case Spikes(ids) => SpikeKeepsBatch(d, ids, o);
      }
    }
  }

  lemma SpikeKeepsBatch(d: Daemon, ids: seq<nat>, o: Outside)
    ensures SameBatch(d.stats, SpikePhase(d, ids, o).stats)
  {
    hide DiagnosticKey, Record;
  }

  /** What went wrong in the work of a tick: the network's error, or the sink's. */
  function Trouble(p: IngressPacket, channels: nat, o: Outside): Option<string> {
    if !PacketFinite(p) then None
    else
      match o.network(Decoded(p.stimuli, p.validMask, channels), DecodedModulators(p.modulators, o.defaults))
      case StepError(detail) => Some(detail)
      case Spikes(ids) => if SinkFails(ids, o) then o.sink(Kept(ids)) else None
  }

  /** The first trouble of the network or the sink becomes the fatal report, in its own words. */
  lemma FatalTellsTrouble(cfg: IngressConfig, channels: nat, d: Daemon, o: Outside)
    requires cfg.Total() && d.health.fatal.None?
    ensures var trouble := Trouble(WorkOf(cfg, d, o), channels, o);
            Tick(cfg, channels, d, o).health.fatal ==
            if trouble.Some? then Some(FatalState(Unspecified, trouble.value)) else None
  {
    hide DiagnosticKey, StepPhase, InputPhase;
    InputStamps(cfg, d, o);
    StepTrouble(DrainPhase(cfg, InputPhase(cfg, d, o), o.clock(3)), WorkOf(cfg, d, o), channels, o);
  }

  lemma StepTrouble(d: Daemon, p: IngressPacket, channels: nat, o: Outside)
    requires d.health.fatal.None?
    ensures var trouble := Trouble(p, channels, o);
            StepPhase(d, p, channels, o).health.fatal ==
            if trouble.Some? then Some(FatalState(Unspecified, trouble.value)) else None
  {
    hide DiagnosticKey, SpikePhase;
    if PacketFinite(p) {
      match o.network(Decoded(p.stimuli, p.validMask, channels), DecodedModulators(p.modulators, o.defaults)) {
        case StepError(_) =>
        case Spikes(ids) => SpikeTrouble(d, ids, o);
      }
    }
  }

  lemma SpikeTrouble(d: Daemon, ids: seq<nat>, o: Outside)
    requires d.health.fatal.None?
    ensures SpikePhase(d, ids, o).health.fatal ==
            if SinkFails(ids, o) then Some(FatalState(Unspecified, o.sink(Kept(ids)).value)) else None
  {
    hide DiagnosticKey, Record;
  }

  /** The ids that fit go out in the order the network gave them. */
  lemma {:induction false} KeptInOrder(a: seq<nat>, b: seq<nat>)
    ensures Kept(a + b) == Kept(a) + Kept(b)
    ensures forall id: nat :: Kept([id]) == if id <= 65_535 then [id] else []
    decreases |b|
  {
    assert forall id: nat :: [id][..0] == [];
    if b == [] {
      assert a + b == a;
    } else {
      assert (a + b)[..|a + b| - 1] == a + b[..|b| - 1];
      KeptInOrder(a, b[..|b| - 1]);
    }
  }

  // ---------------------------------------------------------------- reports and their limiters

  /** The limiters after the input phase: each kind of report goes through its own, under its own key. */
  lemma InputReports(cfg: IngressConfig, d: Daemon, o: Outside)
    requires cfg.Total()
    ensures InputPhase(cfg, d, o).diag == d.diag.(
              receive := if o.received.ReceiveError?
                         then Record(d.diag.receive, DiagnosticKey(o.received.message), o.clock(0)).s
                         else d.diag.receive,
              nonFinite := if Gated(o)
                           then Record(d.diag.nonFinite, DiagnosticKey("rejected non-finite ingress"), o.clock(1)).s
                           else d.diag.nonFinite)
  {
    hide DiagnosticKey, Record, AdmitBackend;
  }

  /** And after the work of the tick. */
  lemma WorkReports(d: Daemon, p: IngressPacket, channels: nat, o: Outside)
    ensures var diag, e := d.diag, EndingOf(p, channels, o);
            var trouble := Trouble(p, channels, o);
            StepPhase(d, p, channels, o).diag == diag.(
              nonFinite := if e.Skipped?
                           then Record(diag.nonFinite, DiagnosticKey("rejected non-finite ingress"), o.clock(4)).s
                           else diag.nonFinite,
              dropped := if e.Stepped? && e.dropped > 0
                         then Record(diag.dropped, DiagnosticKey("dropped spikes with out-of-range IDs"), o.clock(6)).s
                         else diag.dropped,
              emit := if e.Stepped? && e.emitError
                      then Record(diag.emit, DiagnosticKey(trouble.value), o.clock(7)).s
                      else diag.emit)
  {
    hide DiagnosticKey, Record, SpikePhase;
    if PacketFinite(p) {
      match o.network(Decoded(p.stimuli, p.validMask, channels), DecodedModulators(p.modulators, o.defaults)) {
        case StepError(_) =>
        case Spikes(ids) => SpikeReports(d, ids, o);
      }
    }
  }

  lemma SpikeReports(d: Daemon, ids: seq<nat>, o: Outside)
    ensures SpikePhase(d, ids, o).diag == d.diag.(
              dropped := if |Kept(ids)| < |ids|
                         then Record(d.diag.dropped, DiagnosticKey("dropped spikes with out-of-range IDs"),
                                     o.clock(6)).s
                         else d.diag.dropped,
              emit := if SinkFails(ids, o)
                      then Record(d.diag.emit, DiagnosticKey(o.sink(Kept(ids)).value), o.clock(7)).s
                      else d.diag.emit)
  {
    hide DiagnosticKey, Record;
  }

  // ---------------------------------------------------------------- the key of a message

  /** The code point that UTF-8 bytes stand for. */
  function CodePoint(bytes: seq<int>): int {
    if |bytes| == 1 then bytes[0]
    else if |bytes| == 2 then (bytes[0] - 0xC0) * 64 + (bytes[1] - 0x80)
    else if |bytes| == 3 then (bytes[0] - 0xE0) * 4096 + (bytes[1] - 0x80) * 64 + (bytes[2] - 0x80)
    else if |bytes| == 4 then
      (bytes[0] - 0xF0) * 262_144 + (bytes[1] - 0x80) * 4096 + (bytes[2] - 0x80) * 64 + (bytes[3] - 0x80)
    else -1
  }

  /** The bytes of a character decode to it, and every byte after the first is a continuation byte. */
  lemma Utf8Decodes(c: char)
    ensures var bytes := Utf8(c);
            && CodePoint(bytes) == c as int
            && (forall i :: 0 <= i < |bytes| ==> bytes[i] < 256)
            && (forall i :: 1 <= i < |bytes| ==> 0x80 <= bytes[i] < 0xC0)
            && (|bytes| == 1 <==> c as int < 0x80) && (|bytes| <= 2 <==> c as int < 0x800)
            && (|bytes| <= 3 <==> c as int < 0x1_0000)
  {
    var n := c as int;
    assert n == n / 0x40 * 0x40 + n % 0x40;
    if n >= 0x800 {
      var m := n / 0x40;
      assert n / 0x1000 == m / 0x40 && m == m / 0x40 * 0x40 + m % 0x40;
      if n >= 0x1_0000 {
        var k := m / 0x40;
        assert n / 0x4_0000 == k / 0x40 && k == k / 0x40 * 0x40 + k % 0x40;
      }
    }
  }

  lemma {:induction false} BytesSplit(a: string, b: string)
    ensures Bytes(a + b) == Bytes(a) + Bytes(b)
    decreases |b|
  {
    if b == [] {
      assert a + b == a;
    } else {
      assert (a + b)[..|a + b| - 1] == a + b[..|b| - 1];
      BytesSplit(a, b[..|b| - 1]);
      assert Bytes(a) + (Bytes(b[..|b| - 1]) + Utf8(b[|b| - 1])) == (Bytes(a) + Bytes(b[..|b| - 1])) + Utf8(b[|b| - 1]);
    }
  }

  /** The key is the value of the bytes read in base 31, modulo 2^64; an empty message has key zero. */
  lemma KeyIsPolynomial(bytes: seq<nat>, last: nat)
    ensures Hash([]) == 0
    ensures Hash(bytes + [last]) == (Hash(bytes) * 31 + last) % 0x1_0000_0000_0000_0000
  {
    assert (bytes + [last])[..|bytes|] == bytes;
  }
}
