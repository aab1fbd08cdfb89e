/**
 One tick of the daemon (src/daemon.rs): receive, gate, admit, drain, gate again, decode, step, emit.
 The source, the network, the sink and the clock are whatever `Outside` says they are.
 */
module TickSpec {
  import opened Prelude
  import opened IngressTypes
  import opened IngressSpec
  import opened HealthSpec
  import opened LimiterSpec
  import opened Decode

  const MAX_CHANNEL_ID: nat := 65_535
  const NON_FINITE_CATEGORY := "rejected non-finite ingress"
  const DROPPED_MESSAGE := "dropped spikes with out-of-range IDs"

  datatype Received = Nothing | Packet(packet: IngressPacket) | ReceiveError(message: string)

  datatype Stepped = Spikes(ids: seq<nat>) | StepError(detail: string)

  /** What the tick meets: its input, the network, the sink, default modulators and clock readings. */
  datatype Outside = Outside(
    received: Received,
    network: (seq<Float>, NeuroModulators) -> Stepped,
    sink: seq<nat> -> Option<string>,
    defaults: NeuroModulators,
    clock: nat -> nat)

  datatype Stats = Stats(counters: RuntimeCounters, lastBatchId: Option<u64>, lastValidMask: Mask)

  datatype Diagnostics = Diagnostics(
    receive: LimiterState, emit: LimiterState, dropped: LimiterState, nonFinite: LimiterState)

  datatype Daemon = Daemon(ingress: IngressState, health: HealthState, stats: Stats, diag: Diagnostics)

  /** The UTF-8 bytes of a character (section 3 of RFC 3629). */
  function Utf8(c: char): seq<nat> {
    var n := c as nat;
    if n < 0x80 then [n]
    else if n < 0x800 then [0xC0 + n / 0x40, 0x80 + n % 0x40]
    else if n < 0x1_0000 then [0xE0 + n / 0x1000, 0x80 + n / 0x40 % 0x40, 0x80 + n % 0x40]
    else [0xF0 + n / 0x4_0000, 0x80 + n / 0x1000 % 0x40, 0x80 + n / 0x40 % 0x40, 0x80 + n % 0x40]
  }

  function Bytes(message: string): seq<nat> {
    if message == [] then [] else Bytes(message[..|message| - 1]) + Utf8(message[|message| - 1])
  }

  /** The polynomial hash of some bytes, modulo 2^64. */
  function Hash(bytes: seq<nat>): u64 {
    if bytes == [] then 0 else (Hash(bytes[..|bytes| - 1]) * 31 + bytes[|bytes| - 1]) % 0x1_0000_0000_0000_0000
  }

  function DiagnosticKey(message: string): nat {
    Hash(Bytes(message))
  }

  function WithCounters(d: Daemon, c: RuntimeCounters): Daemon {
    d.(stats := d.stats.(counters := c))
  }

  function Told(d: Daemon, event: HealthEvent, now: nat): Daemon {
    d.(health := Apply(d.health, event, now))
  }

  /** A recorded diagnostic is emitted or counted as suppressed. */
  function Reported(c: RuntimeCounters, r: Recorded): RuntimeCounters {
    if r.suppressed.Some? then c.(diagnosticEmissions := SaturatingAdd(c.diagnosticEmissions, 1))
    else c.(suppressedDiagnostics := SaturatingAdd(c.suppressedDiagnostics, 1))
  }

  /** No stimulus or modulator, masked or not, is NaN or infinite. */
  predicate PacketFinite(p: IngressPacket) {
    AllFinite(p.stimuli) && (p.modulators.Some? ==> AllFinite(p.modulators.value))
  }

  predicate CarriesInput(p: IngressPacket) {
    p.stimuli != [] || (p.modulators.Some? && p.modulators.value != [])
  }

  function RejectNonFinite(d: Daemon, now: nat): Daemon {
    var c := d.stats.counters;
    var r := Record(d.diag.nonFinite, DiagnosticKey(NON_FINITE_CATEGORY), now);
    WithCounters(d, Reported(c.(rejectedBatches := Bump(c.rejectedBatches)), r)).(diag := d.diag.(nonFinite := r.s))
  }

  function ReceivePhase(d: Daemon, o: Outside): Daemon {
    if !o.received.ReceiveError? then d
    else
      var c := d.stats.counters;
      var c := c.(receiveErrors := SaturatingAdd(c.receiveErrors, 1), rejectedBatches := Bump(c.rejectedBatches));
      var r := Record(d.diag.receive, DiagnosticKey(o.received.message), o.clock(0));
      WithCounters(d, Reported(c, r)).(diag := d.diag.(receive := r.s))
  }

  /** The first gate concerns only packets that the source did not flag itself. */
  predicate Gated(o: Outside) {
    o.received.Packet? && !o.received.packet.rejected && !PacketFinite(o.received.packet)
  }

  function Account(s: Stats, p: IngressPacket): Stats {
    if p.rejected then
      s.(counters := s.counters.(rejectedBatches := Bump(s.counters.rejectedBatches)))
    else if p.batchId.Some? then
      Stats(s.counters.(acceptedBatches := Bump(s.counters.acceptedBatches)), p.batchId, p.validMask)
    else s
  }

  /** Only finite packets that carry input count as observed, flagged or not. */
  function Observe(d: Daemon, p: IngressPacket, now: nat): Daemon {
    if CarriesInput(p) && PacketFinite(p) then Told(d, IngressObserved, now) else d
  }

  /** A flagged packet that is not finite either is counted once, here, and not admitted. */
  function AccountAndAdmit(cfg: IngressConfig, d: Daemon, p: IngressPacket): Daemon
    requires cfg.Total()
  {
    d.(stats := Account(d.stats, p),
       ingress := if p.rejected && !PacketFinite(p) then d.ingress else AdmitBackend(cfg, d.ingress, p))
  }

  /** Everything up to the drain. */
  function InputPhase(cfg: IngressConfig, d: Daemon, o: Outside): Daemon
    requires cfg.Total()
  {
    var d := ReceivePhase(d, o);
    if !o.received.Packet? then d
    else if Gated(o) then RejectNonFinite(d, o.clock(1))
    else AccountAndAdmit(cfg, Observe(d, o.received.packet, o.clock(2)), o.received.packet)
  }

  function DrainPhase(cfg: IngressConfig, d: Daemon, now: nat): Daemon
    requires cfg.Total()
  {
    var ingress := AfterDrain(d.ingress);
    Told(d.(ingress := ingress), QueuePressure(ingress.Depth(), TotalCapacity(cfg)), now)
  }

  /** The spike ids that fit the wire type, in order. */
  function Kept(ids: seq<nat>): (kept: seq<nat>)
    ensures |kept| <= |ids|
  {
    if ids == [] then []
    else Kept(ids[..|ids| - 1]) + (if ids[|ids| - 1] <= MAX_CHANNEL_ID then [ids[|ids| - 1]] else [])
  }

  function ReportDropped(d: Daemon, dropped: nat, now: nat): Daemon {
    if dropped == 0 then d
    else
      var c := d.stats.counters;
      var c := c.(droppedSpikes := SaturatingAdd(c.droppedSpikes, Min(dropped, U64_MAX)));
      var r := Record(d.diag.dropped, DiagnosticKey(DROPPED_MESSAGE), now);
      WithCounters(d, Reported(c, r)).(diag := d.diag.(dropped := r.s))
  }

  function ReportEmitError(d: Daemon, message: string, now: nat, healthNow: nat): Daemon {
    var c := d.stats.counters;
    var r := Record(d.diag.emit, DiagnosticKey(message), now);
    Told(WithCounters(d, Reported(c.(emitErrors := SaturatingAdd(c.emitErrors, 1)), r))
           .(diag := d.diag.(emit := r.s)),
         FatalRaised(Unspecified, message), healthNow)
  }

  /** After the network stepped: count, narrow the ids, publish what is left. */
  function SpikePhase(d: Daemon, ids: seq<nat>, o: Outside): Daemon {
    var c := d.stats.counters;
    var d := WithCounters(d, c.(ticks := Bump(c.ticks)));
    var kept := Kept(ids);
    var d := ReportDropped(d, |ids| - |kept|, o.clock(6));
    if kept == [] && ids != [] then Told(d, TickSucceeded, o.clock(5))
    else
      match o.sink(kept)
      case Some(message) => ReportEmitError(d, message, o.clock(7), o.clock(5))
      case None => Told(d, TickSucceeded, o.clock(5))
  }

  /** The drained packet is gated, decoded and stepped on. */
  function StepPhase(d: Daemon, p: IngressPacket, channels: nat, o: Outside): Daemon {
    if !PacketFinite(p) then Told(RejectNonFinite(d, o.clock(4)), TickSucceeded, o.clock(5))
    else
      match o.network(Decoded(p.stimuli, p.validMask, channels), DecodedModulators(p.modulators, o.defaults))
      case StepError(detail) => Told(d, FatalRaised(Unspecified, detail), o.clock(5))
      case Spikes(ids) => SpikePhase(d, ids, o)
  }

  /** The packet this tick works on. */
  function WorkOf(cfg: IngressConfig, d: Daemon, o: Outside): IngressPacket
    requires cfg.Total()
  {
    IntoPacket(DrainedOf(InputPhase(cfg, d, o).ingress))
  }

  /** The tick from the drain on. */
  function WorkPhase(cfg: IngressConfig, channels: nat, d: Daemon, o: Outside): Daemon
    requires cfg.Total()
  {
    StepPhase(DrainPhase(cfg, d, o.clock(3)), IntoPacket(DrainedOf(d.ingress)), channels, o)
  }

  function Tick(cfg: IngressConfig, channels: nat, d: Daemon, o: Outside): Daemon
    requires cfg.Total()
  {
    WorkPhase(cfg, channels, InputPhase(cfg, d, o), o)
  }

  function Publish(d: Daemon, now: nat): Daemon {
    Told(d, CountersPublished(d.stats.counters), now)
  }

  function TickPublished(cfg: IngressConfig, channels: nat, d: Daemon, o: Outside): Daemon
    requires cfg.Total()
  {
    Publish(Tick(cfg, channels, d, o), o.clock(8))
  }
}
