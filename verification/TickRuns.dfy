/** The accounting laws of the tick loop over any number of ticks, and what the network can be given. */
module TickRuns {
  import opened Prelude
  import opened IngressTypes
  import opened IngressSpec
  import opened HealthSpec
  import opened LimiterSpec
  import opened Decode
  import opened TickSpec

  /** How a tick that reached the network, or did not, ended. */
  datatype Ending = Skipped | Failed | Stepped(dropped: nat, emitError: bool)

  /** What happened in one tick, told without any counter. */
  datatype Facts = Facts(
    receiveError: bool,   // the source failed
    gated: bool,          // the source's packet was not finite
    flagged: bool,        // the source flagged its packet
    accepted: bool,       // it gave an unflagged, finite packet with a batch id
    ending: Ending)       // Skipped: the drained packet was not finite

  function EndingOf(p: IngressPacket, channels: nat, o: Outside): Ending {
    if !PacketFinite(p) then Skipped
    else
      match o.network(Decoded(p.stimuli, p.validMask, channels), DecodedModulators(p.modulators, o.defaults))
      case StepError(_) => Failed
      case Spikes(ids) =>
        var kept := Kept(ids);
        Stepped(|ids| - |kept|, SinkFails(ids, o))
  }

  /** A batch counts as accepted if it has an id and neither the source nor the gate objected. */
  predicate Accepts(o: Outside) {
    o.received.Packet? && !o.received.packet.rejected && PacketFinite(o.received.packet)
    && o.received.packet.batchId.Some?
  }

  /** The facts of a tick that works on the drained packet `p`. */
  function FactsOn(p: IngressPacket, channels: nat, o: Outside): Facts {
    Facts(o.received.ReceiveError?, Gated(o), o.received.Packet? && o.received.packet.rejected, Accepts(o),
          EndingOf(p, channels, o))
  }

  function FactsOf(cfg: IngressConfig, channels: nat, d: Daemon, o: Outside): Facts
    requires cfg.Total()
  {
    FactsOn(WorkOf(cfg, d, o), channels, o)
  }

  function One(b: bool): nat {
    if b then 1 else 0
  }

  /** Unbounded totals over a run. */
  datatype Totals = Totals(
    calls: nat, receiveErrors: nat, nonFinite: nat, flagged: nat, accepted: nat, emitErrors: nat,
    droppedTicks: nat, droppedSpikes: nat, steps: nat, skips: nat, failures: nat)
  {
    function Rejections(): nat {
      receiveErrors + nonFinite + flagged
    }

    function Reports(): nat {
      receiveErrors + nonFinite + emitErrors + droppedTicks
    }
  }

  const NoTotals: Totals := Totals(0, 0, 0, 0, 0, 0, 0, 0, 0, 0, 0)

  function Plus(t: Totals, f: Facts): Totals {
    var stepped := f.ending.Stepped?;
    Totals(t.calls + 1,
           t.receiveErrors + One(f.receiveError),
           t.nonFinite + One(f.gated) + One(f.ending.Skipped?),
           t.flagged + One(f.flagged),
           t.accepted + One(f.accepted),
           t.emitErrors + One(stepped && f.ending.emitError),
           t.droppedTicks + One(stepped && f.ending.dropped > 0),
           t.droppedSpikes + (if stepped then f.ending.dropped else 0),
           t.steps + One(stepped),
           t.skips + One(f.ending.Skipped?),
           t.failures + One(f.ending.Failed?))
  }

  datatype Run = Run(d: Daemon, totals: Totals)

  /**
   One call. Other producers may have left the queues in any state since the last one, and in any
   other state when this one drains them.
   */
  datatype Turn = Turn(queues: IngressState, atDrain: IngressState, outside: Outside)

  /** The daemon of this turn when it drains. */
  function AtDrain(cfg: IngressConfig, d: Daemon, t: Turn): Daemon
    requires cfg.Total()
  {
    InputPhase(cfg, d.(ingress := t.queues), t.outside).(ingress := t.atDrain)
  }

  function FactsIn(channels: nat, t: Turn): Facts {
    FactsOn(IntoPacket(DrainedOf(t.atDrain)), channels, t.outside)
  }

  function OneMore(cfg: IngressConfig, channels: nat, r: Run, t: Turn): Run
    requires cfg.Total()
  {
    Run(Publish(WorkPhase(cfg, channels, AtDrain(cfg, r.d, t), t.outside), t.outside.clock(8)),
        Plus(r.totals, FactsIn(channels, t)))
  }

  function RunAll(cfg: IngressConfig, channels: nat, r: Run, turns: seq<Turn>): Run
    requires cfg.Total()
  {
    if turns == [] then r
    else OneMore(cfg, channels, RunAll(cfg, channels, r, turns[..|turns| - 1]), turns[|turns| - 1])
  }

  /** Alone, nobody touches the queues in the middle of a turn, and it is the tick of the daemon. */
  lemma TurnIsTick(cfg: IngressConfig, channels: nat, r: Run, o: Outside)
    requires cfg.Total()
    ensures var t := Turn(r.d.ingress, InputPhase(cfg, r.d, o).ingress, o);
            OneMore(cfg, channels, r, t)
            == Run(TickPublished(cfg, channels, r.d, o), Plus(r.totals, FactsOf(cfg, channels, r.d, o)))
  {
    assert r.d.(ingress := r.d.ingress) == r.d;
  }

  // ---------------------------------------------------------------- one tick

  function Capped(n: nat): u64 {
    if n <= U64_MAX then n else U64_MAX
  }

  /** What a tick or a part of it adds to every counter; `emitted` of its reports were not suppressed. */
  datatype Delta = Delta(
    rejections: nat, receiveErrors: nat, accepted: nat, steps: nat, emitErrors: nat, droppedSpikes: nat,
    reports: nat, emitted: nat)
  {
    function Then(d: Delta): Delta {
      Delta(rejections + d.rejections, receiveErrors + d.receiveErrors, accepted + d.accepted, steps + d.steps,
            emitErrors + d.emitErrors, droppedSpikes + d.droppedSpikes, reports + d.reports, emitted + d.emitted)
    }
  }

  /** Plain counters wrap, the others saturate. */
  ghost predicate Added(c: RuntimeCounters, c': RuntimeCounters, x: Delta) {
    Wrapped(c, c', x) && Saturated(c, c', x) && Noted(c, c', x)
  }

  ghost predicate Wrapped(c: RuntimeCounters, c': RuntimeCounters, x: Delta) {
    && x.rejections <= 2 && c'.rejectedBatches == WrapAdd(c.rejectedBatches, x.rejections)
    && x.steps <= 1 && c'.ticks == WrapAdd(c.ticks, x.steps)
    && x.accepted <= 1 && c'.acceptedBatches == WrapAdd(c.acceptedBatches, x.accepted)
  }

  ghost predicate Saturated(c: RuntimeCounters, c': RuntimeCounters, x: Delta) {
    && c'.receiveErrors == Capped(c.receiveErrors + x.receiveErrors)
    && c'.emitErrors == Capped(c.emitErrors + x.emitErrors)
    && c'.droppedSpikes == Capped(c.droppedSpikes + x.droppedSpikes)
  }

  ghost predicate Noted(c: RuntimeCounters, c': RuntimeCounters, x: Delta) {
    && x.emitted <= x.reports
    && c'.diagnosticEmissions == Capped(c.diagnosticEmissions + x.emitted)
    && c'.suppressedDiagnostics == Capped(c.suppressedDiagnostics + x.reports - x.emitted)
  }

  function InputDelta(o: Outside, emitted: nat): Delta {
    var failed, gated := One(o.received.ReceiveError?), One(Gated(o));
    Delta(failed + gated + One(o.received.Packet? && o.received.packet.rejected), failed, One(Accepts(o)), 0, 0, 0,
          failed + gated, emitted)
  }

  function EndingDelta(e: Ending, emitted: nat): Delta {
    var error := One(e.Stepped? && e.emitError);
    Delta(One(e.Skipped?), 0, 0, One(e.Stepped?), error, if e.Stepped? then e.dropped else 0,
          One(e.Skipped?) + One(e.Stepped? && e.dropped > 0) + error, emitted)
  }

  /** What a tick with these facts adds. */
  function TickDelta(f: Facts, emitted: nat): Delta {
    var stepped, skipped := f.ending.Stepped?, One(f.ending.Skipped?);
    var error := One(stepped && f.ending.emitError);
    Delta(One(f.receiveError) + One(f.gated) + One(f.flagged) + skipped, One(f.receiveError), One(f.accepted),
          One(stepped), error, if stepped then f.ending.dropped else 0,
          One(f.receiveError) + One(f.gated) + skipped + One(stepped && f.ending.dropped > 0) + error, emitted)
  }

  lemma OnlyOneObjection(o: Outside)
    ensures One(o.received.ReceiveError?) + One(Gated(o)) + One(o.received.Packet? && o.received.packet.rejected) <= 1
  {
  }

  lemma AddedThen(c: RuntimeCounters, c1: RuntimeCounters, c2: RuntimeCounters, x: Delta, y: Delta)
    requires Added(c, c1, x) && Added(c1, c2, y)
    requires x.rejections + y.rejections <= 2 && x.steps + y.steps <= 1 && x.accepted + y.accepted <= 1
    ensures Added(c, c2, x.Then(y))
  {
  }

  /** Whether the limiter lets a report through now. */
  predicate Shows(l: LimiterState, key: nat, now: nat) {
    Record(l, key, now).suppressed.Some?
  }

  /** The reports of the input phase that are not suppressed. */
  function InputShown(diag: Diagnostics, o: Outside): nat {
    One(o.received.ReceiveError? && Shows(diag.receive, DiagnosticKey(o.received.message), o.clock(0)))
    + One(Gated(o) && Shows(diag.nonFinite, DiagnosticKey("rejected non-finite ingress"), o.clock(1)))
  }

  /** The reports after the drain that are not suppressed. */
  function WorkShown(diag: Diagnostics, p: IngressPacket, channels: nat, o: Outside): nat {
    if !PacketFinite(p) then One(Shows(diag.nonFinite, DiagnosticKey("rejected non-finite ingress"), o.clock(4)))
    else
      match o.network(Decoded(p.stimuli, p.validMask, channels), DecodedModulators(p.modulators, o.defaults))
      case StepError(_) => 0
      case Spikes(ids) => SpikesShown(diag, ids, o)
  }

  function SpikesShown(diag: Diagnostics, ids: seq<nat>, o: Outside): nat {
    One(|Kept(ids)| < |ids| && Shows(diag.dropped, DiagnosticKey("dropped spikes with out-of-range IDs"), o.clock(6)))
    + One(SinkFails(ids, o) && Shows(diag.emit, DiagnosticKey(o.sink(Kept(ids)).value), o.clock(7)))
  }

  lemma InputMoves(cfg: IngressConfig, d: Daemon, o: Outside) returns (emitted: nat)
    requires cfg.Total()
    ensures emitted == InputShown(d.diag, o)
    ensures var d' := InputPhase(cfg, d, o);
            && Added(d.stats.counters, d'.stats.counters, InputDelta(o, emitted))
            && d'.health.counters == d.health.counters
  {
    hide DiagnosticKey, AdmitBackend, Record;
    var r := if o.received.ReceiveError? then Record(d.diag.receive, DiagnosticKey(o.received.message), o.clock(0))
             else Record(d.diag.nonFinite, DiagnosticKey(NON_FINITE_CATEGORY), o.clock(1));
    emitted := One((o.received.ReceiveError? || Gated(o)) && r.suppressed.Some?);
  }

  lemma DroppedMoves(d: Daemon, dropped: nat, now: nat) returns (emitted: nat)
    ensures var c, d' := d.stats.counters, ReportDropped(d, dropped, now);
            && emitted == One(dropped > 0 && Shows(d.diag.dropped, DiagnosticKey(DROPPED_MESSAGE), now))
            && d'.diag.emit == d.diag.emit
            && d'.stats.counters == c.(
                 droppedSpikes := Capped(c.droppedSpikes + dropped),
                 diagnosticEmissions := Capped(c.diagnosticEmissions + emitted),
                 suppressedDiagnostics := Capped(c.suppressedDiagnostics + One(dropped > 0) - emitted))
            && d'.health == d.health && d'.ingress == d.ingress
  {
    hide DiagnosticKey, Record;
    emitted := One(dropped > 0 && Record(d.diag.dropped, DiagnosticKey(DROPPED_MESSAGE), now).suppressed.Some?);
  }

  lemma EmitErrorMoves(d: Daemon, message: string, now: nat, healthNow: nat) returns (emitted: nat)
    ensures var c, d' := d.stats.counters, ReportEmitError(d, message, now, healthNow);
            && emitted == One(Shows(d.diag.emit, DiagnosticKey(message), now))
            && d'.stats.counters == c.(
                 emitErrors := Capped(c.emitErrors + 1),
                 diagnosticEmissions := Capped(c.diagnosticEmissions + emitted),
                 suppressedDiagnostics := Capped(c.suppressedDiagnostics + 1 - emitted))
            && d'.health.counters == d.health.counters && d'.ingress == d.ingress
  {
    hide DiagnosticKey, Record;
    emitted := One(Record(d.diag.emit, DiagnosticKey(message), now).suppressed.Some?);
  }

  /** The daemon when it turns to the sink. */
  lemma CountSpikes(d: Daemon, ids: seq<nat>, o: Outside) returns (d2: Daemon, emitted: nat)
    ensures var c, kept := d.stats.counters, Kept(ids);
            var lost := |ids| - |kept|;
            && emitted == One(lost > 0 && Shows(d.diag.dropped, DiagnosticKey(DROPPED_MESSAGE), o.clock(6)))
            && d2.diag.emit == d.diag.emit
            && d2.stats.counters == c.(ticks := Bump(c.ticks), droppedSpikes := Capped(c.droppedSpikes + lost),
                      diagnosticEmissions := Capped(c.diagnosticEmissions + emitted),
                      suppressedDiagnostics := Capped(c.suppressedDiagnostics + One(lost > 0) - emitted))
            && d2.health == d.health && d2.ingress == d.ingress
            && SpikePhase(d, ids, o) ==
               if kept == [] && ids != [] then Told(d2, TickSucceeded, o.clock(5))
               else if o.sink(kept).Some? then ReportEmitError(d2, o.sink(kept).value, o.clock(7), o.clock(5))
               else Told(d2, TickSucceeded, o.clock(5))
  {
    hide DiagnosticKey;
    var c, kept := d.stats.counters, Kept(ids);
    var d1 := WithCounters(d, c.(ticks := Bump(c.ticks)));
    emitted := DroppedMoves(d1, |ids| - |kept|, o.clock(6));
    d2 := ReportDropped(d1, |ids| - |kept|, o.clock(6));
  }

  lemma EndCounts(c: RuntimeCounters, c': RuntimeCounters, lost: nat, error: bool, first: nat, second: nat)
    requires first <= One(lost > 0) && second <= One(error)
    requires c'.rejectedBatches == c.rejectedBatches && c'.acceptedBatches == c.acceptedBatches
    requires c'.ticks == Bump(c.ticks) && c'.receiveErrors == c.receiveErrors
    requires c'.emitErrors == Capped(c.emitErrors + One(error))
    requires c'.droppedSpikes == Capped(c.droppedSpikes + lost)
    requires c'.diagnosticEmissions == Capped(Capped(c.diagnosticEmissions + first) + second)
    requires c'.suppressedDiagnostics
          == Capped(Capped(c.suppressedDiagnostics + One(lost > 0) - first) + One(error) - second)
    ensures Added(c, c', EndingDelta(Stepped(lost, error), first + second))
  {
  }

  /** The sink is called, unless every id was too large, and refuses. */
  predicate SinkFails(ids: seq<nat>, o: Outside) {
    !(Kept(ids) == [] && ids != []) && o.sink(Kept(ids)).Some?
  }

  lemma SpikeMoves(d: Daemon, ids: seq<nat>, o: Outside) returns (emitted: nat)
    ensures emitted == SpikesShown(d.diag, ids, o)
    ensures var d' := SpikePhase(d, ids, o);
            var e := Stepped(|ids| - |Kept(ids)|, SinkFails(ids, o));
            && Added(d.stats.counters, d'.stats.counters, EndingDelta(e, emitted))
            && d'.health.counters == d.health.counters
  {
    hide DiagnosticKey, Kept, Record, Added, EndingDelta;
    var d2, first := CountSpikes(d, ids, o);
    var second := 0;
    if SinkFails(ids, o) {
      second := EmitErrorMoves(d2, o.sink(Kept(ids)).value, o.clock(7), o.clock(5));
    }
    emitted := first + second;
    EndCounts(d.stats.counters, SpikePhase(d, ids, o).stats.counters, |ids| - |Kept(ids)|, SinkFails(ids, o), first,
              second);
  }

  /** A drained packet that is not finite. */
  lemma SkipMoves(d: Daemon, now: nat, healthNow: nat) returns (emitted: nat)
    ensures emitted == One(Shows(d.diag.nonFinite, DiagnosticKey(NON_FINITE_CATEGORY), now))
    ensures var d' := Told(RejectNonFinite(d, now), TickSucceeded, healthNow);
            && Added(d.stats.counters, d'.stats.counters, EndingDelta(Skipped, emitted))
            && d'.health.counters == d.health.counters
  {
    hide DiagnosticKey, Record;
    emitted := One(Record(d.diag.nonFinite, DiagnosticKey(NON_FINITE_CATEGORY), now).suppressed.Some?);
  }

  lemma StepMoves(d: Daemon, p: IngressPacket, channels: nat, o: Outside) returns (emitted: nat)
    ensures emitted == WorkShown(d.diag, p, channels, o)
    ensures var d' := StepPhase(d, p, channels, o);
            && Added(d.stats.counters, d'.stats.counters, EndingDelta(EndingOf(p, channels, o), emitted))
            && d'.health.counters == d.health.counters
  {
    hide DiagnosticKey, Kept, SpikePhase, Decoded, RejectNonFinite;
    emitted := 0;
    if PacketFinite(p) {
      match o.network(Decoded(p.stimuli, p.validMask, channels), DecodedModulators(p.modulators, o.defaults)) {
        case StepError(_) =>
        case Spikes(ids) =>
          emitted := SpikeMoves(d, ids, o);
      }
    } else {
      emitted := SkipMoves(d, o.clock(4), o.clock(5));
    }
  }

  /**
   One tick moves every counter by exactly what happened in it, whatever the counters were; a report
   counts as emitted if its own limiter lets it through, and as suppressed otherwise.
   */
  lemma TickMoves(cfg: IngressConfig, channels: nat, d: Daemon, t: Turn) returns (emitted: nat)
    requires cfg.Total()
    ensures emitted == InputShown(d.diag, t.outside)
                       + WorkShown(AtDrain(cfg, d, t).diag, IntoPacket(DrainedOf(t.atDrain)), channels, t.outside)
    ensures var d' := WorkPhase(cfg, channels, AtDrain(cfg, d, t), t.outside);
            && Added(d.stats.counters, d'.stats.counters, TickDelta(FactsIn(channels, t), emitted))
            && d'.health.counters == d.health.counters
  {
    hide DiagnosticKey, InputPhase, StepPhase, InputShown, WorkShown, EndingOf;
    var o, d0, p := t.outside, d.(ingress := t.queues), IntoPacket(DrainedOf(t.atDrain));
    var first := InputMoves(cfg, d0, o);
    var d1 := DrainPhase(cfg, AtDrain(cfg, d, t), o.clock(3));
    var second := StepMoves(d1, p, channels, o);
    OnlyOneObjection(o);
    var e := EndingOf(p, channels, o);
    emitted := first + second;
    AddedThen(d.stats.counters, d1.stats.counters, StepPhase(d1, p, channels, o).stats.counters,
              InputDelta(o, first), EndingDelta(e, second));
    assert InputDelta(o, first).Then(EndingDelta(e, second)) == TickDelta(FactsIn(channels, t), emitted);
  }

  // ---------------------------------------------------------------- every run

  /** What a plain u64 counter holds of an unbounded total. */
  function Wrap(n: nat): u64 {
    n % 0x1_0000_0000_0000_0000
  }

  lemma WrapAdds(n: nat, k: u64)
    ensures WrapAdd(Wrap(n), k) == Wrap(n + k)
  {
  }

  lemma WrapSmall(n: u64)
    ensures Wrap(n) == n
  {
  }

  /** The counters agree with the totals: plain ones modulo 2^64, the others up to saturation. */
  ghost predicate Counted(c: RuntimeCounters, t: Totals, emitted: nat) {
    PlainOk(c, t) && CappedOk(c, t) && ReportsOk(c, t, emitted)
  }

  ghost predicate PlainOk(c: RuntimeCounters, t: Totals) {
    && c.rejectedBatches == Wrap(t.Rejections()) && c.ticks == Wrap(t.steps) && c.acceptedBatches == Wrap(t.accepted)
    && t.calls == t.steps + t.skips + t.failures
  }

  ghost predicate CappedOk(c: RuntimeCounters, t: Totals) {
    && c.receiveErrors == Capped(t.receiveErrors) && c.emitErrors == Capped(t.emitErrors)
    && c.droppedSpikes == Capped(t.droppedSpikes)
  }

  ghost predicate ReportsOk(c: RuntimeCounters, t: Totals, emitted: nat) {
    && emitted <= t.Reports()
    && c.diagnosticEmissions == Capped(emitted) && c.suppressedDiagnostics == Capped(t.Reports() - emitted)
  }

  /** A third of the largest counter value: so many calls cannot make any counter wrap. */
  const SAFE_CALLS: nat := 0x5555_5555_5555_5555

  /** No tick is rejected more than twice or reported more than three times. */
  ghost predicate FewPerTick(t: Totals) {
    t.Rejections() <= t.calls + t.calls && t.Reports() <= t.calls + t.calls + t.calls && t.accepted <= t.calls
  }

  /** Health shows the counters at least until one of them can have wrapped. */
  ghost predicate RunOk(r: Run, emitted: nat) {
    && Counted(r.d.stats.counters, r.totals, emitted) && FewPerTick(r.totals)
    && (r.totals.calls <= SAFE_CALLS ==> r.d.health.counters == r.d.stats.counters)
  }

  /** Totals that have not wrapped. */
  lemma Small(t: Totals)
    requires FewPerTick(t) && t.calls <= SAFE_CALLS && t.calls == t.steps + t.skips + t.failures
    ensures Wrap(t.Rejections()) == t.Rejections() && Wrap(t.steps) == t.steps && Wrap(t.accepted) == t.accepted
  {
    hide Wrap;
    WrapSmall(t.Rejections());
    WrapSmall(t.steps);
    WrapSmall(t.accepted);
  }

  lemma PlainMore(c: RuntimeCounters, c': RuntimeCounters, t: Totals, f: Facts, emitted: nat)
    requires PlainOk(c, t) && Wrapped(c, c', TickDelta(f, emitted))
    ensures PlainOk(c', Plus(t, f))
  {
    hide Wrap;
    var x := TickDelta(f, emitted);
    WrapAdds(t.Rejections(), x.rejections);
    WrapAdds(t.steps, x.steps);
    WrapAdds(t.accepted, x.accepted);
    assert Plus(t, f).Rejections() == t.Rejections() + x.rejections;
  }

  lemma CappedMore(c: RuntimeCounters, c': RuntimeCounters, t: Totals, f: Facts, emitted: nat)
    requires CappedOk(c, t) && Saturated(c, c', TickDelta(f, emitted))
    ensures CappedOk(c', Plus(t, f))
  {
  }

  lemma ReportsMore(c: RuntimeCounters, c': RuntimeCounters, t: Totals, f: Facts, before: nat, emitted: nat)
    requires ReportsOk(c, t, before) && Noted(c, c', TickDelta(f, emitted))
    ensures ReportsOk(c', Plus(t, f), before + emitted)
  {
    assert Plus(t, f).Reports() == t.Reports() + TickDelta(f, emitted).reports;
  }

  /** The laws between counters, as long as none can have wrapped or saturated. */
  ghost predicate Balanced(c: RuntimeCounters, t: Totals) {
    && c.rejectedBatches == t.receiveErrors + t.nonFinite + t.flagged
    && c.diagnosticEmissions + c.suppressedDiagnostics
       == t.receiveErrors + t.nonFinite + t.emitErrors + t.droppedTicks
    && t.calls == c.ticks + t.skips + t.failures
    && c.receiveErrors == t.receiveErrors && c.acceptedBatches == t.accepted && c.emitErrors == t.emitErrors
  }

  /** The values of the counters as long as none can have wrapped or saturated. */
  lemma ExactWhileSmall(c: RuntimeCounters, t: Totals, emitted: nat)
    requires Counted(c, t, emitted) && FewPerTick(t) && t.calls <= SAFE_CALLS
    ensures Balanced(c, t)
    ensures c.diagnosticEmissions == emitted && c.suppressedDiagnostics == t.Reports() - emitted
  {
    hide Wrap;
    Small(t);
  }

  /** Until one of them wraps, no counter ever falls. */
  lemma NoneFalls(c: RuntimeCounters, c': RuntimeCounters, t: Totals, f: Facts, before: nat, emitted: nat)
    requires Counted(c, t, before) && Counted(c', Plus(t, f), before + emitted)
    requires emitted <= TickDelta(f, emitted).reports
    requires FewPerTick(t) && FewPerTick(Plus(t, f)) && t.calls < SAFE_CALLS
    ensures c.AtMost(c')
  {
    ExactWhileSmall(c, t, before);
    ExactWhileSmall(c', Plus(t, f), before + emitted);
    NeverLess(c, c', t, f, before, emitted);
  }

  lemma NeverLess(c: RuntimeCounters, c': RuntimeCounters, t: Totals, f: Facts, before: nat, emitted: nat)
    requires Balanced(c, t) && Balanced(c', Plus(t, f)) && emitted <= TickDelta(f, emitted).reports
    requires c.diagnosticEmissions == before && c.suppressedDiagnostics == t.Reports() - before
    requires c'.diagnosticEmissions == before + emitted
    requires c'.suppressedDiagnostics == Plus(t, f).Reports() - before - emitted
    requires CappedOk(c, t) && CappedOk(c', Plus(t, f))
    ensures c.AtMost(c')
  {
    assert Plus(t, f).Reports() == t.Reports() + TickDelta(f, emitted).reports;
  }

  lemma AccountOne(cfg: IngressConfig, channels: nat, r: Run, t: Turn, before: nat) returns (emitted: nat)
    requires cfg.Total() && RunOk(r, before)
    ensures RunOk(OneMore(cfg, channels, r, t), emitted)
  {
    var more := TickMoves(cfg, channels, r.d, t);
    emitted := before + more;
    var d', f := WorkPhase(cfg, channels, AtDrain(cfg, r.d, t), t.outside), FactsIn(channels, t);
    var c, c' := r.d.stats.counters, d'.stats.counters;
    PlainMore(c, c', r.totals, f, more);
    CappedMore(c, c', r.totals, f, more);
    ReportsMore(c, c', r.totals, f, before, more);
    OnlyOneObjection(t.outside);
    if r.totals.calls < SAFE_CALLS {
      NoneFalls(c, c', r.totals, f, before, more);
      PublishShowsLatest(d'.health, d'.stats.counters, t.outside.clock(8));
    }
  }

  lemma {:induction false} RunAccounted(cfg: IngressConfig, channels: nat, r: Run, turns: seq<Turn>, before: nat)
    returns (emitted: nat)
    requires cfg.Total() && RunOk(r, before)
    ensures var r' := RunAll(cfg, channels, r, turns);
            RunOk(r', emitted) && r'.totals.calls == r.totals.calls + |turns|
    decreases |turns|
  {
    emitted := before;
    if turns != [] {
      var front := turns[..|turns| - 1];
      emitted := RunAccounted(cfg, channels, r, front, before);
      emitted := AccountOne(cfg, channels, RunAll(cfg, channels, r, front), turns[|turns| - 1], emitted);
    }
  }

  /** The counters of a new daemon and the totals of no tick. */
  ghost predicate AllZero(c: RuntimeCounters, t: Totals) {
    c == NoCounters && t == NoTotals
  }

  lemma NonePlain(c: RuntimeCounters, t: Totals)
    requires AllZero(c, t)
    ensures PlainOk(c, t)
  {
    hide Wrap;
    WrapSmall(t.Rejections());
    WrapSmall(t.steps);
    WrapSmall(t.accepted);
  }

  lemma NoneCapped(c: RuntimeCounters, t: Totals)
    requires AllZero(c, t)
    ensures CappedOk(c, t) && FewPerTick(t)
  {
  }

  lemma NoneReported(c: RuntimeCounters, t: Totals)
    requires AllZero(c, t)
    ensures ReportsOk(c, t, 0)
  {
  }

  lemma NothingCounted(r: Run)
    requires AllZero(r.d.stats.counters, r.totals) && r.d.health.counters == r.d.stats.counters
    ensures RunOk(r, 0)
  {
    hide PlainOk, CappedOk, ReportsOk, FewPerTick;
    NonePlain(r.d.stats.counters, r.totals);
    NoneCapped(r.d.stats.counters, r.totals);
    NoneReported(r.d.stats.counters, r.totals);
  }

  /**
   The accounting laws of a daemon from its start, whatever other producers do to the queues between
   and within ticks: over any number of ticks every counter is its total, plain ones modulo 2^64 and
   the others up to saturation; and for up to 2^64 / 3 ticks rejections, reports and calls balance
   exactly and health shows exactly the counters.
   */
  lemma EveryTickAccounted(cfg: IngressConfig, channels: nat, d: Daemon, turns: seq<Turn>)
    returns (emitted: nat)
    requires cfg.Total() && d.stats.counters == NoCounters && d.health.counters == NoCounters
    ensures var r := RunAll(cfg, channels, Run(d, NoTotals), turns);
            && r.totals.calls == |turns| && Counted(r.d.stats.counters, r.totals, emitted)
            && (|turns| <= SAFE_CALLS ==>
                  Balanced(r.d.stats.counters, r.totals) && r.d.health.counters == r.d.stats.counters)
  {
    hide Counted, FewPerTick, Balanced;
    var r := RunAll(cfg, channels, Run(d, NoTotals), turns);
    NothingCounted(Run(d, NoTotals));
    emitted := RunAccounted(cfg, channels, Run(d, NoTotals), turns, 0);
    if |turns| <= SAFE_CALLS {
      ExactWhileSmall(r.d.stats.counters, r.totals, emitted);
    }
  }

  /** The sink gets every id that fits the wire type, as often as the network gave it, and no other. */
  lemma {:induction false} KeptAreTheFitting(ids: seq<nat>)
    ensures forall id :: multiset(Kept(ids))[id] == if id <= MAX_CHANNEL_ID then multiset(ids)[id] else 0
  {
    if ids != [] {
      var front, last := ids[..|ids| - 1], ids[|ids| - 1];
      KeptAreTheFitting(front);
      assert ids == front + [last];
    }
  }

  // ---------------------------------------------------------------- what the network is given

  /** The calls of the network in one tick: none, or one with these arguments. */
  function Given(cfg: IngressConfig, channels: nat, d: Daemon, o: Outside): Option<(seq<Float>, NeuroModulators)>
    requires cfg.Total()
  {
    var p := WorkOf(cfg, d, o);
    if PacketFinite(p) then
      Some((Decoded(p.stimuli, p.validMask, channels), DecodedModulators(p.modulators, o.defaults)))
    else None
  }

  /** The network's answer matters only at the inputs it is given. */
  lemma NetworkSeesOnlyGiven(cfg: IngressConfig, channels: nat, d: Daemon, o: Outside,
                             network: (seq<Float>, NeuroModulators) -> Stepped)
    requires cfg.Total()
    requires var given := Given(cfg, channels, d, o);
             given.Some? ==> network(given.value.0, given.value.1) == o.network(given.value.0, given.value.1)
    ensures Tick(cfg, channels, d, o.(network := network)) == Tick(cfg, channels, d, o)
  {
    var o' := o.(network := network);
    assert InputPhase(cfg, d, o') == InputPhase(cfg, d, o);
    SpikePhaseIgnoresNetwork(o, network);
  }

  lemma SpikePhaseIgnoresNetwork(o: Outside, network: (seq<Float>, NeuroModulators) -> Stepped)
    ensures forall d, ids :: SpikePhase(d, ids, o.(network := network)) == SpikePhase(d, ids, o)
  {
  }

  /** The network is only ever stepped on finite values, one per channel. */
  lemma NetworkInputsFinite(cfg: IngressConfig, channels: nat, d: Daemon, o: Outside)
    requires cfg.Total() && o.defaults.IsFinite()
    ensures var given := Given(cfg, channels, d, o);
            given.Some? ==>
              && |given.value.0| == channels && (forall v :: v in given.value.0 ==> v.Finite?)
              && given.value.1.dopamine.Finite? && given.value.1.serotonin.Finite?
              && given.value.1.acetylcholine.Finite? && given.value.1.norepinephrine.Finite?
  {
    var p := WorkOf(cfg, d, o);
    if PacketFinite(p) {
      DecodedAllFinite(p.stimuli, p.validMask, channels);
      if p.modulators.Some? {
        ReadFinite(p.modulators.value, o.defaults);
      }
    }
  }

  lemma DecodedAllFinite(values: seq<Float>, mask: Mask, channels: nat)
    requires AllFinite(values)
    ensures forall v :: v in Decoded(values, mask, channels) ==> v.Finite?
  {
    forall i | 0 <= i < channels
      ensures Decoded(values, mask, channels)[i].Finite?
    {
      assert i < |values| ==> values[i] in values;
    }
  }

  lemma ReadFinite(mods: seq<Float>, defaults: NeuroModulators)
    requires AllFinite(mods) && defaults.IsFinite()
    ensures var m := DecodedModulators(Some(mods), defaults);
            m.dopamine.Finite? && m.serotonin.Finite? && m.acetylcholine.Finite? && m.norepinephrine.Finite?
  {
    assert forall i :: 0 <= i < |mods| ==> mods[i] in mods;
  }

  /** A tick whose own packet is not finite admits nothing of it and leaves the queues only drained. */
  lemma GatedPacketNeverQueued(cfg: IngressConfig, channels: nat, d: Daemon, o: Outside)
    requires cfg.Total() && o.received.Packet? && !PacketFinite(o.received.packet)
    ensures Tick(cfg, channels, d, o).ingress == AfterDrain(d.ingress)
    ensures WorkOf(cfg, d, o) == IntoPacket(DrainedOf(d.ingress))
  {
    StepKeepsIngress(DrainPhase(cfg, InputPhase(cfg, d, o), o.clock(3)), WorkOf(cfg, d, o), channels, o);
  }

  lemma StepKeepsIngress(d: Daemon, p: IngressPacket, channels: nat, o: Outside)
    ensures StepPhase(d, p, channels, o).ingress == d.ingress
  {
    if PacketFinite(p) {
      match o.network(Decoded(p.stimuli, p.validMask, channels), DecodedModulators(p.modulators, o.defaults)) {
        case StepError(_) =>
        case Spikes(ids) => SpikeKeepsIngress(d, ids, o);
      }
    }
  }

  lemma SpikeKeepsIngress(d: Daemon, ids: seq<nat>, o: Outside)
    ensures SpikePhase(d, ids, o).ingress == d.ingress
  {
  }

  /** From empty queues, the network steps on exactly the packet the source gave. */
  lemma NetworkStepsOnReceived(cfg: IngressConfig, channels: nat, d: Daemon, o: Outside)
    requires cfg.Total() && cfg.Validate() && o.received.Packet?
    requires !d.ingress.shuttingDown && !d.ingress.sensory.closed && !d.ingress.reward.closed
    requires d.ingress.sensory.items == [] && d.ingress.reward.items == []
    requires var p := o.received.packet;
             && PacketFinite(p) && 0 < |p.stimuli| <= cfg.maxPayloadLen
             && p.modulators.Some? && NEUROMODULATOR_COUNT <= |p.modulators.value| <= cfg.maxPayloadLen
    ensures var p := o.received.packet;
            Given(cfg, channels, d, o) ==
            Some((Decoded(p.stimuli, p.validMask, channels),
                  NeuroModulators(p.modulators.value[0], p.modulators.value[1], p.modulators.value[2],
                                  p.modulators.value[3])))
  {
    AdmittedPacketComesBack(cfg, d.ingress, o.received.packet);
  }

  /** A step failure or an emit failure is fatal for good; any other tick leaves the fatal state as it was. */
  lemma FatalExactlyOnFailure(cfg: IngressConfig, channels: nat, d: Daemon, o: Outside)
    requires cfg.Total() && d.health.fatal.None?
    ensures var e := FactsOf(cfg, channels, d, o).ending;
            Tick(cfg, channels, d, o).health.fatal.Some? <==> e.Failed? || (e.Stepped? && e.emitError)
  {
    var d1 := DrainPhase(cfg, InputPhase(cfg, d, o), o.clock(3));
    InputStamps(cfg, d, o);
    StepFatal(d1, WorkOf(cfg, d, o), channels, o);
  }

  /**
   Freshness: only a packet with finite input, flagged or not, counts as observed ingress; and a tick
   counts as successful unless the network or the sink failed.
   */
  lemma TickStamps(cfg: IngressConfig, channels: nat, d: Daemon, o: Outside)
    requires cfg.Total()
    ensures var d' := Tick(cfg, channels, d, o);
            var observed :=
              && o.received.Packet?
              && (o.received.packet.stimuli != []
                  || (o.received.packet.modulators.Some? && o.received.packet.modulators.value != []))
              && (forall v :: v in o.received.packet.stimuli ==> v.Finite?)
              && (o.received.packet.modulators.Some? ==> forall v :: v in o.received.packet.modulators.value ==> v.Finite?);
            var e := FactsOf(cfg, channels, d, o).ending;
            && d'.health.lastIngress == (if observed then Some(o.clock(2)) else d.health.lastIngress)
            && d'.health.lastTick == (if e.Failed? || (e.Stepped? && e.emitError) then d.health.lastTick
                                      else Some(o.clock(5)))
  {
    InputStamps(cfg, d, o);
    StepStamps(DrainPhase(cfg, InputPhase(cfg, d, o), o.clock(3)), WorkOf(cfg, d, o), channels, o);
  }

  lemma InputStamps(cfg: IngressConfig, d: Daemon, o: Outside)
    requires cfg.Total()
    ensures var h, h' := d.health, InputPhase(cfg, d, o).health;
            var observed := o.received.Packet? && CarriesInput(o.received.packet) && PacketFinite(o.received.packet);
            h' == if observed then h.(lastIngress := Some(o.clock(2))) else h
  {
  }

  lemma StepStamps(d: Daemon, p: IngressPacket, channels: nat, o: Outside)
    ensures var h, h', e := d.health, StepPhase(d, p, channels, o).health, EndingOf(p, channels, o);
            && h'.lastIngress == h.lastIngress
            && h'.lastTick == (if e.Failed? || (e.Stepped? && e.emitError) then h.lastTick else Some(o.clock(5)))
  {
    if PacketFinite(p) {
      match o.network(Decoded(p.stimuli, p.validMask, channels), DecodedModulators(p.modulators, o.defaults)) {
        case StepError(_) =>
        case Spikes(ids) => SpikeStamps(d, ids, o);
      }
    }
  }

  lemma SpikeStamps(d: Daemon, ids: seq<nat>, o: Outside)
    ensures var h, h', kept := d.health, SpikePhase(d, ids, o).health, Kept(ids);
            && h'.lastIngress == h.lastIngress
            && h'.lastTick == (if !(kept == [] && ids != []) && o.sink(kept).Some? then h.lastTick
                               else Some(o.clock(5)))
  {
    hide DiagnosticKey;
  }

  lemma StepFatal(d: Daemon, p: IngressPacket, channels: nat, o: Outside)
    requires d.health.fatal.None?
    ensures var e := EndingOf(p, channels, o);
            StepPhase(d, p, channels, o).health.fatal.Some? <==> e.Failed? || (e.Stepped? && e.emitError)
  {
    if PacketFinite(p) {
      match o.network(Decoded(p.stimuli, p.validMask, channels), DecodedModulators(p.modulators, o.defaults)) {
        case StepError(_) =>
        case Spikes(ids) => SpikeFatal(d, ids, o);
      }
    }
  }

  lemma SpikeFatal(d: Daemon, ids: seq<nat>, o: Outside)
    requires d.health.fatal.None?
    ensures var kept := Kept(ids);
            SpikePhase(d, ids, o).health.fatal.Some? <==> !(kept == [] && ids != []) && o.sink(kept).Some?
  {
    hide DiagnosticKey;
  }
}
