/**
 The reference bank of leaky integrate-and-fire neurons (experiments/usefulness/reference_model.py),
 over the reals: one tick as a function of the state and the inputs.
 */
module LifSpec {
  import opened Prelude

  const WEIGHT_BUDGET := 2.0
  const ROW_TOLERANCE := 0.000_000_000_001
  const PRED_ALPHA := 0.1
  const PRED_ERR_WEIGHT := 0.5
  const INHIBITION := 0.05
  const THRESHOLD_FLOOR := 0.05
  const THRESHOLD_CEIL := 0.50

  datatype Modulators = Modulators(
    dopamine: real, serotonin: real, acetylcholine: real, norepinephrine: real)

  const QUIET: Modulators := Modulators(0.0, 0.0, 0.0, 0.0)

  function MaxR(a: real, b: real): real {
    if a >= b then a else b
  }

  function MinR(a: real, b: real): real {
    if a <= b then a else b
  }

  function AbsR(a: real): real {
    if a >= 0.0 then a else -a
  }

  function Clamp(value: real, low: real, high: real): real {
    MinR(MaxR(value, low), high)
  }

  // ---------------------------------------------------------------- one neuron, one channel

  function DecayOf(m: Modulators): real {
    0.15 - 0.05 * m.acetylcholine
  }

  function StressOf(m: Modulators): real {
    MaxR(1.0 - m.norepinephrine, 0.1)
  }

  /** Moves a threshold by `rate` towards its target, within the bounds. */
  function Blended(threshold: real, target: real, rate: real): real {
    Clamp(threshold + (target - threshold) * rate, THRESHOLD_FLOOR, THRESHOLD_CEIL)
  }

  function Retuned(threshold: real, spiked: bool, m: Modulators): real {
    var base := 0.20 - 0.05 * m.dopamine + 0.15 * m.norepinephrine - 0.05 * m.serotonin;
    var target := Clamp(base + (if spiked then 0.005 else -0.001), THRESHOLD_FLOOR, THRESHOLD_CEIL);
    Blended(threshold, target, 0.5 * m.dopamine)
  }

  function Intensity(stimulus: real): real {
    Clamp(AbsR(stimulus), 0.0, 1.0)
  }

  function Predicted(pred: real, stimulus: real): real {
    PRED_ALPHA * Intensity(stimulus) + (1.0 - PRED_ALPHA) * pred
  }

  function Driven(pred: real, stimulus: real): real {
    Intensity(stimulus) + PRED_ERR_WEIGHT * AbsR(Intensity(stimulus) - pred)
  }

  /** The first `n` terms of the weighted sum. */
  function Dot(row: seq<real>, drive: seq<real>, n: nat): real
    requires n <= |row| && n <= |drive|
  {
    if n == 0 then 0.0 else Dot(row, drive, n - 1) + row[n - 1] * drive[n - 1]
  }

  function Sum(row: seq<real>, n: nat): real
    requires n <= |row|
  {
    if n == 0 then 0.0 else Sum(row, n - 1) + row[n - 1]
  }

  /** A row passes if its sum is within the tolerance of the budget. */
  predicate RowsOk(rows: seq<seq<real>>) {
    forall i :: 0 <= i < |rows| ==> AbsR(Sum(rows[i], |rows[i]|) - WEIGHT_BUDGET) < ROW_TOLERANCE
  }

  function Current(row: seq<real>, drive: seq<real>, stress: real): real {
    Dot(row, drive, Min(|row|, |drive|)) * (0.45 * stress)
  }

  function Leaked(potential: real, decay: real): real {
    potential - potential * decay
  }

  // ---------------------------------------------------------------- the bank

  datatype Bank = Bank(
    v: seq<real>, threshold: seq<real>, decay: seq<real>, lastSpike: seq<bool>, pred: seq<real>)

  ghost predicate Shaped(weights: seq<seq<real>>, b: Bank) {
    |weights| == |b.v| == |b.threshold| == |b.decay| == |b.lastSpike|
  }

  function Rest(count: nat, channels: nat, threshold: real, decay: real): Bank {
    Bank(seq(count, _ => 0.0), seq(count, _ => threshold), seq(count, _ => decay), seq(count, _ => false),
         seq(channels, _ => 0.0))
  }

  function Thresholds(b: Bank, m: Modulators): seq<real>
    requires |b.threshold| == |b.lastSpike|
  {
    seq(|b.threshold|, i requires 0 <= i < |b.threshold| && i < |b.lastSpike| =>
          Retuned(b.threshold[i], b.lastSpike[i], m))
  }

  function Drive(pred: seq<real>, stimuli: seq<real>): seq<real>
    requires |stimuli| <= |pred|
  {
    seq(|stimuli|, c requires 0 <= c < |stimuli| && c < |pred| => Driven(pred[c], stimuli[c]))
  }

  /** Channels beyond the stimuli keep their prediction. */
  function Predictions(pred: seq<real>, stimuli: seq<real>): seq<real>
    requires |stimuli| <= |pred|
  {
    seq(|pred|, c requires 0 <= c < |pred| => if c < |stimuli| then Predicted(pred[c], stimuli[c]) else pred[c])
  }

  function Potentials(weights: seq<seq<real>>, v: seq<real>, drive: seq<real>, stress: real, decay: real): seq<real>
    requires |v| == |weights|
  {
    seq(|v|, i requires 0 <= i < |v| && i < |weights| => Leaked(v[i] + Current(weights[i], drive, stress), decay))
  }

  function Fired(v: seq<real>, threshold: seq<real>): seq<bool>
    requires |v| == |threshold|
  {
    seq(|v|, i requires 0 <= i < |v| && i < |threshold| => v[i] >= threshold[i])
  }

  /** Ids of the neurons that fired, below `n`, in order. */
  function Ids(fired: seq<bool>, n: nat): seq<nat>
    requires n <= |fired|
  {
    if n == 0 then [] else Ids(fired, n - 1) + (if fired[n - 1] then [n - 1] else [])
  }

  /** Fired neurons reset; if any fired, the others are inhibited, not below zero. */
  function Settled(v: seq<real>, fired: seq<bool>): seq<real>
    requires |v| == |fired|
  {
    seq(|v|, i requires 0 <= i < |v| && i < |fired| =>
          if fired[i] then 0.0
          else if true in fired then MaxR(v[i] - INHIBITION, 0.0)
          else v[i])
  }

  function Step(weights: seq<seq<real>>, b: Bank, stimuli: seq<real>, m: Modulators): Bank
    requires Shaped(weights, b) && |stimuli| <= |b.pred|
  {
    var threshold := Thresholds(b, m);
    var v := Potentials(weights, b.v, Drive(b.pred, stimuli), StressOf(m), DecayOf(m));
    var fired := Fired(v, threshold);
    Bank(Settled(v, fired), threshold, seq(|b.decay|, _ => DecayOf(m)), fired, Predictions(b.pred, stimuli))
  }

  /** The least distance of a potential to its threshold before the reset. */
  ghost predicate IsMargin(v: seq<real>, threshold: seq<real>, margin: real)
    requires |v| == |threshold|
  {
    && (forall i :: 0 <= i < |v| ==> margin <= AbsR(v[i] - threshold[i]))
    && (v != [] ==> exists i :: 0 <= i < |v| && margin == AbsR(v[i] - threshold[i]))
  }

  lemma {:induction false} IdsAreTheFired(fired: seq<bool>, n: nat)
    requires n <= |fired|
    ensures forall i :: i in Ids(fired, n) <==> 0 <= i < n && fired[i]
  {
    if n > 0 {
      IdsAreTheFired(fired, n - 1);
    }
  }
}
