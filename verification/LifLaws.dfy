/** The arithmetic of one tick of the reference bank, term by term. */
module LifLaws {
  import opened Prelude
  import opened LifSpec
  import opened LifBounds

  // ---------------------------------------------------------------- thresholds

  lemma Commute(a: real, b: real)
    ensures a * b == b * a
  {
  }

  /** Where a threshold is pulled to: the modulated base, raised after a spike, lowered after silence. */
  function Goal(spiked: bool, m: Modulators): real {
    0.20 - 0.05 * m.dopamine + 0.15 * m.norepinephrine - 0.05 * m.serotonin + (if spiked then 0.005 else -0.001)
  }

  /** Cut to [0.05, 0.50]. */
  function Cut(x: real): real {
    if x < 0.05 then 0.05 else if x > 0.50 then 0.50 else x
  }

  lemma ClampIsCut(x: real)
    ensures Clamp(x, 0.05, 0.50) == Cut(x)
  {
  }

  lemma BlendedIs(threshold: real, target: real, rate: real)
    ensures Blended(threshold, target, rate) == Cut(threshold + rate * (target - threshold))
  {
    Commute(rate, target - threshold);
    ClampIsCut(threshold + (target - threshold) * rate);
  }

  lemma RetunedIs(threshold: real, spiked: bool, m: Modulators)
    ensures Retuned(threshold, spiked, m) == Blended(threshold, Cut(Goal(spiked, m)), 0.5 * m.dopamine)
  {
    hide Blended;
    ClampIsCut(Goal(spiked, m));
  }

  /**
   How far a threshold moves: half the dopamine times the distance to its goal, both the goal and the
   result cut to [0.05, 0.50]. When no cut acts, five thousandths more of the goal after a spike and
   one thousandth less after silence are all the difference history makes.
   */
  lemma ThresholdMoves(threshold: real, spiked: bool, m: Modulators)
    ensures var base := 0.20 - 0.05 * m.dopamine + 0.15 * m.norepinephrine - 0.05 * m.serotonin;
            var goal := base + (if spiked then 0.005 else -0.001);
            var moved := threshold + 0.5 * m.dopamine * (Cut(goal) - threshold);
            && Retuned(threshold, spiked, m) == Cut(moved)
            && (0.05 <= goal <= 0.50 && 0.05 <= moved <= 0.50 ==>
                  Retuned(threshold, spiked, m) - threshold == 0.5 * m.dopamine * (goal - threshold))
  {
    hide Retuned;
    RetunedIs(threshold, spiked, m);
    BlendedIs(threshold, Cut(Goal(spiked, m)), 0.5 * m.dopamine);
  }

  lemma ScaleMonotone(rate: real, a: real, b: real)
    requires rate >= 0.0 && a <= b
    ensures rate * a <= rate * b
  {
  }

  /** From equal thresholds a neuron that spiked never ends below one that did not. */
  lemma SpikedNeverBelowSilent(threshold: real, m: Modulators)
    requires m.dopamine >= 0.0
    ensures Retuned(threshold, true, m) >= Retuned(threshold, false, m)
  {
    hide Retuned, Blended, Cut, Goal;
    var rate := 0.5 * m.dopamine;
    GoalsOrdered(m);
    RetunedIs(threshold, true, m);
    RetunedIs(threshold, false, m);
    BlendedIs(threshold, Cut(Goal(true, m)), rate);
    BlendedIs(threshold, Cut(Goal(false, m)), rate);
    CutMonotone(threshold, rate, Cut(Goal(false, m)) - threshold, Cut(Goal(true, m)) - threshold);
  }

  lemma GoalsOrdered(m: Modulators)
    ensures Cut(Goal(false, m)) <= Cut(Goal(true, m))
  {
  }

  lemma CutMonotone(threshold: real, rate: real, down: real, up: real)
    requires rate >= 0.0 && down <= up
    ensures Cut(threshold + rate * down) <= Cut(threshold + rate * up)
  {
    ScaleMonotone(rate, down, up);
  }

  // ---------------------------------------------------------------- drive

  /** A stimulus counts by its size, at most one; predictions close a tenth of the gap to it. */
  lemma PredictionCloses(pred: real, stimulus: real)
    ensures var s := if stimulus < -1.0 || stimulus > 1.0 then 1.0 else if stimulus < 0.0 then -stimulus else stimulus;
            && Predicted(pred, stimulus) - pred == 0.1 * (s - pred)
            && Driven(pred, stimulus) == s + 0.5 * (if s >= pred then s - pred else pred - s)
  {
  }

  /** Changing one channel changes the weighted sum by the weight of that channel, and no drive sums to zero. */
  lemma {:induction false} DotIsWeighted(row: seq<real>, drive: seq<real>, n: nat, k: nat, more: real)
    requires n <= |row| && n <= |drive| && k < |drive|
    ensures Dot(row, drive[k := drive[k] + more], n) == Dot(row, drive, n) + (if k < n then row[k] * more else 0.0)
  {
    if n > 0 {
      DotIsWeighted(row, drive, n - 1, k, more);
      if k == n - 1 {
        assert row[k] * (drive[k] + more) == row[k] * drive[k] + row[k] * more;
      }
    }
  }

  lemma {:induction false} DotOfNothing(row: seq<real>, drive: seq<real>, n: nat)
    requires n <= |row| && n <= |drive| && forall k :: 0 <= k < n ==> drive[k] == 0.0
    ensures Dot(row, drive, n) == 0.0
  {
    if n > 0 {
      DotOfNothing(row, drive, n - 1);
    }
  }

  /** The sum that the budget check takes is the weighted sum of a full drive. */
  lemma {:induction false} SumIsFullDrive(row: seq<real>, ones: seq<real>, n: nat)
    requires n <= |row| && n <= |ones| && forall k :: 0 <= k < n ==> ones[k] == 1.0
    ensures Sum(row, n) == Dot(row, ones, n)
  {
    if n > 0 {
      SumIsFullDrive(row, ones, n - 1);
    }
  }

  /** Stress scales the current: forty-five hundredths of what norepinephrine leaves of one, at least a tenth. */
  lemma CurrentUnderStress(row: seq<real>, drive: seq<real>, m: Modulators)
    requires |drive| <= |row|
    ensures var left := 1.0 - m.norepinephrine;
            Current(row, drive, StressOf(m)) == Dot(row, drive, |drive|) * 0.45 * (if left >= 0.1 then left else 0.1)
  {
    var d, s := Dot(row, drive, |drive|), StressOf(m);
    assert d * (0.45 * s) == d * 0.45 * s;
  }

  // ---------------------------------------------------------------- one neuron

  /** The potential of neuron `i` before anything fires: charged, then leaked. */
  ghost function Charged(weights: seq<seq<real>>, b: Bank, stimuli: seq<real>, m: Modulators, i: nat): real
    requires Shaped(weights, b) && |stimuli| <= |b.pred| && i < |weights|
  {
    (b.v[i] + Current(weights[i], Drive(b.pred, stimuli), StressOf(m))) * (0.85 + 0.05 * m.acetylcholine)
  }

  lemma LeakIsFactor(x: real, m: Modulators)
    ensures Leaked(x, DecayOf(m)) == x * (0.85 + 0.05 * m.acetylcholine)
  {
    assert 1.0 - DecayOf(m) == 0.85 + 0.05 * m.acetylcholine;
    assert Leaked(x, DecayOf(m)) == x * (1.0 - DecayOf(m));
  }

  /**
   One tick, neuron by neuron. A neuron fires exactly if its charged potential reaches its retuned
   threshold; it is then at rest. Every other neuron loses five hundredths, but not below zero, if any
   neuron fired, and nothing otherwise.
   */
  lemma NeuronByNeuron(weights: seq<seq<real>>, b: Bank, stimuli: seq<real>, m: Modulators, i: nat)
    requires Shaped(weights, b) && |stimuli| <= |b.pred| && i < |weights|
    ensures var b' := Step(weights, b, stimuli, m);
            var x := Charged(weights, b, stimuli, m, i);
            && |b'.v| == |b'.threshold| == |b'.decay| == |b'.lastSpike| == |weights|
            && b'.decay[i] == 0.15 - 0.05 * m.acetylcholine
            && b'.threshold[i] == Retuned(b.threshold[i], b.lastSpike[i], m)
            && (b'.lastSpike[i] <==> x >= b'.threshold[i])
            && b'.v[i] == if b'.lastSpike[i] then 0.0
                          else if exists j :: 0 <= j < |weights| && b'.lastSpike[j] then
                            (if x >= 0.05 then x - 0.05 else 0.0)
                          else x
  {
    hide Retuned, Current, Drive, StressOf, DecayOf, Leaked;
    var v := Potentials(weights, b.v, Drive(b.pred, stimuli), StressOf(m), DecayOf(m));
    LeakIsFactor(b.v[i] + Current(weights[i], Drive(b.pred, stimuli), StressOf(m)), m);
    assert v[i] == Charged(weights, b, stimuli, m, i);
    var fired := Fired(v, Thresholds(b, m));
    assert true in fired <==> exists j :: 0 <= j < |weights| && fired[j];
    DecayIs(m);
  }

  lemma DecayIs(m: Modulators)
    ensures DecayOf(m) == 0.15 - 0.05 * m.acetylcholine
  {
  }

  /** Channel by channel, the drive and the predictions of a tick; a channel without stimulus keeps its prediction. */
  lemma ChannelByChannel(weights: seq<seq<real>>, b: Bank, stimuli: seq<real>, m: Modulators, c: nat)
    requires Shaped(weights, b) && |stimuli| <= |b.pred| && c < |b.pred|
    ensures var b', drive := Step(weights, b, stimuli, m), Drive(b.pred, stimuli);
            && |b'.pred| == |b.pred| && |drive| == |stimuli|
            && b'.pred[c] == (if c < |stimuli| then Predicted(b.pred[c], stimuli[c]) else b.pred[c])
            && (c < |stimuli| ==> drive[c] == Driven(b.pred[c], stimuli[c]))
  {
  }

  ghost predicate IncreasingBelow(ids: seq<nat>, n: nat) {
    && (forall k :: 0 <= k < |ids| ==> ids[k] < n)
    && (forall j, k :: 0 <= j < k < |ids| ==> ids[j] < ids[k])
  }

  /** The ids of a tick are in increasing order. */
  lemma {:induction false} IdsIncrease(fired: seq<bool>, n: nat)
    requires n <= |fired|
    ensures IncreasingBelow(Ids(fired, n), n)
  {
    if n > 0 {
      IdsIncrease(fired, n - 1);
      var front := Ids(fired, n - 1);
      assert IncreasingBelow(front, n) && IncreasingBelow(front + [n - 1], n);
      assert front + [] == front;
    }
  }

  /** A row passes the budget check within a millionth of a millionth of two, and all rows must. */
  lemma BudgetCheck(rows: seq<seq<real>>)
    ensures RowsOk(rows) <==>
              forall i :: 0 <= i < |rows| ==>
                -0.000_000_000_001 < Sum(rows[i], |rows[i]|) - 2.0 < 0.000_000_000_001
  {
  }

  /** A bank starts with every potential and prediction at zero, nothing fired, and what it was given. */
  lemma StartsAtRest(count: nat, channels: nat, threshold: real, decay: real)
    ensures var b := Rest(count, channels, threshold, decay);
            && |b.v| == |b.threshold| == |b.decay| == |b.lastSpike| == count && |b.pred| == channels
            && (forall i :: 0 <= i < count ==>
                  b.v[i] == 0.0 && b.threshold[i] == threshold && b.decay[i] == decay && !b.lastSpike[i])
            && (forall c :: 0 <= c < channels ==> b.pred[c] == 0.0)
  {
  }
}
