/** What every run of the reference bank keeps, and how it falls silent. */
module LifBounds {
  import opened Prelude
  import opened LifSpec

  ghost predicate NonNegative(weights: seq<seq<real>>) {
    forall i, k :: 0 <= i < |weights| && 0 <= k < |weights[i]| ==> weights[i][k] >= 0.0
  }

  /** Predictions are intensities; this holds from the start. */
  ghost predicate PredOk(b: Bank) {
    forall c :: 0 <= c < |b.pred| ==> 0.0 <= b.pred[c] <= 1.0
  }

  ghost predicate NotNegative(b: Bank) {
    forall i :: 0 <= i < |b.v| ==> b.v[i] >= 0.0
  }

  /** What holds after any step. */
  ghost predicate Bounded(b: Bank) {
    && |b.v| == |b.threshold|
    && (forall i :: 0 <= i < |b.v| ==>
          b.v[i] < b.threshold[i] && THRESHOLD_FLOOR <= b.threshold[i] <= THRESHOLD_CEIL)
  }

  lemma LeakNonNegative(x: real, m: Modulators)
    requires x >= 0.0 && m.acetylcholine >= -17.0
    ensures Leaked(x, DecayOf(m)) >= 0.0
  {
    var keep := 1.0 - DecayOf(m);
    assert Leaked(x, DecayOf(m)) == x * keep;
  }

  lemma {:induction false} DotBounds(row: seq<real>, drive: seq<real>, n: nat, top: real)
    requires n <= |row| && n <= |drive| && top >= 0.0
    requires forall k :: 0 <= k < n ==> row[k] >= 0.0 && 0.0 <= drive[k] <= top
    ensures 0.0 <= Dot(row, drive, n) <= Sum(row, n) * top
    ensures Sum(row, n) >= 0.0
  {
    if n > 0 {
      DotBounds(row, drive, n - 1, top);
      var w, d := row[n - 1], drive[n - 1];
      assert 0.0 <= w * d <= w * top;
      assert Sum(row, n) * top == Sum(row, n - 1) * top + w * top;
    }
  }

  lemma {:induction false} SumGrows(row: seq<real>, n: nat, total: nat)
    requires n <= total <= |row| && forall k :: 0 <= k < total ==> row[k] >= 0.0
    ensures Sum(row, n) <= Sum(row, total)
    decreases total - n
  {
    if n < total {
      SumGrows(row, n, total - 1);
    }
  }

  lemma CurrentNonNegative(row: seq<real>, drive: seq<real>, stress: real)
    requires stress > 0.0 && forall k :: 0 <= k < |row| ==> row[k] >= 0.0
    requires forall k :: 0 <= k < |drive| ==> 0.0 <= drive[k] <= 2.0
    ensures Current(row, drive, stress) >= 0.0
  {
    var n := Min(|row|, |drive|);
    DotBounds(row, drive, n, 2.0);
    assert Dot(row, drive, n) * (0.45 * stress) >= 0.0;
  }

  lemma ChannelBounds(pred: real, stimulus: real)
    requires 0.0 <= pred <= 1.0
    ensures 0.0 <= Predicted(pred, stimulus) <= 1.0
    ensures 0.0 <= Driven(pred, stimulus) <= 2.0
  {
  }

  lemma DriveBounds(pred: seq<real>, stimuli: seq<real>)
    requires |stimuli| <= |pred| && forall c :: 0 <= c < |pred| ==> 0.0 <= pred[c] <= 1.0
    ensures forall c :: 0 <= c < |stimuli| ==> 0.0 <= Drive(pred, stimuli)[c] <= 2.0
    ensures forall c :: 0 <= c < |pred| ==> 0.0 <= Predictions(pred, stimuli)[c] <= 1.0
  {
    forall c | 0 <= c < |stimuli|
      ensures 0.0 <= Driven(pred[c], stimuli[c]) <= 2.0 && 0.0 <= Predicted(pred[c], stimuli[c]) <= 1.0
    {
      ChannelBounds(pred[c], stimuli[c]);
    }
  }

  /** Resetting and inhibiting leave no potential at its threshold, whatever the potentials were. */
  lemma SettleBelow(v: seq<real>, threshold: seq<real>)
    requires |v| == |threshold|
    requires forall i :: 0 <= i < |v| ==> THRESHOLD_FLOOR <= threshold[i] <= THRESHOLD_CEIL
    ensures var settled := Settled(v, Fired(v, threshold));
            forall i :: 0 <= i < |v| ==> settled[i] < threshold[i] && settled[i] <= MaxR(v[i], 0.0)
    ensures (forall i :: 0 <= i < |v| ==> v[i] >= 0.0) ==>
              forall i :: 0 <= i < |v| ==> Settled(v, Fired(v, threshold))[i] >= 0.0
  {
  }

  lemma StepKeepsBounds(weights: seq<seq<real>>, b: Bank, stimuli: seq<real>, m: Modulators)
    requires Shaped(weights, b) && |stimuli| <= |b.pred| && PredOk(b)
    ensures var b' := Step(weights, b, stimuli, m);
            Shaped(weights, b') && |b'.pred| == |b.pred| && PredOk(b') && Bounded(b')
  {
    DriveBounds(b.pred, stimuli);
    var v := Potentials(weights, b.v, Drive(b.pred, stimuli), StressOf(m), DecayOf(m));
    SettleBelow(v, Thresholds(b, m));
  }

  lemma StepKeepsSign(weights: seq<seq<real>>, b: Bank, stimuli: seq<real>, m: Modulators)
    requires Shaped(weights, b) && |stimuli| <= |b.pred| && NonNegative(weights)
    requires PredOk(b) && NotNegative(b) && m.acetylcholine >= -17.0
    ensures NotNegative(Step(weights, b, stimuli, m))
  {
    DriveBounds(b.pred, stimuli);
    var drive := Drive(b.pred, stimuli);
    var v := Potentials(weights, b.v, drive, StressOf(m), DecayOf(m));
    forall i | 0 <= i < |v|
      ensures v[i] >= 0.0
    {
      CurrentNonNegative(weights[i], drive, StressOf(m));
      LeakNonNegative(b.v[i] + Current(weights[i], drive, StressOf(m)), m);
    }
    SettleBelow(v, Thresholds(b, m));
  }

  // ---------------------------------------------------------------- when potentials stay non-negative

  /** A bank with non-negative rows that pass the budget check, about to hear some stimuli. */
  ghost predicate Hears(weights: seq<seq<real>>, b: Bank, stimuli: seq<real>) {
    && Shaped(weights, b) && |stimuli| <= |b.pred| && NonNegative(weights) && RowsOk(weights)
    && PredOk(b) && NotNegative(b)
  }

  ghost predicate KeepsSign(m: Modulators) {
    forall weights, b, stimuli :: Hears(weights, b, stimuli) ==> NotNegative(Step(weights, b, stimuli, m))
  }

  /** The smallest bank there is: one neuron on one channel. */
  const ONE_ROW: seq<seq<real>> := [[2.0]]

  function OneNeuron(): Bank {
    Rest(1, 1, 0.2, 0.15)
  }

  /** Its potential after a full stimulus, before the leak, is positive; a leak above one turns it negative. */
  lemma OneNeuronGoesNegative(m: Modulators)
    requires m.acetylcholine < -17.0
    ensures Hears(ONE_ROW, OneNeuron(), [1.0]) && !NotNegative(Step(ONE_ROW, OneNeuron(), [1.0], m))
  {
    assert Sum(ONE_ROW[0], 1) == Sum(ONE_ROW[0], 0) + 2.0;
    var drive := Drive(OneNeuron().pred, [1.0]);
    assert drive == [1.5];
    assert Dot(ONE_ROW[0], drive, 1) == Dot(ONE_ROW[0], drive, 0) + 2.0 * 1.5;
    var current := Current(ONE_ROW[0], drive, StressOf(m));
    assert current == 3.0 * (0.45 * StressOf(m)) > 0.0;
    LeakTurnsNegative(current, m);
    var v := Potentials(ONE_ROW, OneNeuron().v, drive, StressOf(m), DecayOf(m));
    assert v[0] == Leaked(0.0 + current, DecayOf(m)) < 0.0;
    assert Thresholds(OneNeuron(), m)[0] >= THRESHOLD_FLOOR;
    assert Fired(v, Thresholds(OneNeuron(), m)) == [false];
    assert Settled(v, [false])[0] == v[0];
    assert Step(ONE_ROW, OneNeuron(), [1.0], m).v[0] == v[0];
  }

  lemma LeakTurnsNegative(x: real, m: Modulators)
    requires x > 0.0 && m.acetylcholine < -17.0
    ensures Leaked(x, DecayOf(m)) < 0.0
  {
    var keep := 1.0 - DecayOf(m);
    assert Leaked(x, DecayOf(m)) == x * keep;
  }

  /**
   A tick keeps the potentials of every bank non-negative exactly when acetylcholine is at least -17;
   below that, a bank as it is built goes negative on its first tick.
   */
  lemma LeakKeepsSign(m: Modulators)
    ensures KeepsSign(m) <==> m.acetylcholine >= -17.0
  {
    if m.acetylcholine >= -17.0 {
      forall weights, b, stimuli | Hears(weights, b, stimuli)
        ensures NotNegative(Step(weights, b, stimuli, m))
      {
        StepKeepsSign(weights, b, stimuli, m);
      }
    } else {
      OneNeuronGoesNegative(m);
    }
  }

  // ---------------------------------------------------------------- every run

  datatype Input = Input(stimuli: seq<real>, modulators: Modulators)

  ghost predicate Fits(inputs: seq<Input>, channels: nat) {
    forall k :: 0 <= k < |inputs| ==> |inputs[k].stimuli| <= channels
  }

  ghost predicate MildLeak(inputs: seq<Input>) {
    forall k :: 0 <= k < |inputs| ==> inputs[k].modulators.acetylcholine >= -17.0
  }

  /** The states a run passes through, the last one first defined for the empty run. */
  ghost function RunBank(weights: seq<seq<real>>, b: Bank, inputs: seq<Input>): Bank
    requires Shaped(weights, b) && Fits(inputs, |b.pred|)
    ensures Shaped(weights, RunBank(weights, b, inputs)) && |RunBank(weights, b, inputs).pred| == |b.pred|
  {
    if inputs == [] then b
    else
      var before := RunBank(weights, b, inputs[..|inputs| - 1]);
      Step(weights, before, inputs[|inputs| - 1].stimuli, inputs[|inputs| - 1].modulators)
  }

  /**
   Every reachable state, whatever the weights and the modulators: potentials below their thresholds,
   thresholds in [0.05, 0.50], predictions in [0, 1]; and potentials never negative if no weight is
   and acetylcholine stays at or above -17.
   */
  lemma {:induction false} ReachableBounded(weights: seq<seq<real>>, b: Bank, inputs: seq<Input>)
    requires Shaped(weights, b) && Fits(inputs, |b.pred|) && PredOk(b)
    ensures var r := RunBank(weights, b, inputs);
            && PredOk(r) && (inputs != [] ==> Bounded(r))
            && (NonNegative(weights) && NotNegative(b) && MildLeak(inputs) ==> NotNegative(r))
    decreases |inputs|
  {
    if inputs != [] {
      var last := inputs[|inputs| - 1];
      var before := RunBank(weights, b, inputs[..|inputs| - 1]);
      ReachableBounded(weights, b, inputs[..|inputs| - 1]);
      StepKeepsBounds(weights, before, last.stimuli, last.modulators);
      if NonNegative(weights) && NotNegative(b) && MildLeak(inputs) {
        StepKeepsSign(weights, before, last.stimuli, last.modulators);
      }
    }
  }

  // ---------------------------------------------------------------- falling silent

  function Pow9(n: nat): real {
    if n == 0 then 1.0 else 0.9 * Pow9(n - 1)
  }

  /** No row weighs more than `s`. */
  ghost predicate RowsAtMost(weights: seq<seq<real>>, s: real) {
    forall i :: 0 <= i < |weights| ==> Sum(weights[i], |weights[i]|) <= s
  }

  /** The envelope of the potentials when predictions are at most `p`. */
  function Cap(s: real, p: real): real {
    3.825 * s * p
  }

  /** Predictions shrink by a tenth in a quiet tick, and the envelope of the potentials with them. */
  ghost predicate Within(b: Bank, s: real, p: real) {
    && (forall i :: 0 <= i < |b.v| ==> b.v[i] <= Cap(s, p))
    && (forall c :: 0 <= c < |b.pred| ==> 0.0 <= b.pred[c] <= p)
  }

  lemma {:induction false} Pow9Positive(n: nat)
    ensures 0.0 < Pow9(n) <= 1.0
  {
    if n > 0 {
      Pow9Positive(n - 1);
    }
  }

  /** The zero stimulus of full width. */
  function Silence(channels: nat): seq<real> {
    seq(channels, _ => 0.0)
  }

  lemma QuietDrive(pred: seq<real>, top: real)
    requires forall c :: 0 <= c < |pred| ==> 0.0 <= pred[c] <= top
    ensures var drive := Drive(pred, Silence(|pred|));
            forall c :: 0 <= c < |pred| ==> 0.0 <= drive[c] <= 0.5 * top
    ensures forall c :: 0 <= c < |pred| ==> 0.0 <= Predictions(pred, Silence(|pred|))[c] <= 0.9 * top
  {
    forall c | 0 <= c < |pred|
      ensures Driven(pred[c], 0.0) == 0.5 * pred[c] && Predicted(pred[c], 0.0) == 0.9 * pred[c]
    {
    }
  }

  lemma QuietCurrent(row: seq<real>, drive: seq<real>, s: real, top: real)
    requires (forall k :: 0 <= k < |row| ==> row[k] >= 0.0) && Sum(row, |row|) <= s && top >= 0.0
    requires forall k :: 0 <= k < |drive| ==> 0.0 <= drive[k] <= top
    ensures 0.0 <= Current(row, drive, 1.0) <= 0.45 * (s * top)
  {
    var n := Min(|row|, |drive|);
    DotBounds(row, drive, n, top);
    SumGrows(row, n, |row|);
    assert Sum(row, n) * top <= s * top;
  }

  /** One quiet tick keeps the envelope, already before anything fires. */
  lemma QuietPotential(x: real, current: real, s: real, p: real)
    requires s >= 0.0 && p > 0.0
    requires x <= Cap(s, p) && current <= 0.45 * (s * (0.5 * p))
    ensures Leaked(x + current, DecayOf(QUIET)) <= Cap(s, 0.9 * p)
  {
    var sp := s * p;
    assert 3.825 * s * p == 3.825 * sp && s * (0.5 * p) == 0.5 * sp;
    assert 3.825 * s * (0.9 * p) == 3.4425 * sp;
    assert Leaked(x + current, DecayOf(QUIET)) == 0.85 * (x + current);
    assert x + current <= 4.05 * sp;
  }

  ghost function QuietPotentials(weights: seq<seq<real>>, b: Bank): seq<real>
    requires Shaped(weights, b)
  {
    Potentials(weights, b.v, Drive(b.pred, Silence(|b.pred|)), StressOf(QUIET), DecayOf(QUIET))
  }

  lemma QuietPotentialsWithin(weights: seq<seq<real>>, b: Bank, s: real, p: real)
    requires Shaped(weights, b) && NonNegative(weights) && RowsAtMost(weights, s) && s >= 0.0
    requires Within(b, s, p) && p > 0.0
    ensures forall i :: 0 <= i < |b.v| ==> QuietPotentials(weights, b)[i] <= Cap(s, 0.9 * p)
  {
    QuietDrive(b.pred, p);
    var drive := Drive(b.pred, Silence(|b.pred|));
    forall i | 0 <= i < |b.v|
      ensures QuietPotentials(weights, b)[i] <= Cap(s, 0.9 * p)
    {
      QuietCurrent(weights[i], drive, s, 0.5 * p);
      QuietPotential(b.v[i], Current(weights[i], drive, 1.0), s, p);
      assert StressOf(QUIET) == 1.0;
    }
  }

  lemma QuietStep(weights: seq<seq<real>>, b: Bank, s: real, p: real)
    requires Shaped(weights, b) && NonNegative(weights) && RowsAtMost(weights, s) && s >= 0.0
    requires Within(b, s, p) && p > 0.0
    ensures Within(Step(weights, b, Silence(|b.pred|), QUIET), s, 0.9 * p)
  {
    QuietPotentialsWithin(weights, b, s, p);
    QuietDrive(b.pred, p);
    SettleBelow(QuietPotentials(weights, b), Thresholds(b, QUIET));
    assert Cap(s, 0.9 * p) >= 0.0;
  }

  /** `n` quiet ticks. */
  ghost function QuietRun(weights: seq<seq<real>>, b: Bank, n: nat): Bank
    requires Shaped(weights, b)
    ensures Shaped(weights, QuietRun(weights, b, n)) && |QuietRun(weights, b, n).pred| == |b.pred|
  {
    if n == 0 then b else Step(weights, QuietRun(weights, b, n - 1), Silence(|b.pred|), QUIET)
  }

  lemma QuietNext(weights: seq<seq<real>>, b: Bank, s: real, n: nat)
    requires Shaped(weights, b) && NonNegative(weights) && RowsAtMost(weights, s) && s >= 0.0
    requires Within(b, s, Pow9(n))
    ensures Within(Step(weights, b, Silence(|b.pred|), QUIET), s, Pow9(n + 1))
  {
    Pow9Positive(n);
    QuietStep(weights, b, s, Pow9(n));
  }

  /**
   After `n` quiet ticks potentials are at most 3.825 s 0.9^n: with rows of weight 2, 7.65 0.9^n. Those
   that were not negative are not negative.
   */
  lemma {:induction false} QuietEnvelope(weights: seq<seq<real>>, b: Bank, s: real, n: nat)
    requires Shaped(weights, b) && NonNegative(weights) && RowsAtMost(weights, s) && s >= 0.0
    requires Within(b, s, 1.0)
    ensures Within(QuietRun(weights, b, n), s, Pow9(n))
    ensures NotNegative(b) ==> NotNegative(QuietRun(weights, b, n))
  {
    hide Step;
    if n > 0 {
      var before := QuietRun(weights, b, n - 1);
      QuietEnvelope(weights, b, s, n - 1);
      QuietNext(weights, before, s, n - 1);
      Pow9Positive(n - 1);
      if NotNegative(b) {
        StepKeepsSign(weights, before, Silence(|b.pred|), QUIET);
      }
    }
  }

  lemma {:induction false} Pow9Adds(a: nat, b: nat)
    ensures Pow9(a + b) == Pow9(a) * Pow9(b)
  {
    if b > 0 {
      Pow9Adds(a, b - 1);
    }
  }

  lemma Pow9Shrinks(a: nat, b: nat)
    ensures Pow9(a + b) <= Pow9(a)
  {
    Pow9Adds(a, b);
    Pow9Positive(a);
    Pow9Positive(b);
  }

  lemma Square(n: nat, bound: real, next: real)
    requires Pow9(n) <= bound && bound * bound <= next
    ensures Pow9(n + n) <= next
  {
    Pow9Adds(n, n);
    Pow9Positive(n);
    assert Pow9(n) * Pow9(n) <= bound * bound;
  }

  lemma Pow9At48()
    ensures Pow9(48) <= 0.0064
  {
    assert Pow9(1) == 0.9 && Pow9(2) == 0.81;
    Square(2, 0.81, 0.6561);
    Square(4, 0.6561, 0.4305);
    Square(8, 0.4305, 0.1854);
    Square(16, 0.1854, 0.0344);
    Pow9Adds(32, 16);
    Pow9Positive(16);
    Pow9Positive(32);
    assert Pow9(32) * Pow9(16) <= 0.0344 * 0.1854;
  }

  /**
   A bank that hears nothing falls silent: from any state a run can reach, with rows that pass the
   budget check, no neuron fires from the 48th quiet tick on.
   */
  lemma SilentFromTick48(weights: seq<seq<real>>, b: Bank, n: nat)
    requires Shaped(weights, b) && NonNegative(weights) && RowsOk(weights)
    requires PredOk(b) && Bounded(b) && n >= 48
    ensures forall i :: 0 <= i < |b.v| ==> !QuietRun(weights, b, n).lastSpike[i]
  {
    hide Step, Potentials;
    var s := WEIGHT_BUDGET + ROW_TOLERANCE;
    QuietEnvelope(weights, b, s, n - 1);
    Pow9Positive(n - 1);
    var before := QuietRun(weights, b, n - 1);
    QuietPotentialsWithin(weights, before, s, Pow9(n - 1));
    CapBelowFloor(n);
    NoneFires(weights, before);
  }

  /** The same after any run of the bank from rest, whatever stimuli and modulators it heard before. */
  lemma SilentAfterAnyRun(weights: seq<seq<real>>, channels: nat, threshold: real, decay: real, inputs: seq<Input>,
                          n: nat)
    requires NonNegative(weights) && RowsOk(weights) && inputs != [] && Fits(inputs, channels) && n >= 48
    ensures var b := RunBank(weights, Rest(|weights|, channels, threshold, decay), inputs);
            forall i :: 0 <= i < |weights| ==> !QuietRun(weights, b, n).lastSpike[i]
  {
    var rest := Rest(|weights|, channels, threshold, decay);
    ReachableBounded(weights, rest, inputs);
    SilentFromTick48(weights, RunBank(weights, rest, inputs), n);
  }

  lemma CapBelowFloor(n: nat)
    requires n >= 48
    ensures Cap(WEIGHT_BUDGET + ROW_TOLERANCE, Pow9(n)) < THRESHOLD_FLOOR
  {
    Pow9At48();
    Pow9Shrinks(48, n - 48);
  }

  /** Potentials below the floor of the thresholds fire nothing. */
  lemma NoneFires(weights: seq<seq<real>>, b: Bank)
    requires Shaped(weights, b)
    requires forall i :: 0 <= i < |b.v| ==> QuietPotentials(weights, b)[i] < THRESHOLD_FLOOR
    ensures forall i :: 0 <= i < |b.v| ==> !Step(weights, b, Silence(|b.pred|), QUIET).lastSpike[i]
  {
    var v, threshold := QuietPotentials(weights, b), Thresholds(b, QUIET);
    var b' := Step(weights, b, Silence(|b.pred|), QUIET);
    assert b'.lastSpike == Fired(v, threshold);
    forall i | 0 <= i < |b.v|
      ensures !Fired(v, threshold)[i]
    {
      assert threshold[i] >= THRESHOLD_FLOOR;
    }
  }
}
