/** The reference bank itself: five lists updated in place, tick by tick. */
module Lif {
  import opened Prelude
  import opened LifSpec

  class ReferenceNetwork {
    const weights: seq<seq<real>>
    const v: array<real>
    const threshold: array<real>
    const decay: array<real>
    const lastSpike: array<bool>
    const pred: array<real>

    ghost predicate Valid()
      reads this
    {
      && |weights| == v.Length == threshold.Length == decay.Length == lastSpike.Length
      && v != threshold && v != decay && v != pred
      && threshold != decay && threshold != pred && decay != pred
    }

    ghost function State(): Bank
      reads this, v, threshold, decay, lastSpike, pred
    {
      Bank(v[..], threshold[..], decay[..], lastSpike[..], pred[..])
    }

    constructor (rows: seq<seq<real>>, channels: nat, initialThreshold: real, initialDecay: real)
      ensures Valid() && weights == rows
      ensures State() == Rest(|rows|, channels, initialThreshold, initialDecay)
      ensures fresh(v) && fresh(threshold) && fresh(decay) && fresh(lastSpike) && fresh(pred)
    {
      weights := rows;
      v := new real[|rows|](_ => 0.0);
      threshold := new real[|rows|](_ => initialThreshold);
      decay := new real[|rows|](_ => initialDecay);
      lastSpike := new bool[|rows|](_ => false);
      pred := new real[channels](_ => 0.0);
    }

    /** The channels are counted on the first row; a row off its budget is refused. */
    static method New(rows: seq<seq<real>>, initialThreshold: real, initialDecay: real)
      returns (net: ReferenceNetwork?)
      requires rows != []
      ensures net != null <==> RowsOk(rows)
      ensures net != null ==>
                && net.Valid() && net.weights == rows
                && net.State() == Rest(|rows|, |rows[0]|, initialThreshold, initialDecay)
    {
      net := null;
      var i := 0;
      while i < |rows|
        invariant 0 <= i <= |rows|
        invariant forall j :: 0 <= j < i ==> AbsR(Sum(rows[j], |rows[j]|) - WEIGHT_BUDGET) < ROW_TOLERANCE
      {
        if AbsR(Sum(rows[i], |rows[i]|) - WEIGHT_BUDGET) >= ROW_TOLERANCE {
          return null;
        }
        i := i + 1;
      }
      net := new ReferenceNetwork(rows, |rows[0]|, initialThreshold, initialDecay);
    }

    /** Moves a threshold towards its target. */
    static method Blend(threshold: real, spiked: bool, base: real, rate: real, ghost m: Modulators)
      returns (tuned: real)
      requires rate == 0.5 * m.dopamine
      requires base == 0.20 - 0.05 * m.dopamine + 0.15 * m.norepinephrine - 0.05 * m.serotonin
      ensures tuned == Retuned(threshold, spiked, m)
    {
      assert Retuned(threshold, spiked, m)
          == Blended(threshold, Clamp(base + (if spiked then 0.005 else -0.001), THRESHOLD_FLOOR, THRESHOLD_CEIL), rate);
      var bonus := if spiked then 0.005 else -0.001;
      var target := Clamp(base + bonus, THRESHOLD_FLOOR, THRESHOLD_CEIL);
      var blended := threshold + (target - threshold) * rate;
      tuned := Clamp(blended, THRESHOLD_FLOOR, THRESHOLD_CEIL);
    }

    method Retune(m: Modulators)
      requires Valid()
      modifies threshold, decay
      ensures threshold[..] == Thresholds(old(State()), m)
      ensures decay[..] == seq(decay.Length, _ => DecayOf(m))
    {
      var rate := 0.5 * m.dopamine;
      var leak := 0.15 - 0.05 * m.acetylcholine;
      var base := 0.20 - 0.05 * m.dopamine + 0.15 * m.norepinephrine - 0.05 * m.serotonin;
      var i := 0;
      while i < lastSpike.Length
        invariant 0 <= i <= lastSpike.Length
        invariant forall j :: 0 <= j < i ==> threshold[j] == Retuned(old(threshold[j]), lastSpike[j], m)
        invariant forall j :: 0 <= j < i ==> decay[j] == leak
        invariant forall j :: i <= j < threshold.Length ==> threshold[j] == old(threshold[j])
      {
        decay[i] := leak;
        var tuned := Blend(threshold[i], lastSpike[i], base, rate, m);
        threshold[i] := tuned;
        i := i + 1;
      }
    }

    method Encode(stimuli: seq<real>) returns (drive: seq<real>)
      requires Valid() && |stimuli| <= pred.Length
      modifies pred
      ensures drive == Drive(old(pred[..]), stimuli) && pred[..] == Predictions(old(pred[..]), stimuli)
    {
      drive := [];
      var c := 0;
      while c < |stimuli|
        invariant 0 <= c <= |stimuli| && |drive| == c
        invariant forall j :: 0 <= j < c ==>
                    drive[j] == Driven(old(pred[j]), stimuli[j]) && pred[j] == Predicted(old(pred[j]), stimuli[j])
        invariant forall j :: c <= j < pred.Length ==> pred[j] == old(pred[j])
      {
        var s := Clamp(AbsR(stimuli[c]), 0.0, 1.0);
        var err := AbsR(s - pred[c]);
        pred[c] := PRED_ALPHA * s + (1.0 - PRED_ALPHA) * pred[c];
        drive := drive + [s + PRED_ERR_WEIGHT * err];
        c := c + 1;
      }
    }

    static method WeightedSum(row: seq<real>, drive: seq<real>) returns (total: real)
      ensures total == Dot(row, drive, Min(|row|, |drive|))
    {
      total := 0.0;
      var k := 0;
      while k < |row| && k < |drive|
        invariant 0 <= k <= |row| && k <= |drive|
        invariant total == Dot(row, drive, k)
      {
        total := total + row[k] * drive[k];
        k := k + 1;
      }
    }

    /** Adds the scaled current, then leaks. */
    static method Charge(potential: real, row: seq<real>, drive: seq<real>, stress: real, leak: real)
      returns (charged: real)
      ensures charged == Leaked(potential + Current(row, drive, stress), leak)
    {
      var current := WeightedSum(row, drive);
      current := current * (0.45 * stress);
      charged := potential + current;
      charged := charged - charged * leak;
    }

    /** None is the infinite margin of an empty bank. */
    method Integrate(drive: seq<real>, stress: real, ghost leak: real) returns (margin: Option<real>)
      requires Valid() && decay[..] == seq(decay.Length, _ => leak)
      modifies v
      ensures v[..] == Potentials(weights, old(v[..]), drive, stress, leak)
      ensures margin.None? <==> v.Length == 0
      ensures margin.Some? ==> IsMargin(v[..], threshold[..], margin.value)
    {
      margin := None;
      var i := 0;
      while i < |weights|
        invariant 0 <= i <= |weights|
        invariant forall j :: 0 <= j < i ==> v[j] == Leaked(old(v[j]) + Current(weights[j], drive, stress), leak)
        invariant forall j :: i <= j < v.Length ==> v[j] == old(v[j])
        invariant margin.None? <==> i == 0
        invariant margin.Some? ==>
                    && (forall j :: 0 <= j < i ==> margin.value <= AbsR(v[j] - threshold[j]))
                    && exists j :: 0 <= j < i && margin.value == AbsR(v[j] - threshold[j])
      {
        assert decay[i] == decay[..][i] == leak;
        v[i] := Charge(v[i], weights[i], drive, stress, decay[i]);
        var distance := AbsR(v[i] - threshold[i]);
        margin := if margin.None? then Some(distance) else Some(MinR(margin.value, distance));
        i := i + 1;
      }
    }

    method Fire() returns (spikes: seq<nat>)
      requires Valid()
      modifies v, lastSpike
      ensures lastSpike[..] == Fired(old(v[..]), threshold[..])
      ensures spikes == Ids(lastSpike[..], lastSpike.Length)
      ensures forall i :: 0 <= i < v.Length ==> v[i] == if lastSpike[i] then 0.0 else old(v[i])
    {
      spikes := [];
      var i := 0;
      while i < v.Length
        invariant 0 <= i <= v.Length
        invariant forall j :: 0 <= j < i ==>
                    lastSpike[j] == (old(v[j]) >= threshold[j]) && v[j] == if lastSpike[j] then 0.0 else old(v[j])
        invariant forall j :: i <= j < v.Length ==> v[j] == old(v[j])
        invariant spikes == Ids(lastSpike[..], i)
      {
        ghost var before := lastSpike[..];
        var fired := v[i] >= threshold[i];
        lastSpike[i] := fired;
        IdsIgnoreLater(before, lastSpike[..], i);
        if fired {
          v[i] := 0.0;
          spikes := spikes + [i];
        }
        i := i + 1;
      }
    }

    method Inhibit(spikes: seq<nat>)
      requires Valid() && spikes == Ids(lastSpike[..], lastSpike.Length)
      modifies v
      ensures forall i :: 0 <= i < v.Length ==>
                v[i] == if lastSpike[i] || spikes == [] then old(v[i]) else MaxR(old(v[i]) - INHIBITION, 0.0)
    {
      IdsAreTheFired(lastSpike[..], lastSpike.Length);
      if spikes == [] {
        return;
      }
      var fired := set i | i in spikes;
      var i := 0;
      while i < v.Length
        invariant 0 <= i <= v.Length
        invariant forall j :: 0 <= j < i ==>
                    v[j] == if lastSpike[j] then old(v[j]) else MaxR(old(v[j]) - INHIBITION, 0.0)
        invariant forall j :: i <= j < v.Length ==> v[j] == old(v[j])
      {
        if i !in fired {
          v[i] := MaxR(v[i] - INHIBITION, 0.0);
        }
        i := i + 1;
      }
    }

    method Advance(stimuli: seq<real>, m: Modulators) returns (spikes: seq<nat>, margin: Option<real>)
      requires Valid() && |stimuli| <= pred.Length
      modifies v, threshold, decay, lastSpike, pred
      ensures State() == Step(weights, old(State()), stimuli, m)
      ensures spikes == Ids(State().lastSpike, lastSpike.Length)
      ensures margin.None? <==> weights == []
      ensures margin.Some? ==>
                var b := old(State());
                IsMargin(Potentials(weights, b.v, Drive(b.pred, stimuli), StressOf(m), DecayOf(m)),
                         Thresholds(b, m), margin.value)
    {
      hide Settled, Potentials, Predictions, Drive, Thresholds, Ids;
      ghost var b := State();
      Retune(m);
      var drive := Encode(stimuli);
      margin := Integrate(drive, MaxR(1.0 - m.norepinephrine, 0.1), DecayOf(m));
      ghost var charged := v[..];
      spikes := Fire();
      Inhibit(spikes);
      SettledFrom(charged, lastSpike[..], spikes, v[..]);
      Assemble(weights, b, stimuli, m, charged, State());
    }
  }

  /** Fire and inhibit together settle the potentials. */
  lemma SettledFrom(charged: seq<real>, fired: seq<bool>, spikes: seq<nat>, v: seq<real>)
    requires |charged| == |fired| == |v| && spikes == Ids(fired, |fired|)
    requires forall i :: 0 <= i < |v| ==>
               var reset := if fired[i] then 0.0 else charged[i];
               v[i] == if fired[i] || spikes == [] then reset else MaxR(reset - INHIBITION, 0.0)
    ensures v == Settled(charged, fired)
  {
    SomeFired(fired);
  }

  lemma Assemble(weights: seq<seq<real>>, b: Bank, stimuli: seq<real>, m: Modulators, charged: seq<real>, b': Bank)
    requires Shaped(weights, b) && |stimuli| <= |b.pred|
    requires charged == Potentials(weights, b.v, Drive(b.pred, stimuli), StressOf(m), DecayOf(m))
    requires b'.threshold == Thresholds(b, m) && b'.pred == Predictions(b.pred, stimuli)
    requires b'.decay == seq(|b.decay|, _ => DecayOf(m))
    requires b'.lastSpike == Fired(charged, b'.threshold) && b'.v == Settled(charged, b'.lastSpike)
    ensures b' == Step(weights, b, stimuli, m)
  {
  }

  lemma {:induction false} IdsIgnoreLater(a: seq<bool>, b: seq<bool>, n: nat)
    requires n <= |a| && n <= |b| && a[..n] == b[..n]
    ensures Ids(a, n) == Ids(b, n)
  {
    if n > 0 {
      assert a[..n - 1] == a[..n][..n - 1] && b[..n - 1] == b[..n][..n - 1];
      assert a[n - 1] == a[..n][n - 1] == b[..n][n - 1] == b[n - 1];
      IdsIgnoreLater(a, b, n - 1);
    }
  }

  lemma SomeFired(fired: seq<bool>)
    ensures true in fired <==> Ids(fired, |fired|) != []
  {
    IdsAreTheFired(fired, |fired|);
    var ids := Ids(fired, |fired|);
    if ids != [] {
      assert ids[0] in ids && fired[ids[0]];
    }
    if i :| 0 <= i < |fired| && fired[i] {
      assert i in ids;
    }
  }
}
