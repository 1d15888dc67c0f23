/** Output-length estimation: a time-decayed average per route. Time is counted
    in clock ticks, and `decay` is the factor by which one tick shrinks the
    weight of the past. */
module Estimator {
  import opened Machine
  import opened Backends
  import Cost

  function Power(decay: real, n: nat): real {
    if n == 0 then 1.0 else decay * Power(decay, n - 1)
  }

  /** One route's average: the estimate, if any, and the time it was last fed. */
  datatype Average = Average(estimate: Option<real>, lastObs: nat)

  const EMPTY := Average(None, 0)

  /** A share `keep` of the old average and the remainder of the new value. */
  function Mix(prev: real, value: real, keep: real): real {
    prev * keep + value * (1.0 - keep)
  }

  function Elapsed(from: nat, to: nat): nat {
    if to >= from then to - from else 0
  }

  function Observed(decay: real, a: Average, value: uint32, now: nat): Average {
    match a.estimate
    case None => Average(Some(value as real), now)
    case Some(prev) =>
      var keep := Power(decay, Elapsed(a.lastObs, now));
      Average(Some(Mix(prev, value as real, keep)), now)
  }

  /** `x.round() as u32`: half away from zero, then saturating at both ends. */
  function Round(x: real): uint32 {
    var n := if x >= 0.0 then (x + 0.5).Floor else -((0.5 - x).Floor);
    if n < 0 then 0 else if n < U32_MOD then n else U32_MOD - 1
  }

  class DecayingQuantile {
    const decay: real
    var estimate: Option<real>
    var lastObs: nat

    function State(): Average
      reads this
    {
      Average(estimate, lastObs)
    }

    constructor (decay: real)
      ensures this.decay == decay && State() == EMPTY
    {
      this.decay := decay;
      estimate, lastObs := None, 0;
    }

    method Observe(value: uint32, now: nat)
      modifies this
      ensures State() == Observed(decay, old(State()), value, now)
    {
      match estimate
      case None =>
        estimate := Some(value as real);
        lastObs := now;
      case Some(prev) =>
        var keep := Power(decay, Elapsed(lastObs, now));
        estimate := Some(Mix(prev, value as real, keep));
        lastObs := now;
    }

    function Estimate(): Option<uint32>
      reads this
    {
      Rounded(State())
    }
  }

  function Rounded(a: Average): Option<uint32> {
    match a.estimate
    case None => None
    case Some(x) => Some(Round(x))
  }

  // ----- powers

  lemma {:induction false} PowerAdds(decay: real, a: nat, b: nat)
    ensures Power(decay, a + b) == Power(decay, a) * Power(decay, b)
  {
    if b == 0 {
    } else {
      PowerAdds(decay, a, b - 1);
      Reassociate(decay, Power(decay, a), Power(decay, b - 1));
    }
  }

  lemma Reassociate(x: real, y: real, z: real)
    ensures x * (y * z) == y * (x * z)
  {
  }

  lemma {:induction false} PowerInUnit(decay: real, n: nat)
    requires 0.0 < decay <= 1.0
    ensures 0.0 < Power(decay, n) <= 1.0
  {
    if n == 0 {
    } else {
      PowerInUnit(decay, n - 1);
      ProductInUnit(decay, Power(decay, n - 1));
    }
  }

  lemma ProductInUnit(x: real, y: real)
    requires 0.0 < x <= 1.0 && 0.0 < y <= 1.0
    ensures 0.0 < x * y <= y
  {
  }

  lemma {:induction false} PowerStrict(decay: real, a: nat, b: nat)
    requires 0.0 < decay < 1.0 && a < b
    ensures Power(decay, b) < Power(decay, a)
  {
    hide Power;
    PowerStep(decay, b - 1);
    if a == b - 1 {
    } else {
      PowerStrict(decay, a, b - 1);
    }
  }

  lemma PowerStep(decay: real, n: nat)
    requires 0.0 < decay < 1.0
    ensures Power(decay, n + 1) < Power(decay, n)
  {
    PowerInUnit(decay, n);
    ProductStrict(decay, Power(decay, n), Power(decay, n + 1));
  }

  lemma ProductStrict(x: real, y: real, xy: real)
    requires x < 1.0 && y > 0.0 && xy == x * y
    ensures xy < y
  {
    assert (1.0 - x) * y > 0.0;
  }

  // ----- rounding

  /** The reported estimate is the nearest whole number, a half going up, and stops
      at both ends of the 32-bit range. */
  lemma RoundIsNearest(x: real)
    ensures 0.0 <= x < (U32_MOD - 1) as real + 0.5 ==> Round(x) as real - 0.5 <= x < Round(x) as real + 0.5
    ensures x >= (U32_MOD - 1) as real - 0.5 ==> Round(x) == U32_MOD - 1
    ensures x < 0.5 ==> Round(x) == 0
  {
  }

  // ----- closed form

  datatype Observation = Observation(value: uint32, at: nat)

  function ObservedAll(decay: real, obs: seq<Observation>): Average {
    if obs == [] then EMPTY
    else
      var last := obs[|obs| - 1];
      Observed(decay, ObservedAll(decay, obs[..|obs| - 1]), last.value, last.at)
  }

  /** Forward time from observation `i` to the last one: backward clock steps
      count as zero. */
  function Forward(obs: seq<Observation>, i: nat): nat
    requires i < |obs|
  {
    if i == |obs| - 1 then 0
    else Forward(obs[..|obs| - 1], i) + Elapsed(obs[|obs| - 2].at, obs[|obs| - 1].at)
  }

  /** Share of observation `i` in the average after all of `obs`. */
  function Weight(decay: real, obs: seq<Observation>, i: nat): real
    requires i < |obs|
  {
    if i == 0 then Power(decay, Forward(obs, 0))
    else Power(decay, Forward(obs, i)) - Power(decay, Forward(obs, i - 1))
  }

  function WeightSum(decay: real, obs: seq<Observation>, n: nat): real
    requires n <= |obs|
  {
    if n == 0 then 0.0 else WeightSum(decay, obs, n - 1) + Weight(decay, obs, n - 1)
  }

  function WeightedSum(decay: real, obs: seq<Observation>, n: nat): real
    requires n <= |obs|
  {
    if n == 0 then 0.0
    else WeightedSum(decay, obs, n - 1) + obs[n - 1].value as real * Weight(decay, obs, n - 1)
  }

  lemma {:induction false} LastObsIsLast(decay: real, obs: seq<Observation>)
    requires obs != []
    ensures ObservedAll(decay, obs).estimate.Some? && ObservedAll(decay, obs).lastObs == obs[|obs| - 1].at
  {
    if |obs| == 1 {
    } else {
      LastObsIsLast(decay, obs[..|obs| - 1]);
    }
  }

  /** The average is the weighted sum of everything observed, with the weights
      above: the first value keeps what decays over the whole history, and each
      later one what decayed between its predecessor and itself. */
  lemma {:induction false} ClosedForm(decay: real, obs: seq<Observation>)
    requires obs != []
    ensures ObservedAll(decay, obs).estimate == Some(WeightedSum(decay, obs, |obs|))
  {
    hide Mix, Weight, Power;
    var n := |obs| - 1;
    var before, last := obs[..n], obs[n];
    if n == 0 {
      assert before == [];
      FirstWeight(decay, obs);
    } else {
      ClosedForm(decay, before);
      LastObsIsLast(decay, before);
      ScaledPrefix(decay, obs, n);
      LastWeight(decay, obs);
      assert before[n - 1] == obs[n - 1];
      MixIs(WeightedSum(decay, before, n), last.value as real, Power(decay, Elapsed(before[n - 1].at, last.at)),
            WeightedSum(decay, obs, n), Weight(decay, obs, n), WeightedSum(decay, obs, n + 1));
    }
  }

  lemma MixIs(prev: real, v: real, keep: real, scaled: real, w: real, total: real)
    requires scaled == prev * keep && w == 1.0 - keep && total == scaled + v * w
    ensures Mix(prev, v, keep) == total
  {
  }

  lemma FirstWeight(decay: real, obs: seq<Observation>)
    requires |obs| == 1
    ensures WeightedSum(decay, obs, 1) == obs[0].value as real
  {
    assert WeightedSum(decay, obs, 0) == 0.0;
    assert Weight(decay, obs, 0) == 1.0;
  }

  lemma LastWeight(decay: real, obs: seq<Observation>)
    requires |obs| > 1
    ensures Weight(decay, obs, |obs| - 1)
            == 1.0 - Power(decay, Elapsed(obs[|obs| - 2].at, obs[|obs| - 1].at))
  {
    assert Forward(obs[..|obs| - 1], |obs| - 2) == 0;
  }

  /** One more observation scales every earlier weight by what it lets survive. */
  lemma WeightScales(decay: real, obs: seq<Observation>, i: nat)
    requires i < |obs| - 1
    ensures Weight(decay, obs, i) == Weight(decay, obs[..|obs| - 1], i)
                                     * Power(decay, Elapsed(obs[|obs| - 2].at, obs[|obs| - 1].at))
  {
    hide Power;
    var before, step := obs[..|obs| - 1], Elapsed(obs[|obs| - 2].at, obs[|obs| - 1].at);
    PowerAdds(decay, Forward(before, i), step);
    if i > 0 {
      PowerAdds(decay, Forward(before, i - 1), step);
      Distribute(Power(decay, Forward(before, i)), Power(decay, Forward(before, i - 1)), Power(decay, step),
                 Power(decay, Forward(obs, i)), Power(decay, Forward(obs, i - 1)), Weight(decay, before, i),
                 Weight(decay, before, i) * Power(decay, step));
    }
  }

  lemma Distribute(x: real, y: real, k: real, xk: real, yk: real, d: real, dk: real)
    requires xk == x * k && yk == y * k && d == x - y && dk == d * k
    ensures xk - yk == dk
  {
  }

  lemma {:induction false} ScaledPrefix(decay: real, obs: seq<Observation>, n: nat)
    requires |obs| > 1 && n <= |obs| - 1
    ensures var keep := Power(decay, Elapsed(obs[|obs| - 2].at, obs[|obs| - 1].at));
            WeightedSum(decay, obs, n) == WeightedSum(decay, obs[..|obs| - 1], n) * keep
  {
    hide Weight, Power;
    var before, keep := obs[..|obs| - 1], Power(decay, Elapsed(obs[|obs| - 2].at, obs[|obs| - 1].at));
    if n == 0 {
    } else {
      ScaledPrefix(decay, obs, n - 1);
      WeightScales(decay, obs, n - 1);
      var w := Weight(decay, before, n - 1);
      AddScaled(WeightedSum(decay, before, n - 1), obs[n - 1].value as real, w, keep, Weight(decay, obs, n - 1));
    }
  }

  lemma AddScaled(s: real, v: real, w: real, k: real, wk: real)
    requires wk == w * k
    ensures s * k + v * wk == (s + v * w) * k
  {
    assert v * (w * k) == (v * w) * k;
  }

  /** The weights telescope: the first `n` together hold what decays from
      observation `n - 1` to the last. */
  lemma {:induction false} WeightsTelescope(decay: real, obs: seq<Observation>, n: nat)
    requires 0 < n <= |obs|
    ensures WeightSum(decay, obs, n) == Power(decay, Forward(obs, n - 1))
  {
    hide Power, Forward;
    if n > 1 {
      WeightsTelescope(decay, obs, n - 1);
    } else {
      assert WeightSum(decay, obs, 0) == 0.0;
    }
  }

  lemma {:induction false} ForwardFalls(obs: seq<Observation>, i: nat)
    requires i + 1 < |obs|
    ensures Forward(obs, i + 1) <= Forward(obs, i)
  {
    if i + 2 == |obs| {
    } else {
      ForwardFalls(obs[..|obs| - 1], i);
    }
  }

  lemma {:induction false} PowerAntitone(decay: real, a: nat, b: nat)
    requires 0.0 < decay <= 1.0 && a <= b
    ensures Power(decay, b) <= Power(decay, a)
  {
    if a == b {
    } else {
      PowerAntitone(decay, a, b - 1);
      PowerInUnit(decay, b - 1);
      ProductInUnit(decay, Power(decay, b - 1));
    }
  }

  /** The weights are a genuine average: none negative, summing to one. */
  lemma WeightsAverage(decay: real, obs: seq<Observation>)
    requires 0.0 < decay <= 1.0 && obs != []
    ensures forall i | 0 <= i < |obs| :: Weight(decay, obs, i) >= 0.0
    ensures WeightSum(decay, obs, |obs|) == 1.0
  {
    WeightsTelescope(decay, obs, |obs|);
    forall i | 0 <= i < |obs| ensures Weight(decay, obs, i) >= 0.0 {
      PowerInUnit(decay, Forward(obs, i));
      if i > 0 {
        ForwardFalls(obs, i - 1);
        PowerAntitone(decay, Forward(obs, i), Forward(obs, i - 1));
      }
    }
  }

  // ----- what the weights depend on

  /** However many observations of one value arrive, and at whatever times, the
      average moves from what it was toward that value by an amount fixed by the
      forward time that passed. */
  lemma {:induction false} CountDoesNotMatter(decay: real, history: seq<Observation>, more: seq<Observation>, v: uint32)
    requires history != [] && forall i | 0 <= i < |more| :: more[i].value == v
    ensures ObservedAll(decay, history + more).estimate
            == Some(Mix(ObservedAll(decay, history).estimate.value, v as real,
                        Power(decay, Forward(history + more, |history| - 1))))
  {
    hide Mix, Power;
    LastObsIsLast(decay, history);
    var start := ObservedAll(decay, history).estimate.value;
    if more == [] {
      assert history + more == history;
      MixAll(start, v as real, decay);
    } else {
      var n := |more| - 1;
      var all, before := history + more, history + more[..n];
      assert all[..|all| - 1] == before;
      CountDoesNotMatter(decay, history, more[..n], v);
      LastObsIsLast(decay, before);
      var step := Elapsed(all[|all| - 2].at, all[|all| - 1].at);
      assert before[|before| - 1] == all[|all| - 2] && all[|all| - 1] == more[n];
      PowerAdds(decay, Forward(before, |history| - 1), step);
      MixTwice(start, v as real, Power(decay, Forward(before, |history| - 1)), Power(decay, step),
               Power(decay, Forward(all, |history| - 1)));
    }
  }

  lemma MixAll(x: real, v: real, decay: real)
    ensures Mix(x, v, Power(decay, 0)) == x
  {
  }

  lemma MixTwice(x: real, v: real, a: real, b: real, ab: real)
    requires ab == a * b
    ensures Mix(Mix(x, v, a), v, b) == Mix(x, v, ab)
  {
    assert (x * a + v * (1.0 - a)) * b == x * (a * b) + v * b - v * (a * b);
  }

  ghost predicate Sorted(obs: seq<Observation>) {
    forall i | 0 <= i < |obs| - 1 :: obs[i].at <= obs[i + 1].at
  }

  /** Forward time is never less than clock time, and equal exactly when the
      clock readings never step back. */
  lemma {:induction false} ForwardIsElapsedIff(obs: seq<Observation>)
    requires obs != []
    ensures obs[0].at + Forward(obs, 0) >= obs[|obs| - 1].at
    ensures obs[0].at + Forward(obs, 0) == obs[|obs| - 1].at <==> Sorted(obs)
  {
    if |obs| == 1 {
    } else {
      var before := obs[..|obs| - 1];
      ForwardIsElapsedIff(before);
      assert Sorted(obs) <==> Sorted(before) && obs[|obs| - 2].at <= obs[|obs| - 1].at by {
        assert forall i | 0 <= i < |before| :: before[i] == obs[i];
      }
    }
  }

  /** So the oldest value keeps exactly the weight its age gives it if and only if
      the observations arrived in clock order; otherwise it keeps less. */
  lemma WeightIsAgeIff(decay: real, obs: seq<Observation>)
    requires 0.0 < decay < 1.0 && obs != [] && obs[0].at <= obs[|obs| - 1].at
    ensures var age := obs[|obs| - 1].at - obs[0].at;
            && (Weight(decay, obs, 0) == Power(decay, age) <==> Sorted(obs))
            && Weight(decay, obs, 0) <= Power(decay, age)
  {
    var age: nat := obs[|obs| - 1].at - obs[0].at;
    ForwardIsElapsedIff(obs);
    if Forward(obs, 0) != age {
      PowerStrict(decay, age, Forward(obs, 0));
    }
  }

  // Readings 5, 3, 6: the second one was taken before the first and stored after it.
  const STEPPED_BACK := [Observation(100, 5), Observation(200, 3), Observation(300, 6)]

  /** One clock tick passed since the oldest value, but it has decayed by three. */
  lemma SteppedBackDecaysMore(decay: real)
    requires 0.0 < decay < 1.0
    ensures !Sorted(STEPPED_BACK)
    ensures Weight(decay, STEPPED_BACK, 0) == decay * decay * decay < decay
  {
    var obs := STEPPED_BACK;
    assert obs[..2] == [obs[0], obs[1]] && obs[..2][..1] == [obs[0]];
    assert Forward(obs[..2][..1], 0) == 0 && Forward(obs[..2], 0) == 0 && Forward(obs, 0) == 3;
    assert obs[0].at > obs[1].at;
    hide Forward;
    PowerThree(decay);
  }

  lemma PowerThree(decay: real)
    requires 0.0 < decay < 1.0
    ensures Power(decay, 3) == decay * decay * decay < decay
  {
    assert Power(decay, 1) == decay;
    assert Power(decay, 2) == decay * decay;
    PowerStrict(decay, 1, 3);
  }

  // ----- bounds

  /** At any times, in any order, the rounded estimate stays within the values
      that were observed. */
  lemma {:induction false} EstimateWithinObserved(decay: real, obs: seq<Observation>, lo: uint32, hi: uint32)
    requires 0.0 < decay <= 1.0 && obs != []
    requires forall i | 0 <= i < |obs| :: lo <= obs[i].value <= hi
    ensures ObservedAll(decay, obs).estimate.Some?
    ensures var x := ObservedAll(decay, obs).estimate.value;
            lo as real <= x <= hi as real && lo <= Round(x) <= hi
  {
    hide Mix, Power;
    var n := |obs| - 1;
    LastObsIsLast(decay, obs);
    if n == 0 {
      assert obs[..0] == [];
    } else {
      EstimateWithinObserved(decay, obs[..n], lo, hi);
      LastObsIsLast(decay, obs[..n]);
      var keep := Power(decay, Elapsed(obs[n - 1].at, obs[n].at));
      PowerInUnit(decay, Elapsed(obs[n - 1].at, obs[n].at));
      MixWithin(ObservedAll(decay, obs[..n]).estimate.value, obs[n].value as real, keep, lo as real, hi as real);
    }
  }

  lemma MixWithin(x: real, v: real, k: real, lo: real, hi: real)
    requires 0.0 <= k <= 1.0 && lo <= x <= hi && lo <= v <= hi
    ensures lo <= Mix(x, v, k) <= hi
  {
    Convex(x, v, k, 1.0 - k, lo, hi, Mix(x, v, k));
  }

  lemma Convex(x: real, v: real, k: real, j: real, lo: real, hi: real, m: real)
    requires k >= 0.0 && j >= 0.0 && k + j == 1.0 && lo <= x <= hi && lo <= v <= hi
    requires m == x * k + v * j
    ensures lo <= m <= hi
  {
    MulBetween(k, lo, x, hi, lo * k, x * k, hi * k);
    MulBetween(j, lo, v, hi, lo * j, v * j, hi * j);
    Split(lo, k, j, lo * k + lo * j);
    Split(hi, k, j, hi * k + hi * j);
  }

  lemma MulBetween(k: real, lo: real, x: real, hi: real, lok: real, xk: real, hik: real)
    requires k >= 0.0 && lo <= x <= hi
    requires lok == lo * k && xk == x * k && hik == hi * k
    ensures lok <= xk <= hik
  {
    Cost.MulMono(k, lo, x);
    Cost.MulMono(k, x, hi);
  }

  lemma Split(x: real, k: real, j: real, sum: real)
    requires k + j == 1.0 && sum == x * k + x * j
    ensures sum == x
  {
    assert j == 1.0 - k;
    assert x * j == x - x * k;
  }
}
