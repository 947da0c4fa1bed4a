/**
 * The moving averages and the strength index, once as the series the backtester reads and once
 * as the running values the indicator snapshot reports.
 */
module Indicators {
  import opened Numeric
  import opened Options

  const MILLION := 1_000_000.0

  function Round6(x: real): real { RoundTo(x, MILLION) }

  function Mean(xs: seq<real>): real
    requires xs != []
  {
    Sum(xs) / |xs| as real
  }

  function Weight(period: nat): real { 2.0 / (period as real + 1.0) }

  /** One step of the exponential average. */
  function Blend(ema: real, price: real, weight: real): real { price * weight + ema * (1.0 - weight) }

  /** The unrounded exponential average after reading all the values. */
  function Ema(values: seq<real>, period: nat): real
    requires 0 < period <= |values|
  {
    var n := |values| - 1;
    if n + 1 == period then Mean(values) else Blend(Ema(values[..n], period), values[n], Weight(period))
  }

  /** What the series holds for candle i, from that candle and the ones before it. */
  function EmaAt(values: seq<real>, period: nat, i: nat): Option<real>
    requires 0 < period && i < |values|
  {
    if i + 1 < period then None else Some(Round6(Ema(values[..i + 1], period)))
  }

  function Rise(before: real, after: real): real { Max(after - before, 0.0) }

  function Fall(before: real, after: real): real { Abs(Min(after - before, 0.0)) }

  function Gains(values: seq<real>): (gains: seq<real>)
    ensures |gains| == if |values| < 2 then 0 else |values| - 1
  {
    var n := |values| - 1;
    if n < 1 then [] else Gains(values[..n]) + [Rise(values[n - 1], values[n])]
  }

  function Losses(values: seq<real>): (losses: seq<real>)
    ensures |losses| == if |values| < 2 then 0 else |values| - 1
  {
    var n := |values| - 1;
    if n < 1 then [] else Losses(values[..n]) + [Fall(values[n - 1], values[n])]
  }

  function Smooth(average: real, x: real, period: nat): real
    requires period > 0
  {
    (average * (period as real - 1.0) + x) / period as real
  }

  /** The smoothed average of gains or of losses. */
  function Wilder(xs: seq<real>, period: nat): real
    requires 0 < period <= |xs|
  {
    var n := |xs| - 1;
    if n + 1 == period then Mean(xs) else Smooth(Wilder(xs[..n], period), xs[n], period)
  }

  /** The index before rounding. */
  function RawRsi(gain: real, loss: real): real
    requires gain >= 0.0 && loss >= 0.0
  {
    if loss == 0.0 && gain == 0.0 then 50.0
    else if loss == 0.0 then 100.0
    else 100.0 - 100.0 / (1.0 + gain / loss)
  }

  function ComputeRsi(gain: real, loss: real): real
    requires gain >= 0.0 && loss >= 0.0
  {
    if loss == 0.0 && gain == 0.0 then 50.0
    else if loss == 0.0 then 100.0
    else Round6(100.0 - 100.0 / (1.0 + gain / loss))
  }

  predicate NonNegative(xs: seq<real>) { forall i :: 0 <= i < |xs| ==> xs[i] >= 0.0 }

  predicate Within(xs: seq<real>, lo: real, hi: real) { forall i :: 0 <= i < |xs| ==> lo <= xs[i] <= hi }

  lemma {:induction false} OneMore(x: real, n: nat)
    ensures x * (n + 1) as real == x * n as real + x
  {
    assert (n + 1) as real == n as real + 1.0;
  }

  lemma {:induction false} SumBetween(xs: seq<real>, lo: real, hi: real)
    requires Within(xs, lo, hi)
    ensures lo * |xs| as real <= Sum(xs) <= hi * |xs| as real
  {
    if xs != [] {
      SumBetween(xs[..|xs| - 1], lo, hi);
      OneMore(lo, |xs| - 1);
      OneMore(hi, |xs| - 1);
    }
  }

  lemma {:induction false} MeanBetween(xs: seq<real>, lo: real, hi: real)
    requires xs != [] && Within(xs, lo, hi)
    ensures lo <= Mean(xs) <= hi
  {
    SumBetween(xs, lo, hi);
    DivideBounds(lo * |xs| as real, Sum(xs), hi * |xs| as real, |xs| as real);
  }

  lemma {:induction false} PartOf(weight: real, gap: real)
    requires 0.0 <= weight <= 1.0 && gap >= 0.0
    ensures 0.0 <= Times(weight, gap) <= gap
  {
    var rest := 1.0 - weight;
    ProductOrder(0.0, weight, gap);
    ProductOrder(0.0, rest, gap);
    TimesParts(weight, gap);
    assert Times(weight, gap) >= 0.0 && Times(rest, gap) >= 0.0;
    hide Times;
  }

  lemma {:induction false} TimesParts(weight: real, gap: real)
    ensures Times(1.0 - weight, gap) + Times(weight, gap) == gap
  {
  }

  lemma {:induction false} BlendIsStep(ema: real, price: real, weight: real)
    ensures Blend(ema, price, weight) == ema + Times(weight, price - ema)
    ensures Blend(ema, price, weight) == ema - Times(weight, ema - price)
  {
  }

  lemma {:induction false} BlendBetween(ema: real, price: real, weight: real, lo: real, hi: real)
    requires lo <= ema <= hi && lo <= price <= hi && 0.0 <= weight <= 1.0
    ensures lo <= Blend(ema, price, weight) <= hi
  {
    BlendIsStep(ema, price, weight);
    PartOf(weight, Abs(price - ema));
    hide Blend, Times;
  }

  lemma {:induction false} WeightInRange(period: nat)
    requires period > 0
    ensures 0.0 < Weight(period) <= 1.0
  {
    Scaled(2.0, period as real + 1.0, period as real + 1.0);
  }

  /** The exponential average never leaves the range of the closes read so far. */
  lemma {:induction false} EmaStaysInRange(values: seq<real>, period: nat, lo: real, hi: real)
    requires 0 < period <= |values| && Within(values, lo, hi)
    ensures lo <= Ema(values, period) <= hi
  {
    var n := |values| - 1;
    if n + 1 == period {
      MeanBetween(values, lo, hi);
    } else {
      EmaStaysInRange(values[..n], period, lo, hi);
      WeightInRange(period);
      hide Weight;
      BlendBetween(Ema(values[..n], period), values[n], Weight(period), lo, hi);
    }
  }

  // ---- The recurrence as a weighted sum ----

  function Power(x: real, k: nat): real { if k == 0 then 1.0 else Times(Power(x, k - 1), x) }

  /** The share of term i, counted from the newest back, each step back fading it once more. */
  function Share(weight: real, age: nat): real { Times(weight, Power(1.0 - weight, age)) }

  /** The first k terms of the weighted sum. */
  function WeightedSum(xs: seq<real>, weight: real, k: nat): real
    requires k <= |xs|
  {
    if k == 0 then 0.0
    else WeightedSum(xs, weight, k - 1) + Times(Share(weight, |xs| - k), xs[k - 1])
  }

  lemma {:induction false} TimesSwap(x: real, y: real, z: real)
    ensures Times(Times(x, y), z) == Times(Times(x, z), y) == Times(x, Times(y, z))
  {
  }

  lemma {:induction false} TimesSum(x: real, y: real, z: real)
    ensures Times(x + y, z) == Times(x, z) + Times(y, z)
  {
  }

  lemma {:induction false} SumFades(xs: seq<real>, x: real, weight: real, k: nat)
    requires k <= |xs|
    ensures WeightedSum(xs + [x], weight, k) == Times(WeightedSum(xs, weight, k), 1.0 - weight)
  {
    hide Times;
    var fade := 1.0 - weight;
    if k == 0 {
      assert Times(0.0, fade) == 0.0 by { TimesZero(fade); }
    } else {
      SumFades(xs, x, weight, k - 1);
      var age, term := |xs| - k, xs[k - 1];
      assert (xs + [x])[k - 1] == term;
      assert Share(weight, age + 1) == Times(Share(weight, age), fade) by { TimesSwap(weight, Power(fade, age), fade); }
      TimesSwap(Share(weight, age), fade, term);
      TimesSum(WeightedSum(xs, weight, k - 1), Times(Share(weight, age), term), fade);
    }
  }

  lemma {:induction false} TimesZero(x: real)
    ensures Times(0.0, x) == 0.0 && Times(x, 1.0) == x
  {
  }

  lemma {:induction false} BlendTimes(ema: real, price: real, weight: real)
    ensures Blend(ema, price, weight) == Times(weight, price) + Times(ema, 1.0 - weight)
  {
  }

  /** The recurrence computes the weighted sum: the first mean faded, and each later close by its age. */
  lemma {:induction false} EmaIsWeightedSum(values: seq<real>, period: nat)
    requires 0 < period <= |values|
    ensures var w, later := Weight(period), values[period..];
            Ema(values, period) ==
            Times(Mean(values[..period]), Power(1.0 - w, |later|)) + WeightedSum(later, w, |later|)
  {
    hide Times, Mean, Weight, Blend;
    var n, w := |values| - 1, Weight(period);
    var fade, start := 1.0 - w, Mean(values[..period]);
    if n + 1 == period {
      assert values[..period] == values;
      TimesZero(start);
    } else {
      var front, x := values[..n], values[n];
      EmaIsWeightedSum(front, period);
      var later := front[period..];
      assert front[..period] == values[..period] && later + [x] == values[period..];
      var k := |later|;
      SumFades(later, x, w, k);
      BlendTimes(Ema(front, period), x, w);
      TimesSum(Times(start, Power(fade, k)), WeightedSum(later, w, k), fade);
      TimesSwap(start, Power(fade, k), fade);
      TimesZero(w);
      assert WeightedSum(later + [x], w, k + 1) == WeightedSum(later + [x], w, k) + Times(Share(w, 0), x);
    }
  }

  /** The weight is the one whose average age of data is that of the plain mean over the period. */
  lemma {:induction false} WeightMatchesMean(period: nat)
    requires period > 0
    ensures (1.0 - Weight(period)) / Weight(period) == (period as real - 1.0) / 2.0
  {
    var w, p := Weight(period), period as real;
    assert w * (p + 1.0) == 2.0;
    WeightInRange(period);
    hide Weight;
    var age := (1.0 - w) / w;
    assert age * w == 1.0 - w;
    CancelRight(age, (p - 1.0) / 2.0, w);
  }

  lemma {:induction false} GainsPrefix(values: seq<real>, k: nat)
    requires 1 <= k <= |values|
    ensures Gains(values)[..k - 1] == Gains(values[..k])
    ensures Losses(values)[..k - 1] == Losses(values[..k])
  {
    var n := |values| - 1;
    if k == n + 1 {
      assert values[..k] == values;
    } else {
      GainsPrefix(values[..n], k);
      assert values[..n][..k] == values[..k];
    }
  }

  lemma {:induction false} GainAt(values: seq<real>, k: nat)
    requires 0 < k < |values|
    ensures Gains(values)[k - 1] == Rise(values[k - 1], values[k])
    ensures Losses(values)[k - 1] == Fall(values[k - 1], values[k])
  {
    GainsPrefix(values, k + 1);
    var front := values[..k + 1];
    assert Gains(values)[k - 1] == Gains(front)[k - 1];
    assert Losses(values)[k - 1] == Losses(front)[k - 1];
  }

  lemma {:induction false} MovesNonNegative(values: seq<real>)
    ensures NonNegative(Gains(values)) && NonNegative(Losses(values))
  {
    forall i | 0 <= i < |Gains(values)|
      ensures Gains(values)[i] >= 0.0 && Losses(values)[i] >= 0.0
    {
      GainAt(values, i + 1);
    }
  }

  predicate AllZero(xs: seq<real>) { forall i :: 0 <= i < |xs| ==> xs[i] == 0.0 }

  lemma {:induction false} AllZeroSplit(xs: seq<real>)
    requires xs != []
    ensures AllZero(xs) <==> AllZero(xs[..|xs| - 1]) && xs[|xs| - 1] == 0.0
  {
    var front := xs[..|xs| - 1];
    if AllZero(front) {
      forall i | 0 <= i < |front| ensures xs[i] == 0.0 {
        assert xs[i] == front[i];
      }
    }
  }

  lemma {:induction false} SumZeroExactly(xs: seq<real>)
    requires NonNegative(xs)
    ensures Sum(xs) >= 0.0
    ensures Sum(xs) == 0.0 <==> AllZero(xs)
  {
    if xs != [] {
      var n := |xs| - 1;
      SumZeroExactly(xs[..n]);
      AllZeroSplit(xs);
    }
  }

  lemma {:induction false} SmoothZeroExactly(average: real, x: real, period: nat)
    requires average >= 0.0 && x >= 0.0 && period >= 1
    ensures Smooth(average, x, period) >= 0.0
    ensures period >= 2 ==> (Smooth(average, x, period) == 0.0 <==> average == 0.0 && x == 0.0)
  {
    var p := period as real;
    var top := average * (p - 1.0) + x;
    assert top >= 0.0;
    assert (top / p) * p == top;
    if period >= 2 && average > 0.0 {
      ProductPositive(average, p - 1.0);
    }
  }

  /** With a period of two or more, a smoothed average forgets nothing: it is zero only if every term was. */
  lemma {:induction false} WilderZeroExactly(xs: seq<real>, period: nat)
    requires 1 <= period <= |xs| && NonNegative(xs)
    ensures Wilder(xs, period) >= 0.0
    ensures period >= 2 ==> (Wilder(xs, period) == 0.0 <==> AllZero(xs))
  {
    var n := |xs| - 1;
    if n + 1 == period {
      SumZeroExactly(xs);
      assert Mean(xs) * |xs| as real == Sum(xs);
    } else {
      WilderZeroExactly(xs[..n], period);
      SmoothZeroExactly(Wilder(xs[..n], period), xs[n], period);
      AllZeroSplit(xs);
    }
  }

  function AverageGain(values: seq<real>, period: nat): (average: real)
    requires 0 < period < |values|
    ensures average >= 0.0
  {
    MovesNonNegative(values);
    WilderZeroExactly(Gains(values), period);
    Wilder(Gains(values), period)
  }

  function AverageLoss(values: seq<real>, period: nat): (average: real)
    requires 0 < period < |values|
    ensures average >= 0.0
  {
    MovesNonNegative(values);
    WilderZeroExactly(Losses(values), period);
    Wilder(Losses(values), period)
  }

  function RsiAt(values: seq<real>, period: nat, i: nat): Option<real>
    requires 0 < period && i < |values|
  {
    if i < period then None
    else Some(ComputeRsi(AverageGain(values[..i + 1], period), AverageLoss(values[..i + 1], period)))
  }

  predicate Rises(values: seq<real>) { exists k :: 0 < k < |values| && values[k - 1] < values[k] }

  predicate Falls(values: seq<real>) { exists k :: 0 < k < |values| && values[k] < values[k - 1] }

  lemma {:induction false} RawRsiShare(gain: real, loss: real)
    requires gain >= 0.0 && loss >= 0.0 && gain + loss > 0.0
    ensures RawRsi(gain, loss) == 100.0 * (gain / (gain + loss))
  {
    var total := gain + loss;
    var share := gain / total;
    assert share * total == gain;
    if loss > 0.0 {
      var ratio := gain / loss;
      assert ratio * loss == gain;
      assert (1.0 + ratio) * loss == total;
      ShareOfLoss(share, ratio, total, loss);
    }
  }

  lemma {:induction false} ShareOfLoss(share: real, ratio: real, total: real, loss: real)
    requires loss > 0.0 && ratio >= 0.0
    requires (1.0 + ratio) * loss == total && share * total == total - loss
    ensures 100.0 - 100.0 / (1.0 + ratio) == 100.0 * share
  {
    var rest := 1.0 - share;
    assert rest * total == loss;
    assert (rest * (1.0 + ratio) - 1.0) * loss == 0.0;
    assert rest * (1.0 + ratio) == 1.0;
    assert 100.0 / (1.0 + ratio) == 100.0 * rest;
  }

  lemma {:induction false} RawRsiRange(gain: real, loss: real)
    requires gain >= 0.0 && loss >= 0.0
    ensures 0.0 <= RawRsi(gain, loss) <= 100.0
    ensures RawRsi(gain, loss) == 100.0 <==> loss == 0.0 && gain > 0.0
    ensures RawRsi(gain, loss) == 0.0 <==> gain == 0.0 && loss > 0.0
  {
    if gain + loss > 0.0 {
      RawRsiShare(gain, loss);
      hide RawRsi;
      var share := gain / (gain + loss);
      assert share * (gain + loss) == gain;
      DivideBounds(0.0, gain, gain + loss, gain + loss);
    }
  }

  lemma {:induction false} NoGainExactly(values: seq<real>)
    ensures AllZero(Gains(values)) <==> !Rises(values)
  {
    forall k | 0 < k < |values|
      ensures Gains(values)[k - 1] == 0.0 <==> values[k] <= values[k - 1]
    {
      GainAt(values, k);
    }
    hide Gains;
    if AllZero(Gains(values)) {
      forall k | 0 < k < |values| ensures values[k] <= values[k - 1] {
        assert Gains(values)[k - 1] == 0.0;
      }
    } else {
      var i :| 0 <= i < |Gains(values)| && Gains(values)[i] != 0.0;
      var k := i + 1;
      assert Gains(values)[k - 1] != 0.0;
      assert values[k - 1] < values[k];
    }
  }

  lemma {:induction false} NoLossExactly(values: seq<real>)
    ensures AllZero(Losses(values)) <==> !Falls(values)
  {
    forall k | 0 < k < |values|
      ensures Losses(values)[k - 1] == 0.0 <==> values[k - 1] <= values[k]
    {
      GainAt(values, k);
    }
    hide Losses;
    if AllZero(Losses(values)) {
      forall k | 0 < k < |values| ensures values[k - 1] <= values[k] {
        assert Losses(values)[k - 1] == 0.0;
      }
    } else {
      var i :| 0 <= i < |Losses(values)| && Losses(values)[i] != 0.0;
      var k := i + 1;
      assert Losses(values)[k - 1] != 0.0;
      assert values[k] < values[k - 1];
    }
  }

  /** Zero averages, read off the history of closes. */
  lemma {:induction false} AveragesReadHistory(values: seq<real>, period: nat)
    requires 2 <= period < |values|
    ensures AverageGain(values, period) == 0.0 <==> !Rises(values)
    ensures AverageLoss(values, period) == 0.0 <==> !Falls(values)
  {
    MovesNonNegative(values);
    WilderZeroExactly(Gains(values), period);
    WilderZeroExactly(Losses(values), period);
    NoGainExactly(values);
    NoLossExactly(values);
    hide Wilder, Gains, Losses, Rises, Falls;
  }

  /**
   * Before rounding, the index lies in [0, 100]; it is 100 exactly for a history that rises
   * somewhere and never falls, 0 exactly for one that falls somewhere and never rises.
   */
  lemma {:induction false} RsiReadsHistory(values: seq<real>, period: nat)
    requires 2 <= period < |values|
    ensures var rsi := RawRsi(AverageGain(values, period), AverageLoss(values, period));
            && 0.0 <= rsi <= 100.0
            && (rsi == 100.0 <==> Rises(values) && !Falls(values))
            && (rsi == 0.0 <==> Falls(values) && !Rises(values))
  {
    AveragesReadHistory(values, period);
    RawRsiRange(AverageGain(values, period), AverageLoss(values, period));
  }

  /** The reported index stays in [0, 100] after rounding. */
  lemma {:induction false} RsiSeriesRange(values: seq<real>, period: nat, i: nat)
    requires 0 < period <= i < |values|
    ensures 0.0 <= RsiAt(values, period, i).value <= 100.0
  {
    var gain, loss := AverageGain(values[..i + 1], period), AverageLoss(values[..i + 1], period);
    RawRsiRange(gain, loss);
    RoundToMonotone(0.0, RawRsi(gain, loss), MILLION);
    RoundToMonotone(RawRsi(gain, loss), 100.0, MILLION);
    assert Round6(0.0) == 0.0 && Round6(100.0) == 100.0;
  }

  lemma {:induction false} EmaStep(values: seq<real>, period: nat, k: nat)
    requires 0 < period <= k < |values|
    ensures var w := 2.0 / (period as real + 1.0);
            Ema(values[..k + 1], period) == values[k] * w + Ema(values[..k], period) * (1.0 - w)
  {
    assert values[..k + 1][..k] == values[..k];
    hide Mean;
  }

  lemma {:induction false} EmaStart(values: seq<real>, period: nat)
    requires 0 < period <= |values|
    ensures Ema(values[..period], period) == Mean(values[..period])
  {
  }

  lemma {:induction false} EmaAtIs(values: seq<real>, period: nat, i: nat)
    requires 0 < period && i < |values|
    ensures EmaAt(values, period, i) == if i + 1 < period then None else Some(Round6(Ema(values[..i + 1], period)))
  {
  }

  method EmaSeries(values: seq<real>, period: nat) returns (series: seq<Option<real>>)
    requires period > 0
    ensures |series| == |values|
    ensures forall i :: 0 <= i < |values| ==> series[i] == EmaAt(values, period, i)
  {
    hide *;
    var result := new Option<real>[|values|](_ => None);
    forall i | 0 <= i < |values| && i + 1 < period ensures EmaAt(values, period, i) == None {
      EmaAtIs(values, period, i);
    }
    if |values| < period {
      return result[..];
    }
    var multiplier := 2.0 / (period as real + 1.0);
    var ema := Mean(values[..period]);
    EmaStart(values, period);
    EmaAtIs(values, period, period - 1);
    result[period - 1] := Some(Round6(ema));
    for index := period to |values|
      invariant ema == Ema(values[..index], period)
      invariant forall i :: 0 <= i < index ==> result[i] == EmaAt(values, period, i)
    {
      EmaStep(values, period, index);
      EmaAtIs(values, period, index);
      ema := values[index] * multiplier + ema * (1.0 - multiplier);
      result[index] := Some(Round6(ema));
    }
    return result[..];
  }

  /** The snapshot's average is the last entry of the series, except that it wants one value more. */
  method StreamingEma(values: seq<real>, period: nat) returns (latest: Option<real>)
    requires period > 0
    ensures latest == if |values| <= period then None else EmaAt(values, period, |values| - 1)
  {
    hide *;
    if |values| <= period {
      return None;
    }
    var k := 2.0 / (period as real + 1.0);
    var ema := Mean(values[..period]);
    EmaStart(values, period);
    for index := period to |values|
      invariant ema == Ema(values[..index], period)
    {
      EmaStep(values, period, index);
      ema := values[index] * k + ema * (1.0 - k);
    }
    EmaAtIs(values, period, |values| - 1);
    return Some(Round6(ema));
  }

  method Moves(values: seq<real>) returns (gains: seq<real>, losses: seq<real>)
    ensures gains == Gains(values) && losses == Losses(values)
  {
    gains, losses := [], [];
    if values != [] {
      for index := 1 to |values|
        invariant gains == Gains(values[..index]) && losses == Losses(values[..index])
      {
        assert values[..index + 1][..index] == values[..index];
        var delta := values[index] - values[index - 1];
        gains := gains + [Max(delta, 0.0)];
        losses := losses + [Abs(Min(delta, 0.0))];
      }
      assert values[..|values|] == values;
    }
  }

  lemma {:induction false} WilderOfPrefix(values: seq<real>, period: nat, k: nat)
    requires 0 < period < k <= |values|
    ensures Wilder(Gains(values)[..k - 1], period) == AverageGain(values[..k], period)
    ensures Wilder(Losses(values)[..k - 1], period) == AverageLoss(values[..k], period)
  {
    GainsPrefix(values, k);
  }

  lemma {:induction false} WilderStep(xs: seq<real>, period: nat, k: nat)
    requires 0 < period <= k < |xs|
    ensures Wilder(xs[..k + 1], period) == Smooth(Wilder(xs[..k], period), xs[k], period)
  {
    assert xs[..k + 1][..k] == xs[..k];
    hide Smooth;
  }

  /** How one more candle moves the two averages. */
  lemma {:induction false} AveragesStep(values: seq<real>, period: nat, k: nat)
    requires 0 < period <= k && k + 1 < |values|
    ensures AverageGain(values[..k + 2], period) ==
            Smooth(AverageGain(values[..k + 1], period), Gains(values)[k], period)
    ensures AverageLoss(values[..k + 2], period) ==
            Smooth(AverageLoss(values[..k + 1], period), Losses(values)[k], period)
  {
    hide *;
    WilderOfPrefix(values, period, k + 1);
    WilderOfPrefix(values, period, k + 2);
    WilderStep(Gains(values), period, k);
    WilderStep(Losses(values), period, k);
  }

  lemma {:induction false} SmoothIs(average: real, x: real, period: nat)
    requires period > 0
    ensures Smooth(average, x, period) == (average * (period as real - 1.0) + x) / period as real
  {
  }

  lemma {:induction false} AveragesStart(values: seq<real>, period: nat)
    requires 0 < period < |values|
    ensures Mean(Gains(values)[..period]) == AverageGain(values[..period + 1], period)
    ensures Mean(Losses(values)[..period]) == AverageLoss(values[..period + 1], period)
  {
    WilderOfPrefix(values, period, period + 1);
  }

  lemma {:induction false} RsiFromAverages(values: seq<real>, period: nat, i: nat)
    requires 0 < period && i < |values|
    ensures RsiAt(values, period, i) == if i < period then None
              else Some(ComputeRsi(AverageGain(values[..i + 1], period), AverageLoss(values[..i + 1], period)))
  {
  }

  method RsiSeries(values: seq<real>, period: nat) returns (series: seq<Option<real>>)
    requires period > 0
    ensures |series| == |values|
    ensures forall i :: 0 <= i < |values| ==> series[i] == RsiAt(values, period, i)
  {
    hide *;
    var result := new Option<real>[|values|](_ => None);
    forall i | 0 <= i < |values| && i < period ensures RsiAt(values, period, i) == None {
      RsiFromAverages(values, period, i);
    }
    if |values| <= period {
      return result[..];
    }
    var gains, losses := Moves(values);
    var avgGain, avgLoss := Mean(gains[..period]), Mean(losses[..period]);
    AveragesStart(values, period);
    result[period] := Some(ComputeRsi(avgGain, avgLoss));
    RsiFromAverages(values, period, period);
    for index := period to |gains|
      invariant avgGain == AverageGain(values[..index + 1], period)
      invariant avgLoss == AverageLoss(values[..index + 1], period)
      invariant forall i :: 0 <= i <= index ==> result[i] == RsiAt(values, period, i)
    {
      AveragesStep(values, period, index);
      SmoothIs(avgGain, gains[index], period);
      SmoothIs(avgLoss, losses[index], period);
      avgGain := (avgGain * (period as real - 1.0) + gains[index]) / period as real;
      avgLoss := (avgLoss * (period as real - 1.0) + losses[index]) / period as real;
      result[index + 1] := Some(ComputeRsi(avgGain, avgLoss));
      RsiFromAverages(values, period, index + 1);
    }
    return result[..];
  }

  method StreamingRsi(values: seq<real>, period: nat) returns (latest: Option<real>)
    requires period > 0
    ensures latest == if |values| <= period then None else RsiAt(values, period, |values| - 1)
  {
    if |values| <= period {
      return None;
    }
    hide *;
    var gains, losses := Moves(values);
    var avgGain, avgLoss := Mean(gains[..period]), Mean(losses[..period]);
    AveragesStart(values, period);
    for index := period to |gains|
      invariant avgGain == AverageGain(values[..index + 1], period)
      invariant avgLoss == AverageLoss(values[..index + 1], period)
    {
      AveragesStep(values, period, index);
      SmoothIs(avgGain, gains[index], period);
      SmoothIs(avgLoss, losses[index], period);
      avgGain := (avgGain * (period as real - 1.0) + gains[index]) / period as real;
      avgLoss := (avgLoss * (period as real - 1.0) + losses[index]) / period as real;
    }
    RsiFromAverages(values, period, |values| - 1);
    return Some(ComputeRsi(avgGain, avgLoss));
  }

  // ---- What the reported figures mean ----

  /** The share of the gains in both, in percent; one half when nothing moves. */
  function ShareOfGains(gain: real, loss: real): real
    requires gain >= 0.0 && loss >= 0.0
  {
    if gain == 0.0 && loss == 0.0 then 50.0 else 100.0 * (gain / (gain + loss))
  }

  /** The reported index is that share, rounded. */
  lemma {:induction false} ComputedShare(gain: real, loss: real)
    requires gain >= 0.0 && loss >= 0.0
    ensures ComputeRsi(gain, loss) == Round6(ShareOfGains(gain, loss))
  {
    HundredStays();
    if gain + loss > 0.0 {
      RawRsiShare(gain, loss);
      if loss == 0.0 {
        assert gain / (gain + loss) == 1.0;
      }
    }
    hide Round6;
  }

  lemma {:induction false} HundredStays()
    ensures Round6(100.0) == 100.0 && Round6(50.0) == 50.0
  {
  }

  lemma {:induction false} HalfShare(gain: real, loss: real)
    requires gain >= 0.0 && loss >= 0.0
    ensures ShareOfGains(gain, loss) >= 50.0 <==> gain >= loss
    ensures ShareOfGains(gain, loss) <= 50.0 <==> gain <= loss
  {
    if gain + loss > 0.0 {
      var total := gain + loss;
      var share := gain / total;
      assert share * total == gain;
      Halves(share, total, gain);
    }
  }

  lemma {:induction false} Halves(share: real, total: real, gain: real)
    requires total > 0.0 && share * total == gain
    ensures (share >= 0.5 <==> gain >= 0.5 * total) && (share <= 0.5 <==> gain <= 0.5 * total)
  {
    if share > 0.5 {
      ProductPositive(share - 0.5, total);
    } else if share < 0.5 {
      ProductPositive(0.5 - share, total);
    }
  }

  lemma {:induction false} Rounded6(x: real)
    ensures -0.000_000_5 <= Round6(x) - x <= 0.000_000_5
    ensures (x >= 50.0 ==> Round6(x) >= 50.0) && (x <= 50.0 ==> Round6(x) <= 50.0)
  {
    RoundToError(x, MILLION);
    HundredStays();
    if x >= 50.0 {
      RoundToMonotone(50.0, x, MILLION);
    } else {
      RoundToMonotone(x, 50.0, MILLION);
    }
    hide RoundTo;
  }

  /** Every entry of the index series is the share of the average gain in both averages of the candles up to it,
      rounded. It is at least fifty for an average gain not below the average loss, and at most fifty for one not above
      it; for unequal averages it reads fifty only where the share is within the rounding of one half. */
  lemma {:induction false} RsiIsShareOfGains(values: seq<real>, period: nat, i: nat)
    requires 0 < period <= i < |values|
    ensures var gain, loss := AverageGain(values[..i + 1], period), AverageLoss(values[..i + 1], period);
      var share := ShareOfGains(gain, loss);
      && RsiAt(values, period, i).Some? && var rsi := RsiAt(values, period, i).value;
         && rsi == RoundTo(share, 1_000_000.0)
         && (gain >= loss ==> rsi >= 50.0) && (gain <= loss ==> rsi <= 50.0)
         && (rsi == 50.0 ==> Abs(share - 50.0) <= 0.000_000_5)
  {
    RsiFromAverages(values, period, i);
    var gain, loss := AverageGain(values[..i + 1], period), AverageLoss(values[..i + 1], period);
    hide AverageGain, AverageLoss, ComputeRsi, RsiAt, ShareOfGains, RoundTo;
    ComputedShare(gain, loss);
    HalfShare(gain, loss);
    Rounded6(ShareOfGains(gain, loss));
  }

  /** The upward and the downward parts of every move. */
  function RisesOf(values: seq<real>): seq<real> {
    seq(if values == [] then 0 else |values| - 1,
        k requires 0 <= k < |values| - 1 => Max(values[k + 1] - values[k], 0.0))
  }

  function FallsOf(values: seq<real>): seq<real> {
    seq(if values == [] then 0 else |values| - 1,
        k requires 0 <= k < |values| - 1 => Max(values[k] - values[k + 1], 0.0))
  }

  lemma {:induction false} MovesAre(values: seq<real>)
    ensures Gains(values) == RisesOf(values) && Losses(values) == FallsOf(values)
  {
    forall k | 0 <= k < |Gains(values)|
      ensures Gains(values)[k] == RisesOf(values)[k] && Losses(values)[k] == FallsOf(values)[k]
    {
      GainAt(values, k + 1);
    }
    hide Gains, Losses;
  }

  lemma {:induction false} SmoothTimes(average: real, x: real, period: nat)
    requires period > 0
    ensures Smooth(average, x, period) == Times(1.0 / period as real, x) + Times(average, 1.0 - 1.0 / period as real)
  {
    var p, w := period as real, 1.0 / period as real;
    assert w * p == 1.0;
    var blend := w * x + average * (1.0 - w);
    assert blend * p == (w * p) * x + average * (p - w * p);
    assert blend * p == average * (p - 1.0) + x;
    CancelRight(Smooth(average, x, period), blend, p);
  }

  lemma {:induction false} WilderIsWeightedSum(xs: seq<real>, period: nat)
    requires 0 < period <= |xs|
    ensures var w, later := 1.0 / period as real, xs[period..];
      Wilder(xs, period) == Times(Mean(xs[..period]), Power(1.0 - w, |later|)) + WeightedSum(later, w, |later|)
  {
    hide Times, Mean, Smooth;
    var n, w := |xs| - 1, 1.0 / period as real;
    var fade, start := 1.0 - w, Mean(xs[..period]);
    if n + 1 == period {
      assert xs[..period] == xs;
      TimesZero(start);
    } else {
      var front, x := xs[..n], xs[n];
      WilderIsWeightedSum(front, period);
      var later := front[period..];
      assert front[..period] == xs[..period] && later + [x] == xs[period..];
      var k := |later|;
      SumFades(later, x, w, k);
      SmoothTimes(Wilder(front, period), x, period);
      TimesSum(Times(start, Power(fade, k)), WeightedSum(later, w, k), fade);
      TimesSwap(start, Power(fade, k), fade);
      TimesZero(w);
      assert WeightedSum(later + [x], w, k + 1) == WeightedSum(later + [x], w, k) + Times(Share(w, 0), x);
    }
  }

  /** Both averages are weighted sums of the moves, with weight one over the period. */
  lemma {:induction false} AveragesAreWeightedSums(values: seq<real>, period: nat)
    requires 0 < period < |values|
    ensures var w, rises, falls := 1.0 / period as real, RisesOf(values), FallsOf(values);
      var k := |values| - 1 - period;
      && AverageGain(values, period) ==
           Times(Mean(rises[..period]), Power(1.0 - w, k)) + WeightedSum(rises[period..], w, k)
      && AverageLoss(values, period) ==
           Times(Mean(falls[..period]), Power(1.0 - w, k)) + WeightedSum(falls[period..], w, k)
  {
    MovesAre(values);
    WilderIsWeightedSum(Gains(values), period);
    WilderIsWeightedSum(Losses(values), period);
    hide Gains, Losses, Wilder, Mean, Times, Power, WeightedSum;
  }

  /** Every entry of the average series is the weighted sum of the closes up to it, up to the rounding, and lies between
      any bounds on them up to the rounding. */
  lemma {:induction false} EmaSeriesIsAverage(values: seq<real>, period: nat, i: nat, lo: real, hi: real)
    requires 0 < period <= i + 1 <= |values| && Within(values[..i + 1], lo, hi)
    ensures var seen, w := values[..i + 1], 2.0 / (period as real + 1.0);
      var k := i + 1 - period;
      var sum := Times(Mean(seen[..period]), Power(1.0 - w, k)) + WeightedSum(seen[period..], w, k);
      && EmaAt(values, period, i).Some? && var ema := EmaAt(values, period, i).value;
         Abs(ema - sum) <= 0.000_000_5 && lo - 0.000_000_5 <= ema <= hi + 0.000_000_5
  {
    var seen := values[..i + 1];
    EmaAtIs(values, period, i);
    EmaIsWeightedSum(seen, period);
    EmaStaysInRange(seen, period, lo, hi);
    hide Ema, Times, Mean, Power, WeightedSum, Round6, EmaAt, Within;
    Rounded6(Ema(seen, period));
  }
}
