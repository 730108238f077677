/** The published numbers written out: trend, risk, confidence and index over the raw features. */
module ScoreFormulas {
  import opened Common
  import opened RealFacts
  import opened Rounding
  import opened Signals
  import opened HealthIndex
  import opened Regimes
  import opened Orchestrator

  // Rounding.

  /** `n` is the nearest whole number, the even one of two equally near. */
  predicate RoundsTo(x: real, n: int) {
    var d := x - n as real;
    -0.5 < d < 0.5 || ((d == 0.5 || d == -0.5) && n % 2 == 0)
  }

  lemma RoundExactly(x: real, n: int)
    ensures RoundHalfEven(x) == n <==> RoundsTo(x, n)
  {}

  /** Four decimals: the nearest ten-thousandth, an even one on a tie. */
  lemma Round4Exactly(x: real, n: int)
    ensures Round4(x) == n as real / 10000.0 <==> RoundsTo(x * 10000.0, n)
  {
    RoundExactly(x * 10000.0, n);
  }

  // Trend.

  /** From 2, far above and drifting up, down to -2. */
  function EmaStanding(state: EmaState): int {
    match state
    case AboveDiverging => 2
    case AboveConverging => 1
    case Crossing => 0
    case BelowConverging => -1
    case BelowDiverging => -2
  }

  function MacdStanding(state: MacdState): int {
    match state
    case BullishCross => 2
    case Bullish => 1
    case Neutral => 0
    case Bearish => -1
    case BearishCross => -2
  }

  function Capped(x: real): real { if x < -1.0 then -1.0 else if x > 1.0 then 1.0 else x }

  /** Percentages of weight of the features that are there. */
  function TrendWeight(f: AssetFeatures): nat {
    (if f.indicators.ema.Some? then 30 else 0) + (if f.indicators.macd.Some? then 25 else 0)
    + (if f.indicators.rsi.Some? then 15 else 0) + (if f.changes.h24.Some? then 15 else 0)
    + (if f.changes.d7.Some? then 15 else 0)
  }

  /** Each feature at its weight: half its standing, RSI from its middle, changes by their scale. */
  function TrendPoints(f: AssetFeatures): real {
    (if f.indicators.ema.Some? then 15.0 * EmaStanding(f.indicators.ema.value) as real else 0.0)
    + (if f.indicators.macd.Some? then 12.5 * MacdStanding(f.indicators.macd.value) as real else 0.0)
    + (if f.indicators.rsi.Some? then 15.0 * Capped((f.indicators.rsi.value - 50.0) / 50.0) else 0.0)
    + (if f.changes.h24.Some? then 15.0 * Capped(f.changes.h24.value / 5.0) else 0.0)
    + (if f.changes.d7.Some? then 15.0 * Capped(f.changes.d7.value / 15.0) else 0.0)
  }

  /** A component of this weight, in percent, adds these points. */
  predicate Adds(signal: Option<real>, weight: real, percent: nat, points: real) {
    && percent as real == 100.0 * IfPresent(signal, weight)
    && points == 100.0 * (OrZero(signal) * weight)
    && -IfPresent(signal, weight) <= OrZero(signal) * weight <= IfPresent(signal, weight)
  }

  lemma EmaAdds(e: Option<EmaState>)
    ensures Adds(if e.Some? then Some(EmaSignal(e.value)) else None, 0.30, if e.Some? then 30 else 0,
                 if e.Some? then 15.0 * EmaStanding(e.value) as real else 0.0)
  {}

  lemma MacdAdds(m: Option<MacdState>)
    ensures Adds(if m.Some? then Some(MacdSignal(m.value)) else None, 0.25, if m.Some? then 25 else 0,
                 if m.Some? then 12.5 * MacdStanding(m.value) as real else 0.0)
  {}

  lemma RsiAdds(r: Option<real>)
    ensures Adds(if r.Some? then Some(RsiSignal(r.value)) else None, 0.15, if r.Some? then 15 else 0,
                 if r.Some? then 15.0 * Capped((r.value - 50.0) / 50.0) else 0.0)
  {}

  lemma ChangeAdds(c: Option<real>, scale: real)
    requires scale > 0.0
    ensures Adds(ClampedRatio(c, scale), 0.15, if c.Some? then 15 else 0, if c.Some? then 15.0 * Capped(c.value / scale) else 0.0)
  {
    if c.Some? {
      var ratio := c.value / scale;
      assert Clamp(ratio, -1.0, 1.0) == Capped(ratio);
    }
  }

  /** The trend is exactly the weighted mean of what is there: its own clamp never acts. */
  lemma TrendExactly(f: AssetFeatures)
    ensures TrendWeight(f) == 0 ==> TrendScore(f) == 0.0
    ensures TrendWeight(f) > 0 ==> TrendScore(f) * TrendWeight(f) as real == TrendPoints(f)
  {
    hide WeightedSum, TotalWeight, Subsignals, SignalsOf, TrendWeight, TrendPoints, Clamp, OrZero, IfPresent;
    SubsignalSums(f);
    var sum, total := WeightedSum(Subsignals(f)), TotalWeight(Subsignals(f));
    TrendParts(f, sum, total);
    if TrendWeight(f) > 0 {
      assert total != 0.0 && TrendScore(f) == Clamp(sum / total, -1.0, 1.0);
      MeanOf(sum, total, TrendScore(f), TrendWeight(f) as real, TrendPoints(f));
    } else {
      assert total == 0.0 && TrendScore(f) == Clamp(0.0, -1.0, 1.0);
      ClampOfZero();
    }
  }

  lemma ClampOfZero()
    ensures Clamp(0.0, -1.0, 1.0) == 0.0 == Clamp(0.0, 0.0, 1.0)
  {}

  lemma TrendParts(f: AssetFeatures, sum: real, total: real)
    requires var x := SignalsOf(f);
      && total == IfPresent(x.ema, 0.30) + IfPresent(x.macd, 0.25) + IfPresent(x.rsi, 0.15)
                  + IfPresent(x.h24, 0.15) + IfPresent(x.d7, 0.15)
      && sum == OrZero(x.ema) * 0.30 + OrZero(x.macd) * 0.25 + OrZero(x.rsi) * 0.15 + OrZero(x.h24) * 0.15 + OrZero(x.d7) * 0.15
    ensures TrendWeight(f) as real == 100.0 * total && TrendPoints(f) == 100.0 * sum && -total <= sum <= total
  {
    EmaAdds(f.indicators.ema);
    MacdAdds(f.indicators.macd);
    RsiAdds(f.indicators.rsi);
    ChangeAdds(f.changes.h24, 5.0);
    ChangeAdds(f.changes.d7, 15.0);
    hide EmaSignal, MacdSignal, RsiSignal, ClampedRatio, EmaStanding, MacdStanding, Capped, OrZero, IfPresent;
  }

  /** A clamped mean of a sum within its total, at a hundred times the scale. */
  lemma MeanOf(sum: real, total: real, score: real, weight: real, points: real)
    requires total > 0.0 && -total <= sum <= total && score == Clamp(sum / total, -1.0, 1.0)
    requires weight == 100.0 * total && points == 100.0 * sum
    ensures score * weight == points
  {
    QuotientBounds(sum, total, -1.0, 1.0);
    assert score == sum / total;
    assert score * total == sum;
  }

  /** Both absent, or both there and the first no smaller. */
  predicate NoLess(high: Option<real>, low: Option<real>) {
    high.Some? == low.Some? && (high.Some? ==> high.value >= low.value)
  }

  /** In raw terms: a better standing, a higher RSI or a stronger change never lowers the trend. */
  lemma TrendFollowsReadings(high: AssetFeatures, low: AssetFeatures)
    requires var x, y := high.indicators, low.indicators;
      && x.ema.Some? == y.ema.Some? && (x.ema.Some? ==> EmaStanding(x.ema.value) >= EmaStanding(y.ema.value))
      && x.macd.Some? == y.macd.Some? && (x.macd.Some? ==> MacdStanding(x.macd.value) >= MacdStanding(y.macd.value))
      && NoLess(x.rsi, y.rsi)
    requires NoLess(high.changes.h24, low.changes.h24) && NoLess(high.changes.d7, low.changes.d7)
    ensures TrendScore(high) >= TrendScore(low)
  {
    hide EmaStanding, MacdStanding, TrendScore, TrendPoints, TrendWeight;
    PointsFollowReadings(high, low);
    TrendExactly(high);
    TrendExactly(low);
    hide NoLess;
    if TrendWeight(low) > 0 {
      Cancel(TrendScore(low), TrendScore(high), TrendWeight(low) as real);
    }
  }

  lemma PointsFollowReadings(high: AssetFeatures, low: AssetFeatures)
    requires var x, y := high.indicators, low.indicators;
      && x.ema.Some? == y.ema.Some? && (x.ema.Some? ==> EmaStanding(x.ema.value) >= EmaStanding(y.ema.value))
      && x.macd.Some? == y.macd.Some? && (x.macd.Some? ==> MacdStanding(x.macd.value) >= MacdStanding(y.macd.value))
      && NoLess(x.rsi, y.rsi)
    requires NoLess(high.changes.h24, low.changes.h24) && NoLess(high.changes.d7, low.changes.d7)
    ensures TrendWeight(high) == TrendWeight(low) && TrendPoints(high) >= TrendPoints(low)
  {
    hide EmaStanding, MacdStanding;
  }

  // Risk.

  /** Cut to the range from 0 to 1. */
  function Share(x: real): real { if x < 0.0 then 0.0 else if x > 1.0 then 1.0 else x }

  function RiskWeight(ind: Indicators, near: Option<real>): nat {
    (if ind.atrPct.Some? then 50 else 0) + (if near.Some? then 30 else 0) + (if ind.volumeRatio.Some? then 20 else 0)
  }

  /** Volatility up to five percent, an event up to two days away, volume up to three times the usual. */
  function RiskPoints(ind: Indicators, near: Option<real>): real {
    (if ind.atrPct.Some? then 50.0 * Share(ind.atrPct.value / 5.0) else 0.0)
    + (if near.Some? then 30.0 * Share(1.0 - Abs(near.value) / 48.0) else 0.0)
    + (if ind.volumeRatio.Some? then 20.0 * Share((ind.volumeRatio.value - 1.0) / 2.0) else 0.0)
  }

  lemma RiskAdds(ind: Indicators, near: Option<real>)
    ensures var x, y, z := VolatilityRisk(ind.atrPct), EventRisk(near), VolumeRisk(ind.volumeRatio);
      && RiskWeight(ind, near) as real == 100.0 * (IfPresent(x, 0.50) + IfPresent(y, 0.30) + IfPresent(z, 0.20))
      && RiskPoints(ind, near) == 100.0 * (OrZero(x) * 0.50 + OrZero(y) * 0.30 + OrZero(z) * 0.20)
      && 0.0 <= RiskPoints(ind, near) <= RiskWeight(ind, near) as real
  {
    hide Abs;
  }

  lemma RiskSums(ind: Indicators, near: Option<real>)
    ensures var x, y, z := VolatilityRisk(ind.atrPct), EventRisk(near), VolumeRisk(ind.volumeRatio);
      && TotalWeight(RiskPairs(ind, near)) == IfPresent(x, 0.50) + IfPresent(y, 0.30) + IfPresent(z, 0.20)
      && WeightedSum(RiskPairs(ind, near)) == OrZero(x) * 0.50 + OrZero(y) * 0.30 + OrZero(z) * 0.20
  {
    hide TotalWeight, WeightedSum, VolatilityRisk, EventRisk, VolumeRisk, Present;
    var x, y, z := VolatilityRisk(ind.atrPct), EventRisk(near), VolumeRisk(ind.volumeRatio);
    PresentSums(x, 0.50);
    PresentSums(y, 0.30);
    PresentSums(z, 0.20);
    ConcatSums(Present(x, 0.50), Present(y, 0.30));
    ConcatSums(Present(x, 0.50) + Present(y, 0.30), Present(z, 0.20));
  }

  /** Risk is exactly the weighted mean of what is there. */
  lemma RiskExactly(f: AssetFeatures, near: Option<real>)
    ensures RiskWeight(f.indicators, near) == 0 ==> RiskScore(f, near) == 0.0
    ensures RiskWeight(f.indicators, near) > 0 ==>
      RiskScore(f, near) * RiskWeight(f.indicators, near) as real == RiskPoints(f.indicators, near)
  {
    hide WeightedSum, TotalWeight, RiskPairs, RiskWeight, RiskPoints, Clamp, OrZero, IfPresent, VolatilityRisk, EventRisk, VolumeRisk;
    RiskSums(f.indicators, near);
    RiskAdds(f.indicators, near);
    var sum, total := WeightedSum(RiskPairs(f.indicators, near)), TotalWeight(RiskPairs(f.indicators, near));
    if RiskWeight(f.indicators, near) > 0 {
      assert total != 0.0 && RiskScore(f, near) == Clamp(sum / total, 0.0, 1.0);
      ShareOfMean(sum, total, RiskScore(f, near), RiskWeight(f.indicators, near) as real, RiskPoints(f.indicators, near));
    } else {
      assert total == 0.0 && RiskScore(f, near) == Clamp(0.0, 0.0, 1.0);
      ClampOfZero();
    }
  }

  lemma ShareOfMean(sum: real, total: real, score: real, weight: real, points: real)
    requires total > 0.0 && 0.0 <= sum <= total && score == Clamp(sum / total, 0.0, 1.0)
    requires weight == 100.0 * total && points == 100.0 * sum
    ensures score * weight == points
  {
    QuotientBounds(sum, total, 0.0, 1.0);
    assert score == sum / total;
    assert score * total == sum;
  }

  /** The nearest event is the first of those at the least distance, past or future. */
  lemma {:induction false} NearestIsNearest(events: seq<EventFeature>) returns (k: nat)
    ensures Nearest(events).None? <==> events == []
    ensures events != [] ==>
      && k < |events| && Nearest(events) == Some(events[k].proximityHours)
      && forall i :: 0 <= i < |events| ==>
           if i < k then Abs(events[k].proximityHours) < Abs(events[i].proximityHours)
           else Abs(events[k].proximityHours) <= Abs(events[i].proximityHours)
  {
    k := 0;
    if events != [] {
      var n := |events| - 1;
      k := NearestIsNearest(events[..n]);
      assert forall i :: 0 <= i < n ==> events[..n][i] == events[i];
      if n == 0 || Abs(events[n].proximityHours) < Abs(events[k].proximityHours) {
        k := n;
      }
    }
  }

  // The health index.

  function WeightIf(weight: Option<real>, there: bool): real { if weight.Some? && there then weight.value else 0.0 }

  function Part(weight: real, share: real): real { weight * share }

  /** The weights that have a component to weigh. */
  function IndexWeight(w: MhiWeights, sentiment: Option<real>, atrPct: Option<real>): real {
    WeightIf(w.trend, true) + WeightIf(w.risk, true) + WeightIf(w.sentiment, sentiment.Some?) + WeightIf(w.volatility, atrPct.Some?)
  }

  /** Trend and sentiment from the middle up, risk and volatility from the top down. */
  function IndexPoints(w: MhiWeights, trend: real, risk: real, sentiment: Option<real>, atrPct: Option<real>): real {
    Part(WeightIf(w.trend, true), (trend + 1.0) / 2.0) + Part(WeightIf(w.risk, true), 1.0 - risk)
    + (if sentiment.Some? then Part(WeightIf(w.sentiment, true), (sentiment.value + 1.0) / 2.0) else 0.0)
    + (if atrPct.Some? then Part(WeightIf(w.volatility, true), 1.0 - Share(atrPct.value / 5.0)) else 0.0)
  }

  lemma WeightedSums(value: Option<real>, weight: Option<real>)
    ensures TotalWeight(Weighted(value, weight)) == WeightIf(weight, value.Some?)
    ensures WeightedSum(Weighted(value, weight)) == if value.Some? then Part(WeightIf(weight, true), value.value) else 0.0
  {
    if value.Some? && weight.Some? {
      assert Weighted(value, weight)[..0] == [];
    }
  }

  lemma ComponentSums(w: MhiWeights, trend: real, risk: real, sentiment: Option<real>, atrPct: Option<real>)
    ensures TotalWeight(Components(w, trend, risk, sentiment, atrPct)) == IndexWeight(w, sentiment, atrPct)
    ensures WeightedSum(Components(w, trend, risk, sentiment, atrPct)) == IndexPoints(w, trend, risk, sentiment, atrPct)
  {
    CalmIsRest(atrPct);
    hide TotalWeight, WeightedSum, Weighted, WeightIf, Calm, Share, Part;
    var t, r := Some((trend + 1.0) / 2.0), Some(1.0 - risk);
    var s := if sentiment.Some? then Some((sentiment.value + 1.0) / 2.0) else None;
    var c := if atrPct.Some? then Some(Calm(atrPct.value)) else None;
    WeightedSums(t, w.trend);
    WeightedSums(r, w.risk);
    WeightedSums(s, w.sentiment);
    WeightedSums(c, w.volatility);
    var a, b, d, e := Weighted(t, w.trend), Weighted(r, w.risk), Weighted(s, w.sentiment), Weighted(c, w.volatility);
    ConcatSums(a, b);
    ConcatSums(a + b, d);
    ConcatSums(a + b + d, e);
  }

  lemma CalmIsRest(atrPct: Option<real>)
    ensures atrPct.Some? ==> Calm(atrPct.value) == 1.0 - Share(atrPct.value / 5.0)
  {}

  /**
   * The index is 50 when nothing has weight, and otherwise the hundredfold weighted mean of its
   * components, cut to its range and rounded to the nearest whole number, ties to the even one.
   */
  lemma IndexExactly(w: MhiWeights, trend: real, risk: real, sentiment: Option<real>, atrPct: Option<real>)
    ensures var index := MarketHealthIndex(w, trend, risk, sentiment, atrPct);
      var weight, points := IndexWeight(w, sentiment, atrPct), IndexPoints(w, trend, risk, sentiment, atrPct);
      && (weight == 0.0 ==> index == 50)
      && (weight != 0.0 ==> RoundsTo(100.0 * Share(points / weight), index))
  {
    hide TotalWeight, WeightedSum, Components, IndexWeight, IndexPoints, RoundHalfEven, RoundsTo;
    ComponentSums(w, trend, risk, sentiment, atrPct);
    var weight, points := IndexWeight(w, sentiment, atrPct), IndexPoints(w, trend, risk, sentiment, atrPct);
    if weight != 0.0 {
      var q := points / weight;
      assert Clamp(q, 0.0, 1.0) == Share(q);
      RoundExactly(100.0 * Share(q), RoundHalfEven(100.0 * Share(q)));
    }
  }

  /** With non-negative weights and scores in range the cut never acts. */
  lemma IndexIsUncut(w: MhiWeights, trend: real, risk: real, sentiment: Option<real>, atrPct: Option<real>)
    requires NonNegativeWeights(w) && -1.0 <= trend <= 1.0 && 0.0 <= risk <= 1.0 && (sentiment.Some? ==> -1.0 <= sentiment.value <= 1.0)
    requires IndexWeight(w, sentiment, atrPct) > 0.0
    ensures var q := IndexPoints(w, trend, risk, sentiment, atrPct) / IndexWeight(w, sentiment, atrPct); Share(q) == q
  {
    hide IndexWeight, IndexPoints;
    PointsWithinWeight(w, trend, risk, sentiment, atrPct);
    QuotientBounds(IndexPoints(w, trend, risk, sentiment, atrPct), IndexWeight(w, sentiment, atrPct), 0.0, 1.0);
  }

  lemma PointsWithinWeight(w: MhiWeights, trend: real, risk: real, sentiment: Option<real>, atrPct: Option<real>)
    requires NonNegativeWeights(w) && -1.0 <= trend <= 1.0 && 0.0 <= risk <= 1.0 && (sentiment.Some? ==> -1.0 <= sentiment.value <= 1.0)
    ensures 0.0 <= IndexPoints(w, trend, risk, sentiment, atrPct) <= IndexWeight(w, sentiment, atrPct)
  {
    hide Part;
    Fraction(WeightIf(w.trend, true), (trend + 1.0) / 2.0);
    Fraction(WeightIf(w.risk, true), 1.0 - risk);
    if sentiment.Some? {
      Fraction(WeightIf(w.sentiment, true), (sentiment.value + 1.0) / 2.0);
    }
    if atrPct.Some? {
      Fraction(WeightIf(w.volatility, true), 1.0 - Share(atrPct.value / 5.0));
    }
    WeightsIf(w, sentiment, atrPct);
    hide WeightIf, Share, NonNegativeWeights, Part;
  }

  lemma WeightsIf(w: MhiWeights, sentiment: Option<real>, atrPct: Option<real>)
    ensures WeightIf(w.sentiment, sentiment.Some?) == if sentiment.Some? then WeightIf(w.sentiment, true) else 0.0
    ensures WeightIf(w.volatility, atrPct.Some?) == if atrPct.Some? then WeightIf(w.volatility, true) else 0.0
  {}

  lemma Fraction(weight: real, share: real)
    requires weight >= 0.0 && 0.0 <= share <= 1.0
    ensures 0.0 <= Part(weight, share) <= weight
  {
    ProductNonNegative(weight, share);
    ProductNonNegative(weight, 1.0 - share);
  }

  // Agreement.

  /** How far the values above `m` are above it, in all. */
  function Excess(values: seq<real>, m: real): real {
    if values == [] then 0.0
    else Excess(values[..|values| - 1], m) + if values[|values| - 1] > m then values[|values| - 1] - m else 0.0
  }

  lemma {:induction false} DistancesAreExcess(values: seq<real>, m: real)
    ensures SumOfDistances(values, m) == 2.0 * Excess(values, m) - (Sum(values) - m * |values| as real)
  {
    if values != [] {
      var n := |values| - 1;
      DistancesAreExcess(values[..n], m);
      EqualFactors(m, |values| as real, n as real + 1.0);
      assert m * (n as real + 1.0) == m * n as real + m;
    }
  }

  /** The mean deviation is twice what lies above the mean, shared among all. */
  lemma DeviationIsTwiceTheExcess(values: seq<real>)
    requires values != []
    ensures Mean(values) * |values| as real == Sum(values)
    ensures MeanDeviation(values) * |values| as real == 2.0 * Excess(values, Mean(values))
  {
    hide Sum, SumOfDistances, Excess;
    DistancesAreExcess(values, Mean(values));
    var n := |values| as real;
    assert Mean(values) * n == Sum(values);
    assert MeanDeviation(values) * n == SumOfDistances(values, Mean(values));
  }
}

/** The regime written out: totals over the sensitive assets against the thresholds, and how deep it lies. */
module RegimeFormulas {
  import opened Common
  import opened RealFacts
  import opened Folds
  import opened Rounding
  import opened Sorting
  import opened Regimes
  import opened ScoreFormulas
  import TextOrder

  // Totals over the assets whose sensitivity is not low.

  function Heads(assets: seq<RegimeInput>): nat {
    if assets == [] then 0 else Heads(assets[1..]) + if assets[0].sensitivity.Low? then 0 else 1
  }

  function Trends(assets: seq<RegimeInput>): real {
    if assets == [] then 0.0 else Trends(assets[1..]) + if assets[0].sensitivity.Low? then 0.0 else assets[0].trend
  }

  function Risks(assets: seq<RegimeInput>): real {
    if assets == [] then 0.0 else Risks(assets[1..]) + if assets[0].sensitivity.Low? then 0.0 else assets[0].risk
  }

  /** How many of them trend to the given side, zero being up. */
  function Sided(assets: seq<RegimeInput>, up: bool): nat {
    if assets == [] then 0
    else Sided(assets[1..], up) + if assets[0].sensitivity.Low? || (assets[0].trend >= 0.0) != up then 0 else 1
  }

  lemma {:induction false} KeptTotals(assets: seq<RegimeInput>)
    ensures var kept := Keep(IsSensitive, assets);
      && |kept| == Heads(assets) && SumOf(TrendOf, kept) == Trends(assets) && SumOf(RiskOf, kept) == Risks(assets)
      && CountOf(Rising, kept) == Sided(assets, true) && |kept| - CountOf(Rising, kept) == Sided(assets, false)
  {
    if assets != [] {
      KeptTotals(assets[1..]);
      var kept, rest := Keep(IsSensitive, assets), Keep(IsSensitive, assets[1..]);
      if IsSensitive(assets[0]) {
        assert kept == [assets[0]] + rest && kept[1..] == rest;
      } else {
        assert kept == rest;
      }
    }
  }

  // The active event.

  /** Within two days of now and off its consensus by five hundredths at least. */
  predicate Matters(e: EventFeature) {
    -48.0 <= e.proximityHours <= 48.0 && (e.surprise >= 0.05 || e.surprise <= -0.05)
  }

  /** The event that matters most: the greatest surprise either way, and among equal ones the greatest id. */
  ghost predicate MattersMost(events: seq<EventFeature>, e: EventFeature) {
    && e in events && Matters(e)
    && forall d :: d in events && Matters(d) ==>
         Abs(d.surprise) < Abs(e.surprise) || (Abs(d.surprise) == Abs(e.surprise) && TextOrder.Leq(d.eventId, e.eventId))
  }

  lemma ActiveMattersMost(events: seq<EventFeature>)
    ensures ActiveEvent(events).Some? <==> exists e :: e in events && Matters(e)
    ensures ActiveEvent(events).Some? ==> MattersMost(events, ActiveEvent(events).value)
  {
    SomeActive(events);
    forall e ensures Material(e) <==> Matters(e) {}
    var material := Keep(Material, events);
    KeepKept(Material, events);
    if material != [] {
      WeakerIsTotal();
      BestIsMaximal(Weaker, material);
      forall d | d in events && Matters(d) ensures Weaker(d, ActiveEvent(events).value) {
        assert d in material;
        var i :| 0 <= i < |material| && material[i] == d;
      }
    }
  }

  // The state.

  /** The totals are past both thresholds of the regime, per head. */
  predicate FarOff(n: nat, trends: real, risks: real) { n > 0 && risks >= 0.6 * n as real && trends <= -0.2 * n as real }

  predicate FarOn(n: nat, trends: real, risks: real) { n > 0 && risks <= 0.45 * n as real && trends >= 0.2 * n as real }

  lemma MeanAgainst(sum: real, n: real, mean: real, threshold: real)
    requires n > 0.0 && mean == sum / n
    ensures (mean >= threshold <==> sum >= threshold * n) && (mean <= threshold <==> sum <= threshold * n)
  {
    assert mean * n == sum;
    if mean >= threshold {
      ProductMonotone(threshold, mean, n);
    }
    if mean <= threshold {
      ProductMonotone(mean, threshold, n);
    }
    DivideBack(threshold, n);
    if sum >= threshold * n {
      QuotientMonotone(threshold * n, sum, n);
    }
    if sum <= threshold * n {
      QuotientMonotone(sum, threshold * n, n);
    }
  }

  lemma StateOfTotals(n: nat, trends: real, risks: real, trend: real, risk: real)
    requires if n == 0 then trend == 0.0 == risk else trend == trends / n as real && risk == risks / n as real
    ensures StateFrom(trend, risk) ==
      if FarOff(n, trends, risks) then RiskOff else if FarOn(n, trends, risks) then RiskOn else Transition
  {
    if n > 0 {
      MeanAgainst(risks, n as real, risk, 0.6);
      MeanAgainst(risks, n as real, risk, 0.45);
      MeanAgainst(trends, n as real, trend, -0.2);
      MeanAgainst(trends, n as real, trend, 0.2);
    }
  }

  /**
   * The regime is event-driven exactly when an event matters; otherwise it is risk-off or risk-on
   * exactly when the totals of the sensitive assets are past both thresholds, and else in transition.
   */
  lemma StateExactly(assets: seq<RegimeInput>, events: seq<EventFeature>, previous: Option<RegimeState>)
    ensures var r := Classify(assets, events, previous);
      var n, trends, risks := Heads(assets), Trends(assets), Risks(assets);
      && r.state == (if exists e :: e in events && Matters(e) then EventDriven
                     else if FarOff(n, trends, risks) then RiskOff
                     else if FarOn(n, trends, risks) then RiskOn else Transition)
      && r.previous == previous && (r.changed <==> previous != Some(r.state))
  {
    hide StateFrom, BoundaryMargin, EventMargin, TrendConcordance, Round4, ActiveEvent, FarOff, FarOn, Heads, Trends, Risks;
    ActiveMattersMost(events);
    KeptTotals(assets);
    var agg := AggregatesOf(Keep(IsSensitive, assets));
    StateOfTotals(Heads(assets), Trends(assets), Risks(assets), agg.trend, agg.risk);
  }

  // Depth and confidence.

  /** How much both averages can move without the regime changing, at the scale of the regime. */
  function Room(state: RegimeState): real { if state.Transition? then 0.3 else 0.4 }

  /** Moving both averages by less than the margin leaves the regime as it is. */
  lemma MarginKeepsState(trend: real, risk: real, trend': real, risk': real)
    requires var state := StateFrom(trend, risk);
      var room := Room(state) * BoundaryMargin(trend, risk, state);
      Abs(trend' - trend) < room && Abs(risk' - risk) < room
    ensures StateFrom(trend', risk') == StateFrom(trend, risk)
  {}

  /**
   * For risk-off and risk-on, short of the full margin, no more than that is safe: any greater move
   * has a direction that leaves the regime.
   */
  lemma MarginIsTight(trend: real, risk: real, move: real) returns (trend': real, risk': real)
    requires !StateFrom(trend, risk).Transition?
    requires var margin := BoundaryMargin(trend, risk, StateFrom(trend, risk)); margin < 1.0 && move > 0.4 * margin
    ensures Abs(trend' - trend) <= move && Abs(risk' - risk) <= move
    ensures StateFrom(trend', risk') != StateFrom(trend, risk)
  {
    if StateFrom(trend, risk).RiskOff? {
      trend', risk' := trend + move, risk - move;
    } else {
      trend', risk' := trend - move, risk + move;
    }
  }

  /**
   * In transition every threshold by itself counts as a boundary: the margin vanishes exactly when an
   * average sits on one, even where no move of less than the rest of the band reaches a regime.
   */
  lemma TransitionMarginVanishesExactlyWhen(trend: real, risk: real)
    requires StateFrom(trend, risk).Transition?
    ensures BoundaryMargin(trend, risk, Transition) == 0.0 <==>
      risk == 0.6 || risk == 0.45 || trend == 0.2 || trend == -0.2
    ensures forall trend', risk' :: Abs(trend' - trend) < 0.2 - Abs(trend) ==> StateFrom(trend', risk').Transition?
  {}

  /** The part of the sensitive assets that trend to the side of the whole. */
  function Agreement(assets: seq<RegimeInput>): real {
    if Heads(assets) == 0 then 0.5 else Sided(assets, Trends(assets) >= 0.0) as real / Heads(assets) as real
  }

  function PerHead(total: real, n: nat): real { if n == 0 then 0.0 else total / n as real }

  /** How deep in its regime the run is: by its event, or by its averages. */
  function Depth(assets: seq<RegimeInput>, events: seq<EventFeature>, state: RegimeState): real {
    if ActiveEvent(events).Some? then Share((Abs(ActiveEvent(events).value.surprise) - 0.05) / 0.05)
    else BoundaryMargin(PerHead(Trends(assets), Heads(assets)), PerHead(Risks(assets), Heads(assets)), state)
  }

  lemma ConcordanceIsAgreement(assets: seq<RegimeInput>)
    ensures TrendConcordance(Keep(IsSensitive, assets)) == Agreement(assets)
  {
    KeptTotals(assets);
    hide Keep, SumOf, CountOf, Heads, Trends, Sided;
    var n := Heads(assets);
    if n > 0 {
      MeanAgainst(Trends(assets), n as real, Trends(assets) / n as real, 0.0);
    }
  }

  /**
   * Confidence is half depth and half agreement; what drives the regime is its event, at least at 0.4
   * and at most at 0.8, or else the two averages.
   */
  lemma ConfidenceExactly(assets: seq<RegimeInput>, events: seq<EventFeature>, previous: Option<RegimeState>)
    requires InRange(assets)
    ensures var r := Classify(assets, events, previous);
      var depth := Depth(assets, events, r.state);
      && 0.0 <= depth <= 1.0 && 0.0 <= Agreement(assets) <= 1.0
      && r.confidence == Round4((depth + Agreement(assets)) / 2.0)
      && r.drivers ==
           if ActiveEvent(events).Some? then [Driver("event_" + Token(ActiveEvent(events).value.eventType), Round4(0.4 + 0.4 * depth))]
           else [Driver("avg_trend", Round4((PerHead(Trends(assets), Heads(assets)) + 1.0) / 2.0)),
                 Driver("avg_risk", Round4(PerHead(Risks(assets), Heads(assets))))]
  {
    var kept := Keep(IsSensitive, assets);
    ConcordanceIsAgreement(assets);
    ConcordanceInRange(kept);
    KeptTotals(assets);
    DepthInRange(assets, events, Classify(assets, events, previous).state);
    hide StateFrom, BoundaryMargin, TrendConcordance, Round4, ActiveEvent, Heads, Trends, Risks, Agreement, InRange;
    MarginIsDepth(assets, events, previous);
  }

  lemma DepthInRange(assets: seq<RegimeInput>, events: seq<EventFeature>, state: RegimeState)
    ensures 0.0 <= Depth(assets, events, state) <= 1.0
  {}

  lemma MarginIsDepth(assets: seq<RegimeInput>, events: seq<EventFeature>, previous: Option<RegimeState>)
    ensures var agg, state := AggregatesOf(Keep(IsSensitive, assets)), Classify(assets, events, previous).state;
      && agg.trend == PerHead(Trends(assets), Heads(assets)) && agg.risk == PerHead(Risks(assets), Heads(assets))
      && Depth(assets, events, state) ==
           if ActiveEvent(events).Some? then EventMargin(ActiveEvent(events).value) else BoundaryMargin(agg.trend, agg.risk, state)
  {
    KeptTotals(assets);
    hide BoundaryMargin, TrendConcordance, Round4, ActiveEvent, StateFrom;
  }
}
