/** Round-half-even, as the engine rounds every published score. */
module Rounding {
  function RoundHalfEven(x: real): int {
    var below := x.Floor;
    var rest := x - below as real;
    if rest < 0.5 then below
    else if rest > 0.5 then below + 1
    else if below % 2 == 0 then below else below + 1
  }

  function Round4(x: real): real { RoundHalfEven(x * 10000.0) as real / 10000.0 }

  lemma RoundIsNearest(x: real)
    ensures -0.5 <= RoundHalfEven(x) as real - x <= 0.5
  {}

  /** Rounding never swaps two values. */
  lemma RoundIsMonotone(x: real, y: real)
    requires x <= y
    ensures RoundHalfEven(x) <= RoundHalfEven(y)
  {
    if x.Floor < y.Floor {
      RoundBetween(x);
      RoundBetween(y);
    }
  }

  lemma RoundBetween(x: real)
    ensures x.Floor <= RoundHalfEven(x) <= x.Floor + 1
  {}

  lemma RoundOfInteger(n: int)
    ensures RoundHalfEven(n as real) == n
  {}

  /** A value between two whole bounds stays between them. */
  lemma Round4StaysWithin(x: real, low: int, high: int)
    requires low as real <= x <= high as real
    ensures low as real <= Round4(x) <= high as real
  {
    RoundIsMonotone((10000 * low) as real, x * 10000.0);
    RoundIsMonotone(x * 10000.0, (10000 * high) as real);
    RoundOfInteger(10000 * low);
    RoundOfInteger(10000 * high);
  }

  lemma Round4IsClose(x: real)
    ensures x - 0.00005 <= Round4(x) <= x + 0.00005
  {
    RoundIsNearest(x * 10000.0);
  }
}

/** Per-asset features and the scores computed from them alone. */
module Signals {
  import opened Common
  import opened RealFacts

  datatype EmaState = AboveDiverging | AboveConverging | Crossing | BelowConverging | BelowDiverging

  datatype MacdState = BullishCross | Bullish | Neutral | Bearish | BearishCross

  datatype Indicators = Indicators(
    ema: Option<EmaState>,
    macd: Option<MacdState>,
    rsi: Option<real>,
    atrPct: Option<real>,
    volumeRatio: Option<real>)

  datatype Changes = Changes(h6: Option<real>, h24: Option<real>, d7: Option<real>, d30: Option<real>)

  datatype AssetFeatures = AssetFeatures(indicators: Indicators, changes: Changes)

  datatype Pair = Pair(value: real, weight: real)

  const SCALE_24H := 5.0
  const SCALE_7D := 15.0
  const ATR_FULL := 5.0
  const PROX_WINDOW := 48.0
  const VOL_SPAN := 2.0

  function EmaSignal(state: EmaState): real {
    match state
    case AboveDiverging => 1.0
    case AboveConverging => 0.5
    case Crossing => 0.0
    case BelowConverging => -0.5
    case BelowDiverging => -1.0
  }

  function MacdSignal(state: MacdState): real {
    match state
    case BullishCross => 1.0
    case Bullish => 0.5
    case Neutral => 0.0
    case Bearish => -0.5
    case BearishCross => -1.0
  }

  function RsiSignal(rsi: real): real { Clamp((rsi - 50.0) / 50.0, -1.0, 1.0) }

  function TotalWeight(pairs: seq<Pair>): real {
    if pairs == [] then 0.0 else TotalWeight(pairs[..|pairs| - 1]) + pairs[|pairs| - 1].weight
  }

  function WeightedSum(pairs: seq<Pair>): real {
    if pairs == [] then 0.0
    else WeightedSum(pairs[..|pairs| - 1]) + pairs[|pairs| - 1].value * pairs[|pairs| - 1].weight
  }

  function WeightedMean(pairs: seq<Pair>): real {
    if TotalWeight(pairs) == 0.0 then 0.0 else WeightedSum(pairs) / TotalWeight(pairs)
  }

  function Present(value: Option<real>, weight: real): seq<Pair> {
    if value.Some? then [Pair(value.value, weight)] else []
  }

  function ClampedRatio(value: Option<real>, scale: real): Option<real>
    requires scale != 0.0
  {
    if value.Some? then Some(Clamp(value.value / scale, -1.0, 1.0)) else None
  }

  function Subsignals(f: AssetFeatures): seq<Pair> {
    var ind := f.indicators;
    Present(if ind.ema.Some? then Some(EmaSignal(ind.ema.value)) else None, 0.30)
    + Present(if ind.macd.Some? then Some(MacdSignal(ind.macd.value)) else None, 0.25)
    + Present(if ind.rsi.Some? then Some(RsiSignal(ind.rsi.value)) else None, 0.15)
    + Present(ClampedRatio(f.changes.h24, SCALE_24H), 0.15)
    + Present(ClampedRatio(f.changes.d7, SCALE_7D), 0.15)
  }

  function TrendScore(f: AssetFeatures): real { Clamp(WeightedMean(Subsignals(f)), -1.0, 1.0) }

  function VolatilityRisk(atrPct: Option<real>): Option<real> {
    if atrPct.Some? then Some(Clamp(atrPct.value / ATR_FULL, 0.0, 1.0)) else None
  }

  /** The proximity is the signed distance in hours to the nearest event, when there is one. */
  function EventRisk(proximity: Option<real>): Option<real> {
    if proximity.Some? then Some(Clamp(1.0 - Abs(proximity.value) / PROX_WINDOW, 0.0, 1.0)) else None
  }

  function VolumeRisk(volumeRatio: Option<real>): Option<real> {
    if volumeRatio.Some? then Some(Clamp((volumeRatio.value - 1.0) / VOL_SPAN, 0.0, 1.0)) else None
  }

  function RiskPairs(ind: Indicators, proximity: Option<real>): seq<Pair> {
    Present(VolatilityRisk(ind.atrPct), 0.50) + Present(EventRisk(proximity), 0.30) + Present(VolumeRisk(ind.volumeRatio), 0.20)
  }

  function RiskScore(f: AssetFeatures, proximity: Option<real>): real {
    Clamp(WeightedMean(RiskPairs(f.indicators, proximity)), 0.0, 1.0)
  }

  // Agreement of the trend signals.

  function Sum(values: seq<real>): real {
    if values == [] then 0.0 else Sum(values[..|values| - 1]) + values[|values| - 1]
  }

  function SumOfDistances(values: seq<real>, to: real): real {
    if values == [] then 0.0 else SumOfDistances(values[..|values| - 1], to) + Abs(values[|values| - 1] - to)
  }

  function Values(pairs: seq<Pair>): (values: seq<real>)
    ensures |values| == |pairs|
  {
    seq(|pairs|, i requires 0 <= i < |pairs| => pairs[i].value)
  }

  function Mean(values: seq<real>): real
    requires values != []
  {
    Sum(values) / |values| as real
  }

  function MeanDeviation(values: seq<real>): real
    requires values != []
  {
    SumOfDistances(values, Mean(values)) / |values| as real
  }

  function Concordance(values: seq<real>): real {
    if |values| < 2 then 0.5 else Clamp(1.0 - MeanDeviation(values), 0.0, 1.0)
  }

  function SystemConfidence(f: AssetFeatures, expected: nat): real {
    var subsignals := Subsignals(f);
    var completeness := if expected > 0 then Clamp(|subsignals| as real / expected as real, 0.0, 1.0) else 0.0;
    Clamp(0.5 * completeness + 0.5 * Concordance(Values(subsignals)), 0.0, 1.0)
  }

  /** The five trend signals, each None when absent. */
  datatype Five = Five(ema: Option<real>, macd: Option<real>, rsi: Option<real>, h24: Option<real>, d7: Option<real>)

  function SignalsOf(f: AssetFeatures): Five {
    Five(if f.indicators.ema.Some? then Some(EmaSignal(f.indicators.ema.value)) else None,
         if f.indicators.macd.Some? then Some(MacdSignal(f.indicators.macd.value)) else None,
         if f.indicators.rsi.Some? then Some(RsiSignal(f.indicators.rsi.value)) else None,
         ClampedRatio(f.changes.h24, SCALE_24H),
         ClampedRatio(f.changes.d7, SCALE_7D))
  }

  function PairsOf(x: Five): seq<Pair> {
    Present(x.ema, 0.30) + Present(x.macd, 0.25) + Present(x.rsi, 0.15) + Present(x.h24, 0.15) + Present(x.d7, 0.15)
  }

  lemma SubsignalsAreFive(f: AssetFeatures)
    ensures Subsignals(f) == PairsOf(SignalsOf(f))
  {
    hide EmaSignal, MacdSignal, RsiSignal, ClampedRatio, Present;
  }

  // Laws.

  predicate UnitOption(value: Option<real>) { value.Some? ==> -1.0 <= value.value <= 1.0 }

  lemma SignalsInRange(f: AssetFeatures)
    ensures var x := SignalsOf(f);
      UnitOption(x.ema) && UnitOption(x.macd) && UnitOption(x.rsi) && UnitOption(x.h24) && UnitOption(x.d7)
  {}

  ghost predicate UnitRange(values: seq<real>) {
    forall i :: 0 <= i < |values| ==> -1.0 <= values[i] <= 1.0
  }

  /** The key inequality: |v - m| <= 1 - v * m when both lie in [-1, 1]. */
  lemma DistanceBound(v: real, m: real)
    requires -1.0 <= v <= 1.0 && -1.0 <= m <= 1.0
    ensures Abs(v - m) <= 1.0 - v * m
  {
    ProductNonNegative(1.0 - v, 1.0 + m);
    ProductNonNegative(1.0 + v, 1.0 - m);
  }

  lemma {:induction false} SumOfDistancesBound(values: seq<real>, m: real)
    requires UnitRange(values) && -1.0 <= m <= 1.0
    ensures SumOfDistances(values, m) <= |values| as real - m * Sum(values)
    ensures -(|values| as real) <= Sum(values) <= |values| as real
    ensures SumOfDistances(values, m) >= 0.0
  {
    if values != [] {
      var front, last := values[..|values| - 1], values[|values| - 1];
      SumOfDistancesBound(front, m);
      DistanceBound(last, m);
      assert m * Sum(values) == m * Sum(front) + m * last;
    }
  }

  /**
   * The mean absolute deviation of any number of values in [-1, 1] is at most 1 - mean * mean, so
   * subtracting it from 1 already lands in [0, 1] and the clamp in the concordance never acts.
   */
  lemma MeanDeviationBound(values: seq<real>)
    requires UnitRange(values) && values != []
    ensures -1.0 <= Mean(values) <= 1.0
    ensures 0.0 <= MeanDeviation(values) <= 1.0 - Mean(values) * Mean(values)
    ensures |values| >= 2 ==> Concordance(values) == 1.0 - MeanDeviation(values)
  {
    hide Sum, SumOfDistances;
    var n := |values| as real;
    SumOfDistancesBound(values, 0.0);
    QuotientBounds(Sum(values), n, -1.0, 1.0);
    var m := Mean(values);
    SumOfDistancesBound(values, m);
    DividedDistances(SumOfDistances(values, m), Sum(values), n, m);
  }

  lemma DividedDistances(distances: real, sum: real, n: real, m: real)
    requires n > 0.0 && m == sum / n && 0.0 <= distances <= n - m * sum
    ensures 0.0 <= distances / n <= 1.0 - m * m <= 1.0
  {
    assert m * n == sum;
    assert n - m * (m * n) == (1.0 - m * m) * n;
    QuotientBounds(distances, n, 0.0, 1.0 - m * m);
    SquareNonNegative(m);
  }

  lemma SquareNonNegative(m: real)
    ensures m * m >= 0.0
  {}

  /** Values in [-1, 1], all of positive weight. */
  ghost predicate UnitPairs(pairs: seq<Pair>) {
    forall i :: 0 <= i < |pairs| ==> -1.0 <= pairs[i].value <= 1.0 && pairs[i].weight > 0.0
  }

  lemma UnitPairsConcat(a: seq<Pair>, b: seq<Pair>)
    requires UnitPairs(a) && UnitPairs(b)
    ensures UnitPairs(a + b)
  {}

  lemma PresentInRange(value: Option<real>, weight: real)
    requires UnitOption(value) && weight > 0.0
    ensures UnitPairs(Present(value, weight))
  {}

  lemma SubsignalsInRange(f: AssetFeatures)
    ensures UnitPairs(Subsignals(f))
    ensures UnitRange(Values(Subsignals(f)))
  {
    SignalsInRange(f);
    FiveInRange(SignalsOf(f));
    SubsignalsAreFive(f);
  }

  lemma FiveInRange(x: Five)
    requires UnitOption(x.ema) && UnitOption(x.macd) && UnitOption(x.rsi) && UnitOption(x.h24) && UnitOption(x.d7)
    ensures UnitPairs(PairsOf(x))
  {
    var a, b, c := Present(x.ema, 0.30), Present(x.macd, 0.25), Present(x.rsi, 0.15);
    var d, e := Present(x.h24, 0.15), Present(x.d7, 0.15);
    PresentInRange(x.ema, 0.30);
    PresentInRange(x.macd, 0.25);
    PresentInRange(x.rsi, 0.15);
    PresentInRange(x.h24, 0.15);
    PresentInRange(x.d7, 0.15);
    hide UnitPairs, Present;
    UnitPairsConcat(a, b);
    UnitPairsConcat(a + b, c);
    UnitPairsConcat(a + b + c, d);
    UnitPairsConcat(a + b + c + d, e);
  }

  function Completeness(present: nat, expected: nat): real {
    if expected == 0 then 0.0 else MinReal(1.0, present as real / expected as real)
  }

  /**
   * Confidence is the half-half blend of completeness and agreement, whatever number of signals is
   * expected: both lie in [0, 1], so the clamp of the blend never acts, nor that of the agreement.
   */
  lemma ConfidenceNeverClamped(f: AssetFeatures, expected: nat)
    ensures var present, values := |Subsignals(f)|, Values(Subsignals(f));
      var agreement := if present < 2 then 0.5 else 1.0 - MeanDeviation(values);
      && SystemConfidence(f, expected) == 0.5 * Completeness(present, expected) + 0.5 * agreement
      && 0.0 <= SystemConfidence(f, expected) <= 1.0
  {
    SubsignalsInRange(f);
    var present, values := |Subsignals(f)|, Values(Subsignals(f));
    if present >= 2 {
      MeanDeviationBound(values);
      SquareNonNegative(Mean(values));
    }
    if expected > 0 {
      NonNegativeRatio(present, expected);
    }
    hide Subsignals, MeanDeviation, Values;
  }

  lemma NonNegativeRatio(present: nat, expected: nat)
    requires expected > 0
    ensures present as real / expected as real >= 0.0
  {}

  // Trend against the indicators it is built from.

  lemma {:induction false} ConcatSums(a: seq<Pair>, b: seq<Pair>)
    ensures TotalWeight(a + b) == TotalWeight(a) + TotalWeight(b)
    ensures WeightedSum(a + b) == WeightedSum(a) + WeightedSum(b)
  {
    if b == [] {
      assert a + b == a;
    } else {
      ConcatSums(a, b[..|b| - 1]);
      assert (a + b)[..|a + b| - 1] == a + b[..|b| - 1];
    }
  }

  lemma ConcatFive(a: seq<Pair>, b: seq<Pair>, c: seq<Pair>, d: seq<Pair>, e: seq<Pair>)
    ensures TotalWeight(a + b + c + d + e) == TotalWeight(a) + TotalWeight(b) + TotalWeight(c) + TotalWeight(d) + TotalWeight(e)
    ensures WeightedSum(a + b + c + d + e) == WeightedSum(a) + WeightedSum(b) + WeightedSum(c) + WeightedSum(d) + WeightedSum(e)
  {
    hide TotalWeight, WeightedSum;
    ConcatSums(a, b);
    ConcatSums(a + b, c);
    ConcatSums(a + b + c, d);
    ConcatSums(a + b + c + d, e);
  }

  lemma PresentSums(value: Option<real>, weight: real)
    ensures TotalWeight(Present(value, weight)) == if value.Some? then weight else 0.0
    ensures WeightedSum(Present(value, weight)) == if value.Some? then value.value * weight else 0.0
  {
    if value.Some? {
      assert Present(value, weight)[..0] == [];
    }
  }

  function OrZero(value: Option<real>): real { if value.Some? then value.value else 0.0 }

  function IfPresent(value: Option<real>, weight: real): real { if value.Some? then weight else 0.0 }

  lemma SubsignalSums(f: AssetFeatures)
    ensures var x := SignalsOf(f);
      && TotalWeight(Subsignals(f)) == IfPresent(x.ema, 0.30) + IfPresent(x.macd, 0.25) + IfPresent(x.rsi, 0.15)
                                       + IfPresent(x.h24, 0.15) + IfPresent(x.d7, 0.15)
      && WeightedSum(Subsignals(f)) == OrZero(x.ema) * 0.30 + OrZero(x.macd) * 0.25 + OrZero(x.rsi) * 0.15
                                       + OrZero(x.h24) * 0.15 + OrZero(x.d7) * 0.15
  {
    hide TotalWeight, WeightedSum, Subsignals, SignalsOf, Present;
    var x := SignalsOf(f);
    var a, b, c := Present(x.ema, 0.30), Present(x.macd, 0.25), Present(x.rsi, 0.15);
    var d, e := Present(x.h24, 0.15), Present(x.d7, 0.15);
    PresentSums(x.ema, 0.30);
    PresentSums(x.macd, 0.25);
    PresentSums(x.rsi, 0.15);
    PresentSums(x.h24, 0.15);
    PresentSums(x.d7, 0.15);
    ConcatFive(a, b, c, d, e);
    SubsignalsAreFive(f);
  }

  predicate EmaBullish(f: AssetFeatures) { f.indicators.ema.Some? && EmaSignal(f.indicators.ema.value) > 0.0 }

  predicate EmaBearish(f: AssetFeatures) { f.indicators.ema.Some? && EmaSignal(f.indicators.ema.value) < 0.0 }

  predicate MacdBullish(f: AssetFeatures) { f.indicators.macd.Some? && MacdSignal(f.indicators.macd.value) > 0.0 }

  predicate MacdBearish(f: AssetFeatures) { f.indicators.macd.Some? && MacdSignal(f.indicators.macd.value) < 0.0 }

  /**
   * Two indicators that agree outweigh everything else: a bullish moving average and a bullish MACD
   * keep the trend at -0.175 or above whatever RSI and the price changes say, and symmetrically.
   */
  lemma AgreeingIndicatorsBoundTrend(f: AssetFeatures)
    ensures EmaBullish(f) && MacdBullish(f) ==> TrendScore(f) >= -0.175
    ensures EmaBearish(f) && MacdBearish(f) ==> TrendScore(f) <= 0.175
  {
    hide TotalWeight, WeightedSum, Subsignals, SignalsOf, IfPresent, OrZero;
    SubsignalSums(f);
    SignalsInRange(f);
    var x, sum, total := SignalsOf(f), WeightedSum(Subsignals(f)), TotalWeight(Subsignals(f));
    IndicatorSignals(f);
    if EmaBullish(f) && MacdBullish(f) {
      TwoBullishOutweigh(x, sum, total);
      QuotientMonotone(-0.175 * total, sum, total);
      DivideBack(-0.175, total);
    }
    if EmaBearish(f) && MacdBearish(f) {
      TwoBearishOutweigh(x, sum, total);
      QuotientMonotone(sum, 0.175 * total, total);
      DivideBack(0.175, total);
    }
  }

  lemma IndicatorSignals(f: AssetFeatures)
    ensures var x := SignalsOf(f);
      && (EmaBullish(f) ==> x.ema.Some? && x.ema.value >= 0.5) && (EmaBearish(f) ==> x.ema.Some? && x.ema.value <= -0.5)
      && (MacdBullish(f) ==> x.macd.Some? && x.macd.value >= 0.5) && (MacdBearish(f) ==> x.macd.Some? && x.macd.value <= -0.5)
  {}

  lemma TwoBullishOutweigh(x: Five, sum: real, total: real)
    requires UnitOption(x.rsi) && UnitOption(x.h24) && UnitOption(x.d7)
    requires x.ema.Some? && x.ema.value >= 0.5 && x.macd.Some? && x.macd.value >= 0.5
    requires total == IfPresent(x.ema, 0.30) + IfPresent(x.macd, 0.25) + IfPresent(x.rsi, 0.15)
                      + IfPresent(x.h24, 0.15) + IfPresent(x.d7, 0.15)
    requires sum == OrZero(x.ema) * 0.30 + OrZero(x.macd) * 0.25 + OrZero(x.rsi) * 0.15 + OrZero(x.h24) * 0.15 + OrZero(x.d7) * 0.15
    ensures sum >= -0.175 * total && total >= 0.55
  {}

  lemma TwoBearishOutweigh(x: Five, sum: real, total: real)
    requires UnitOption(x.rsi) && UnitOption(x.h24) && UnitOption(x.d7)
    requires x.ema.Some? && x.ema.value <= -0.5 && x.macd.Some? && x.macd.value <= -0.5
    requires total == IfPresent(x.ema, 0.30) + IfPresent(x.macd, 0.25) + IfPresent(x.rsi, 0.15)
                      + IfPresent(x.h24, 0.15) + IfPresent(x.d7, 0.15)
    requires sum == OrZero(x.ema) * 0.30 + OrZero(x.macd) * 0.25 + OrZero(x.rsi) * 0.15 + OrZero(x.h24) * 0.15 + OrZero(x.d7) * 0.15
    ensures sum <= 0.175 * total && total >= 0.55
  {}

  /** The band is tight: the trend can sit at its edge while both indicators read bullish. */
  lemma TrendBandIsTight() returns (f: AssetFeatures)
    ensures EmaBullish(f) && MacdBullish(f) && TrendScore(f) == -0.175
  {
    f := AssetFeatures(Indicators(Some(AboveConverging), Some(Bullish), Some(0.0), None, None),
                           Changes(None, Some(-5.0), Some(-15.0), None));
    SubsignalSums(f);
    assert WeightedSum(Subsignals(f)) == -0.175 && TotalWeight(Subsignals(f)) == 1.0;
  }

  // Better signals never lower a mean.

  ghost predicate NonNegative(pairs: seq<Pair>) {
    forall i :: 0 <= i < |pairs| ==> pairs[i].weight >= 0.0
  }

  /** Same weights, every value at least as high. */
  ghost predicate Dominates(high: seq<Pair>, low: seq<Pair>) {
    && |high| == |low|
    && forall i :: 0 <= i < |low| ==> high[i].weight == low[i].weight && high[i].value >= low[i].value
  }

  lemma {:induction false} SumsFollowDominance(high: seq<Pair>, low: seq<Pair>)
    requires Dominates(high, low) && NonNegative(low)
    ensures TotalWeight(high) == TotalWeight(low) >= 0.0
    ensures WeightedSum(high) >= WeightedSum(low)
  {
    if low != [] {
      var n := |low| - 1;
      SumsFollowDominance(high[..n], low[..n]);
      ProductMonotone(low[n].value, high[n].value, low[n].weight);
    }
  }

  lemma DominanceConcat(a: seq<Pair>, a': seq<Pair>, b: seq<Pair>, b': seq<Pair>)
    requires Dominates(a', a) && Dominates(b', b) && NonNegative(a) && NonNegative(b)
    ensures Dominates(a' + b', a + b) && NonNegative(a + b)
  {}

  /** `high` and `low` are both present or both absent, and the former is no smaller. */
  predicate NoSmaller(high: Option<real>, low: Option<real>) {
    high.Some? == low.Some? && (low.Some? ==> high.value >= low.value)
  }

  lemma MeanFollowsDominance(high: seq<Pair>, low: seq<Pair>)
    requires Dominates(high, low) && NonNegative(low)
    ensures WeightedMean(high) >= WeightedMean(low)
  {
    hide TotalWeight, WeightedSum, Dominates, NonNegative;
    SumsFollowDominance(high, low);
    if TotalWeight(low) != 0.0 {
      QuotientMonotone(WeightedSum(low), WeightedSum(high), TotalWeight(low));
    }
  }

  lemma PresentDominates(high: Option<real>, low: Option<real>, weight: real)
    requires NoSmaller(high, low) && weight >= 0.0
    ensures Dominates(Present(high, weight), Present(low, weight)) && NonNegative(Present(low, weight))
  {}

  /** The trend does not fall when a moving-average or MACD reading, RSI or a price change improves. */
  lemma TrendIsMonotone(high: AssetFeatures, low: AssetFeatures)
    requires var x, y := SignalsOf(high), SignalsOf(low);
      && NoSmaller(x.ema, y.ema) && NoSmaller(x.macd, y.macd) && NoSmaller(x.rsi, y.rsi)
      && NoSmaller(x.h24, y.h24) && NoSmaller(x.d7, y.d7)
    ensures TrendScore(high) >= TrendScore(low)
  {
    SubsignalsAreFive(high);
    SubsignalsAreFive(low);
    FiveDominate(SignalsOf(high), SignalsOf(low));
    hide Subsignals, PairsOf, SignalsOf, WeightedMean, Dominates, NonNegative;
    MeanFollowsDominance(Subsignals(high), Subsignals(low));
  }

  lemma FiveDominate(x: Five, y: Five)
    requires NoSmaller(x.ema, y.ema) && NoSmaller(x.macd, y.macd) && NoSmaller(x.rsi, y.rsi)
    requires NoSmaller(x.h24, y.h24) && NoSmaller(x.d7, y.d7)
    ensures Dominates(PairsOf(x), PairsOf(y)) && NonNegative(PairsOf(y))
  {
    hide Dominates, NonNegative, Present;
    var a, b, c := Present(x.ema, 0.30), Present(x.macd, 0.25), Present(x.rsi, 0.15);
    var a', b', c' := Present(y.ema, 0.30), Present(y.macd, 0.25), Present(y.rsi, 0.15);
    var d, e, d', e' := Present(x.h24, 0.15), Present(x.d7, 0.15), Present(y.h24, 0.15), Present(y.d7, 0.15);
    PresentDominates(x.ema, y.ema, 0.30);
    PresentDominates(x.macd, y.macd, 0.25);
    PresentDominates(x.rsi, y.rsi, 0.15);
    PresentDominates(x.h24, y.h24, 0.15);
    PresentDominates(x.d7, y.d7, 0.15);
    DominanceConcat(a', a, b', b);
    DominanceConcat(a' + b', a + b, c', c);
    DominanceConcat(a' + b' + c', a + b + c, d', d);
    DominanceConcat(a' + b' + c' + d', a + b + c + d, e', e);
  }

  lemma RiskPairsDominate(high: Indicators, low: Indicators, near: Option<real>, far: Option<real>)
    requires NoSmaller(high.atrPct, low.atrPct) && NoSmaller(high.volumeRatio, low.volumeRatio)
    requires near.Some? == far.Some? && (near.Some? ==> Abs(near.value) <= Abs(far.value))
    ensures Dominates(RiskPairs(high, near), RiskPairs(low, far)) && NonNegative(RiskPairs(low, far))
  {
    RisksGrow(high, low, near, far);
    hide Dominates, NonNegative, Present, VolatilityRisk, EventRisk, VolumeRisk;
    var a, b, c := Present(VolatilityRisk(high.atrPct), 0.50), Present(EventRisk(near), 0.30), Present(VolumeRisk(high.volumeRatio), 0.20);
    var a', b', c' := Present(VolatilityRisk(low.atrPct), 0.50), Present(EventRisk(far), 0.30), Present(VolumeRisk(low.volumeRatio), 0.20);
    PresentDominates(VolatilityRisk(high.atrPct), VolatilityRisk(low.atrPct), 0.50);
    PresentDominates(EventRisk(near), EventRisk(far), 0.30);
    PresentDominates(VolumeRisk(high.volumeRatio), VolumeRisk(low.volumeRatio), 0.20);
    DominanceConcat(a', a, b', b);
    DominanceConcat(a' + b', a + b, c', c);
  }

  lemma RisksGrow(high: Indicators, low: Indicators, near: Option<real>, far: Option<real>)
    requires NoSmaller(high.atrPct, low.atrPct) && NoSmaller(high.volumeRatio, low.volumeRatio)
    requires near.Some? == far.Some? && (near.Some? ==> Abs(near.value) <= Abs(far.value))
    ensures NoSmaller(VolatilityRisk(high.atrPct), VolatilityRisk(low.atrPct))
    ensures NoSmaller(EventRisk(near), EventRisk(far))
    ensures NoSmaller(VolumeRisk(high.volumeRatio), VolumeRisk(low.volumeRatio))
  {}

  /** Risk does not fall when volatility or volume grows or the nearest event comes closer, past or future. */
  lemma RiskIsMonotone(high: AssetFeatures, low: AssetFeatures, near: Option<real>, far: Option<real>)
    requires NoSmaller(high.indicators.atrPct, low.indicators.atrPct)
    requires NoSmaller(high.indicators.volumeRatio, low.indicators.volumeRatio)
    requires near.Some? == far.Some? && (near.Some? ==> Abs(near.value) <= Abs(far.value))
    ensures RiskScore(high, near) >= RiskScore(low, far)
  {
    RiskPairsDominate(high.indicators, low.indicators, near, far);
    hide RiskPairs, WeightedMean, Dominates, NonNegative;
    MeanFollowsDominance(RiskPairs(high.indicators, near), RiskPairs(low.indicators, far));
  }
}
