/** Technical indicators over a series of closes, oldest first. */
module IndicatorMath {
  import opened Common
  import opened RealFacts
  import opened Signals

  // Moving averages.

  function SumFirst(values: seq<real>, n: nat): real
    requires n <= |values|
  {
    if n == 0 then 0.0 else SumFirst(values, n - 1) + values[n - 1]
  }

  function Seed(values: seq<real>, period: nat): real
    requires 0 < period <= |values|
  {
    SumFirst(values, period) / period as real
  }

  function Smooth(value: real, previous: real, period: nat): real
    requires period > 0
  {
    var k := 2.0 / (period + 1) as real;
    value * k + previous * (1.0 - k)
  }

  /** The average after `n` values, for n from the period on. */
  function EmaAt(values: seq<real>, period: nat, n: nat): real
    requires 0 < period <= n <= |values|
  {
    if n == period then Seed(values, period) else Smooth(values[n - 1], EmaAt(values, period, n - 1), period)
  }

  /** The whole series: the seed, then one average for each further value. */
  function EmaSeries(values: seq<real>, period: nat): (series: seq<real>)
    requires 0 < period <= |values|
    ensures |series| == |values| - period + 1
    ensures forall i :: 0 <= i < |series| ==> series[i] == EmaAt(values, period, period + i)
  {
    seq(|values| - period + 1, i requires 0 <= i <= |values| - period => EmaAt(values, period, period + i))
  }

  method Ema(values: seq<real>, period: nat) returns (result: Option<real>)
    requires period > 0
    ensures result == if |values| < period then None else Some(EmaAt(values, period, |values|))
    ensures |values| >= period ==> result.value == EmaSeries(values, period)[|values| - period]
  {
    if |values| < period {
      return None;
    }
    var sum := 0.0;
    for i := 0 to period
      invariant sum == SumFirst(values, i)
    {
      sum := sum + values[i];
    }
    var average := sum / period as real;
    for n := period to |values|
      invariant average == EmaAt(values, period, n)
    {
      average := Smooth(values[n], average, period);
    }
    result := Some(average);
  }

  method BuildEmaSeries(values: seq<real>, period: nat) returns (series: seq<real>)
    requires 0 < period <= |values|
    ensures series == EmaSeries(values, period)
  {
    var sum := 0.0;
    for i := 0 to period
      invariant sum == SumFirst(values, i)
    {
      sum := sum + values[i];
    }
    series := [sum / period as real];
    for n := period to |values|
      invariant |series| == n - period + 1
      invariant forall i :: 0 <= i < |series| ==> series[i] == EmaAt(values, period, period + i)
    {
      series := series + [Smooth(values[n], series[|series| - 1], period)];
    }
  }

  /** Every average lies between the least and the greatest of the values it has seen. */
  lemma {:induction false} EmaStaysWithin(values: seq<real>, period: nat, n: nat, low: real, high: real)
    requires 0 < period <= n <= |values|
    requires forall i :: 0 <= i < n ==> low <= values[i] <= high
    ensures low <= EmaAt(values, period, n) <= high
  {
    if n == period {
      SumWithin(values, period, low, high);
      QuotientBounds(SumFirst(values, period), period as real, low, high);
    } else {
      EmaStaysWithin(values, period, n - 1, low, high);
      SmoothStaysWithin(values[n - 1], EmaAt(values, period, n - 1), period, low, high);
    }
  }

  lemma {:induction false} SumWithin(values: seq<real>, n: nat, low: real, high: real)
    requires n <= |values| && forall i :: 0 <= i < n ==> low <= values[i] <= high
    ensures low * n as real <= SumFirst(values, n) <= high * n as real
  {
    if n > 0 {
      SumWithin(values, n - 1, low, high);
      var m := (n - 1) as real;
      EqualFactors(low, n as real, m + 1.0);
      EqualFactors(high, n as real, m + 1.0);
      assert low * (m + 1.0) == low * m + low && high * (m + 1.0) == high * m + high;
    }
  }

  lemma SmoothStaysWithin(value: real, previous: real, period: nat, low: real, high: real)
    requires period > 0 && low <= value <= high && low <= previous <= high
    ensures low <= Smooth(value, previous, period) <= high
  {
    var k := 2.0 / (period + 1) as real;
    QuotientBounds(2.0, (period + 1) as real, 0.0, 1.0);
    ProductMonotone(low, value, k);
    ProductMonotone(value, high, k);
    ProductMonotone(low, previous, 1.0 - k);
    ProductMonotone(previous, high, 1.0 - k);
  }

  // Affine changes of the price scale.

  function AffineAt(value: real, scale: real, shift: real): real { scale * value + shift }

  function Affine(values: seq<real>, scale: real, shift: real): (out: seq<real>)
    ensures |out| == |values|
    ensures forall i :: 0 <= i < |values| ==> out[i] == AffineAt(values[i], scale, shift)
  {
    seq(|values|, i requires 0 <= i < |values| => AffineAt(values[i], scale, shift))
  }

  lemma {:induction false} SumIsAffine(values: seq<real>, n: nat, scale: real, shift: real)
    requires n <= |values|
    ensures SumFirst(Affine(values, scale, shift), n) == scale * SumFirst(values, n) + shift * n as real
  {
    if n > 0 {
      SumIsAffine(values, n - 1, scale, shift);
      var m := (n - 1) as real;
      assert n as real == m + 1.0;
      assert shift * (m + 1.0) == shift * m + shift;
      assert scale * (SumFirst(values, n - 1) + values[n - 1]) == scale * SumFirst(values, n - 1) + scale * values[n - 1];
    }
  }

  lemma SmoothIsAffine(value: real, previous: real, value': real, previous': real, period: nat, scale: real,
                       shift: real)
    requires period > 0 && value' == scale * value + shift && previous' == scale * previous + shift
    ensures Smooth(value', previous', period) == scale * Smooth(value, previous, period) + shift
  {
    var k := 2.0 / (period + 1) as real;
    assert (scale * value + shift) * k == scale * (value * k) + shift * k;
    assert (scale * previous + shift) * (1.0 - k) == scale * (previous * (1.0 - k)) + shift * (1.0 - k);
    assert shift * k + shift * (1.0 - k) == shift;
    assert scale * (value * k) + scale * (previous * (1.0 - k)) == scale * (value * k + previous * (1.0 - k));
  }

  lemma SeedIsAffine(values: seq<real>, period: nat, scale: real, shift: real)
    requires 0 < period <= |values|
    ensures Seed(Affine(values, scale, shift), period) == scale * Seed(values, period) + shift
  {
    SumIsAffine(values, period, scale, shift);
    var changed := Affine(values, scale, shift);
    AffineQuotient(SumFirst(values, period), SumFirst(changed, period), period as real, scale, shift,
                   Seed(values, period), Seed(changed, period));
  }

  lemma AffineQuotient(sum: real, changed: real, p: real, scale: real, shift: real, q: real, q': real)
    requires p != 0.0 && changed == scale * sum + shift * p && q == sum / p && q' == changed / p
    ensures q' == scale * q + shift
  {
    assert q * p == sum;
    assert (scale * q + shift) * p == scale * (q * p) + shift * p;
    DivideBack(scale * q + shift, p);
  }

  /** Moving averages commute with any affine change of the values. */
  lemma {:induction false} EmaIsAffine(values: seq<real>, period: nat, n: nat, scale: real, shift: real)
    requires 0 < period <= n <= |values|
    ensures EmaAt(Affine(values, scale, shift), period, n) == scale * EmaAt(values, period, n) + shift
  {
    hide Seed, Smooth;
    var average := EmaAt(values, period, n);
    if n == period {
      SeedIsAffine(values, period, scale, shift);
      EqualFactors(scale, average, Seed(values, period));
    } else {
      EmaIsAffine(values, period, n - 1, scale, shift);
      var moved, before := Affine(values, scale, shift), EmaAt(values, period, n - 1);
      SmoothIsAffine(values[n - 1], before, moved[n - 1], EmaAt(moved, period, n - 1), period, scale, shift);
      EqualFactors(scale, average, Smooth(values[n - 1], before, period));
    }
  }

  lemma SeriesIsAffine(values: seq<real>, period: nat, scale: real, shift: real)
    requires 0 < period <= |values|
    ensures EmaSeries(Affine(values, scale, shift), period) == Affine(EmaSeries(values, period), scale, shift)
  {
    var changed, affine := EmaSeries(Affine(values, scale, shift), period), Affine(EmaSeries(values, period), scale, shift);
    forall i | 0 <= i < |affine| ensures changed[i] == affine[i] {
      SeriesAtIsAffine(values, period, i, scale, shift);
    }
  }

  lemma SeriesAtIsAffine(values: seq<real>, period: nat, i: nat, scale: real, shift: real)
    requires 0 < period <= |values| && i <= |values| - period
    ensures EmaSeries(Affine(values, scale, shift), period)[i] == Affine(EmaSeries(values, period), scale, shift)[i]
  {
    hide EmaAt;
    EmaIsAffine(values, period, period + i, scale, shift);
    EqualFactors(scale, EmaSeries(values, period)[i], EmaAt(values, period, period + i));
  }

  // MACD.

  /** Difference of the two averages over the bars both have, oldest first. */
  function MacdLine(closes: seq<real>): (line: seq<real>)
    requires |closes| >= 35
    ensures |line| == |closes| - 25
  {
    TailDifference(EmaSeries(closes, 12), EmaSeries(closes, 26))
  }

  /** Element-wise difference of a series and a shorter one, aligned at their ends. */
  function TailDifference(long: seq<real>, short: seq<real>): (line: seq<real>)
    requires |short| <= |long|
    ensures |line| == |short|
    ensures forall i :: 0 <= i < |short| ==> line[i] == long[|long| - |short| + i] - short[i]
  {
    seq(|short|, i requires 0 <= i < |short| => long[|long| - |short| + i] - short[i])
  }

  /** How far MACD is above its signal line, `back` bars before the last. */
  function MacdGap(closes: seq<real>, back: nat): real
    requires |closes| >= 35 && back <= 1
  {
    var line := MacdLine(closes);
    var signal := EmaSeries(line, 9);
    line[|line| - 1 - back] - signal[|signal| - 1 - back]
  }

  function StateFromGaps(previous: real, current: real): MacdState {
    if previous <= 0.0 < current then BullishCross
    else if previous >= 0.0 > current then BearishCross
    else if current > 0.0 then Bullish
    else if current < 0.0 then Bearish
    else Neutral
  }

  /** None for a series too short to judge. */
  function MacdStateOf(closes: seq<real>): Option<MacdState> {
    if |closes| < 35 then None else Some(StateFromGaps(MacdGap(closes, 1), MacdGap(closes, 0)))
  }

  function Mirror(state: MacdState): MacdState {
    match state
    case BullishCross => BearishCross
    case Bullish => Bearish
    case Neutral => Neutral
    case Bearish => Bullish
    case BearishCross => BullishCross
  }

  lemma LineIsAffine(closes: seq<real>, scale: real, shift: real)
    requires |closes| >= 35
    ensures MacdLine(Affine(closes, scale, shift)) == Affine(MacdLine(closes), scale, 0.0)
  {
    SeriesIsAffine(closes, 12, scale, shift);
    SeriesIsAffine(closes, 26, scale, shift);
    DifferenceIsAffine(EmaSeries(closes, 12), EmaSeries(closes, 26), scale, shift);
  }

  lemma DifferenceIsAffine(long: seq<real>, short: seq<real>, scale: real, shift: real)
    requires |short| <= |long|
    ensures TailDifference(Affine(long, scale, shift), Affine(short, scale, shift)) == Affine(TailDifference(long, short), scale, 0.0)
  {
    var changed := TailDifference(Affine(long, scale, shift), Affine(short, scale, shift));
    var affine := Affine(TailDifference(long, short), scale, 0.0);
    forall i | 0 <= i < |short| ensures changed[i] == affine[i] {
      var f, g := long[|long| - |short| + i], short[i];
      assert scale * (f - g) == scale * f - scale * g;
    }
  }

  lemma GapIsAffine(closes: seq<real>, scale: real, shift: real, back: nat)
    requires |closes| >= 35 && back <= 1
    ensures MacdGap(Affine(closes, scale, shift), back) == scale * MacdGap(closes, back)
  {
    hide MacdLine, EmaAt;
    LineIsAffine(closes, scale, shift);
    var line, line' := MacdLine(closes), MacdLine(Affine(closes, scale, shift));
    SeriesIsAffine(line, 9, scale, 0.0);
    var signal, signal' := EmaSeries(line, 9), EmaSeries(line', 9);
    var i, j := |line| - 1 - back, |signal| - 1 - back;
    DifferenceScales(line[i], signal[j], line'[i], signal'[j], MacdGap(closes, back), scale);
  }

  lemma DifferenceScales(f: real, g: real, f': real, g': real, gap: real, scale: real)
    requires f' == scale * f + 0.0 && g' == scale * g + 0.0 && gap == f - g
    ensures f' - g' == scale * gap
  {
    assert scale * (f - g) == scale * f - scale * g;
  }

  lemma ScaledState(previous: real, current: real, previous': real, current': real, scale: real)
    requires previous' == scale * previous && current' == scale * current
    ensures scale > 0.0 ==> StateFromGaps(previous', current') == StateFromGaps(previous, current)
    ensures scale < 0.0 ==> StateFromGaps(previous', current') == Mirror(StateFromGaps(previous, current))
    ensures scale == 0.0 ==> StateFromGaps(previous', current') == Neutral
  {
    SignOfProduct(scale, previous);
    SignOfProduct(scale, current);
  }

  lemma SignOfProduct(a: real, b: real)
    ensures a > 0.0 ==> (a * b > 0.0 <==> b > 0.0) && (a * b < 0.0 <==> b < 0.0)
    ensures a < 0.0 ==> (a * b > 0.0 <==> b < 0.0) && (a * b < 0.0 <==> b > 0.0)
    ensures a == 0.0 ==> a * b == 0.0
  {}

  /**
   * The MACD state reads the shape of a series and nothing else: another currency or another price
   * level leaves it as it is, turning the series upside down exchanges bullish and bearish, and a
   * flat series is neutral.
   */
  lemma MacdUnderAffineChange(closes: seq<real>, scale: real, shift: real)
    requires |closes| >= 35
    ensures MacdStateOf(Affine(closes, scale, shift)) == Some(
      if scale > 0.0 then MacdStateOf(closes).value
      else if scale < 0.0 then Mirror(MacdStateOf(closes).value)
      else Neutral)
  {
    hide MacdGap, StateFromGaps;
    var moved := Affine(closes, scale, shift);
    GapIsAffine(closes, scale, shift, 0);
    GapIsAffine(closes, scale, shift, 1);
    ScaledState(MacdGap(closes, 1), MacdGap(closes, 0), MacdGap(moved, 1), MacdGap(moved, 0), scale);
  }

  // EMA 20/50.

  function EmaGap(closes: seq<real>, back: nat): real
    requires |closes| >= 51 && back <= 1
  {
    EmaAt(closes, 20, |closes| - back) - EmaAt(closes, 50, |closes| - back)
  }

  function CrossState(previous: real, now: real): EmaState {
    if (previous > 0.0) != (now > 0.0) then Crossing
    else
      var widening := Abs(now) >= Abs(previous);
      if now > 0.0 then (if widening then AboveDiverging else AboveConverging)
      else (if widening then BelowDiverging else BelowConverging)
  }

  function EmaStateOf(closes: seq<real>): Option<EmaState> {
    if |closes| < 51 then None else Some(CrossState(EmaGap(closes, 1), EmaGap(closes, 0)))
  }

  function Flip(state: EmaState): EmaState {
    match state
    case AboveDiverging => BelowDiverging
    case AboveConverging => BelowConverging
    case Crossing => Crossing
    case BelowConverging => AboveConverging
    case BelowDiverging => AboveDiverging
  }

  lemma EmaGapIsAffine(closes: seq<real>, scale: real, shift: real, back: nat)
    requires |closes| >= 51 && back <= 1
    ensures EmaGap(Affine(closes, scale, shift), back) == scale * EmaGap(closes, back)
  {
    EmaIsAffine(closes, 20, |closes| - back, scale, shift);
    EmaIsAffine(closes, 50, |closes| - back, scale, shift);
    var f, g := EmaAt(closes, 20, |closes| - back), EmaAt(closes, 50, |closes| - back);
    assert scale * (f - g) == scale * f - scale * g;
  }

  /**
   * The moving-average state is scale-free like MACD, but its mirror image is exact only while both
   * gaps are non-zero: a zero gap counts as below, so a flat series reads as below and diverging.
   */
  lemma EmaStateUnderAffineChange(closes: seq<real>, scale: real, shift: real)
    requires |closes| >= 51
    ensures var state, changed := EmaStateOf(closes).value, EmaStateOf(Affine(closes, scale, shift)).value;
      && (scale > 0.0 ==> changed == state)
      && (scale < 0.0 ==> (changed == Flip(state) <==> EmaGap(closes, 0) != 0.0 && EmaGap(closes, 1) != 0.0))
      && (scale == 0.0 ==> changed == BelowDiverging)
  {
    var moved := Affine(closes, scale, shift);
    EmaGapIsAffine(closes, scale, shift, 0);
    EmaGapIsAffine(closes, scale, shift, 1);
    ScaledCross(EmaGap(closes, 1), EmaGap(closes, 0), EmaGap(moved, 1), EmaGap(moved, 0), scale);
  }

  lemma ScaledCross(previous: real, now: real, previous': real, now': real, scale: real)
    requires previous' == scale * previous && now' == scale * now
    ensures var state, changed := CrossState(previous, now), CrossState(previous', now');
      && (scale > 0.0 ==> changed == state)
      && (scale < 0.0 ==> (changed == Flip(state) <==> now != 0.0 && previous != 0.0))
      && (scale == 0.0 ==> changed == BelowDiverging)
  {
    hide Abs;
    SignOfProduct(scale, previous);
    SignOfProduct(scale, now);
    if scale != 0.0 {
      AbsOf(scale);
      AbsScales(previous, previous', scale);
      AbsScales(now, now', scale);
      OrderScales(Abs(previous), Abs(now), Abs(previous'), Abs(now'), Abs(scale));
    }
  }

  lemma AbsOf(c: real)
    ensures c >= 0.0 ==> Abs(c) == c
    ensures c != 0.0 ==> Abs(c) > 0.0
  {}

  lemma AbsScales(x: real, x': real, scale: real)
    requires x' == scale * x
    ensures Abs(x') == Abs(scale) * Abs(x)
  {
    SignOfProduct(scale, x);
  }

  lemma OrderScales(a: real, b: real, a': real, b': real, c: real)
    requires c > 0.0 && a' == c * a && b' == c * b
    ensures a <= b <==> a' <= b'
  {
    SignOfProduct(c, b - a);
  }

  // Which way the states point.

  ghost predicate FlatUntilLast(values: seq<real>, level: real) {
    values != [] && forall i :: 0 <= i < |values| - 1 ==> values[i] == level
  }

  /** After a flat stretch the last value moves the average by its share of the jump. */
  lemma EmaAfterJump(values: seq<real>, period: nat, level: real)
    requires FlatUntilLast(values, level) && 0 < period < |values|
    ensures forall n :: period <= n < |values| ==> EmaAt(values, period, n) == level
    ensures EmaAt(values, period, |values|) == level + (values[|values| - 1] - level) * (2.0 / (period + 1) as real)
  {
    forall n | period <= n < |values| ensures EmaAt(values, period, n) == level {
      EmaStaysWithin(values, period, n, level, level);
    }
    var k, last := 2.0 / (period + 1) as real, values[|values| - 1];
    assert last * k + level * (1.0 - k) == level + (last - level) * k;
  }

  lemma LineAfterJump(closes: seq<real>, level: real)
    requires |closes| >= 35 && FlatUntilLast(closes, level)
    ensures var line := MacdLine(closes);
      && FlatUntilLast(line, 0.0)
      && line[|line| - 1] == (closes[|closes| - 1] - level) * (28.0 / 351.0)
  {
    EmaAfterJump(closes, 12, level);
    EmaAfterJump(closes, 26, level);
    hide EmaAt;
    var jump := closes[|closes| - 1] - level;
    assert jump * (2.0 / 13.0) - jump * (2.0 / 27.0) == jump * (28.0 / 351.0);
  }

  /** A jump up after a flat stretch is a bullish cross, a jump down a bearish one. */
  lemma JumpCrossesMacd(closes: seq<real>, level: real)
    requires |closes| >= 35 && FlatUntilLast(closes, level) && closes[|closes| - 1] != level
    ensures MacdStateOf(closes) == Some(if closes[|closes| - 1] > level then BullishCross else BearishCross)
  {
    LineAfterJump(closes, level);
    var line := MacdLine(closes);
    EmaAfterJump(line, 9, 0.0);
    hide MacdLine, EmaAt;
    var last := line[|line| - 1];
    assert MacdGap(closes, 1) == 0.0;
    assert MacdGap(closes, 0) == last - (0.0 + (last - 0.0) * (2.0 / 10.0));
  }

  /** A jump up after a flat stretch is a crossing; a jump down only widens the gap below. */
  lemma JumpCrossesEma(closes: seq<real>, level: real)
    requires |closes| >= 51 && FlatUntilLast(closes, level) && closes[|closes| - 1] != level
    ensures EmaStateOf(closes) == Some(if closes[|closes| - 1] > level then Crossing else BelowDiverging)
  {
    EmaAfterJump(closes, 20, level);
    EmaAfterJump(closes, 50, level);
    hide EmaAt;
    var jump := closes[|closes| - 1] - level;
    assert EmaGap(closes, 1) == 0.0;
    assert EmaGap(closes, 0) == jump * (2.0 / 21.0) - jump * (2.0 / 51.0);
  }

  // Wilder smoothing, shared by RSI and the average true range.

  function WilderAt(values: seq<real>, period: nat, n: nat): real
    requires 0 < period <= n <= |values|
  {
    if n == period then Seed(values, period)
    else WilderStep(WilderAt(values, period, n - 1), values[n - 1], period)
  }

  function WilderStep(average: real, value: real, period: nat): real
    requires period > 0
  {
    (average * (period - 1) as real + value) / period as real
  }

  lemma {:induction false} WilderScales(values: seq<real>, period: nat, n: nat, scale: real)
    requires 0 < period <= n <= |values|
    ensures WilderAt(Affine(values, scale, 0.0), period, n) == scale * WilderAt(values, period, n)
  {
    hide Seed, WilderStep;
    if n == period {
      SeedIsAffine(values, period, scale, 0.0);
      EqualFactors(scale, WilderAt(values, period, n), Seed(values, period));
    } else {
      WilderScales(values, period, n - 1, scale);
      var moved, w, v := Affine(values, scale, 0.0), WilderAt(values, period, n - 1), values[n - 1];
      WilderStepScales(w, v, WilderAt(moved, period, n - 1), moved[n - 1], period, scale);
      EqualFactors(scale, WilderAt(values, period, n), WilderStep(w, v, period));
    }
  }

  lemma WilderStepScales(w: real, v: real, w': real, v': real, period: nat, scale: real)
    requires period > 0 && w' == scale * w && v' == scale * v
    ensures WilderStep(w', v', period) == scale * WilderStep(w, v, period)
  {
    var q := (period - 1) as real;
    assert w' * q == scale * (w * q);
    QuotientScales(scale, w * q + v, period as real);
  }

  /** The average of non-negative moves is non-negative, and zero only if every move is zero. */
  lemma {:induction false} WilderOfNonNegative(values: seq<real>, period: nat, n: nat)
    requires 0 < period <= n <= |values| && forall i :: 0 <= i < n ==> values[i] >= 0.0
    ensures WilderAt(values, period, n) >= 0.0
    ensures period > 1 ==> (WilderAt(values, period, n) == 0.0 <==> forall i :: 0 <= i < n ==> values[i] == 0.0)
  {
    var p := period as real;
    if n == period {
      SumOfNonNegative(values, period);
      ZeroQuotient(SumFirst(values, period), p);
    } else {
      WilderOfNonNegative(values, period, n - 1);
      var w, v, q := WilderAt(values, period, n - 1), values[n - 1], (period - 1) as real;
      ProductNonNegative(w, q);
      ZeroQuotient(w * q + v, p);
      if period > 1 {
        SignOfProduct(q, w);
      }
    }
  }

  lemma ZeroQuotient(x: real, p: real)
    requires p > 0.0 && x >= 0.0
    ensures x / p >= 0.0
    ensures x / p == 0.0 <==> x == 0.0
  {
    assert (x / p) * p == x;
  }

  lemma {:induction false} SumOfNonNegative(values: seq<real>, n: nat)
    requires n <= |values| && forall i :: 0 <= i < n ==> values[i] >= 0.0
    ensures SumFirst(values, n) >= 0.0
    ensures SumFirst(values, n) == 0.0 <==> forall i :: 0 <= i < n ==> values[i] == 0.0
  {
    if n > 0 {
      SumOfNonNegative(values, n - 1);
    }
  }

  // RSI.

  const RSI_PERIOD: nat := 14

  /** The rises (or falls) from each close to the next, zero where the series goes the other way. */
  function Moves(closes: seq<real>, up: bool): (moves: seq<real>)
    requires closes != []
    ensures |moves| == |closes| - 1
    ensures forall i :: 0 <= i < |moves| ==> moves[i] == Move(closes[i], closes[i + 1], up)
  {
    seq(|closes| - 1, i requires 0 <= i < |closes| - 1 => Move(closes[i], closes[i + 1], up))
  }

  function Move(before: real, after: real, up: bool): (move: real)
    ensures move >= 0.0
  {
    MaxReal(if up then after - before else before - after, 0.0)
  }

  function RsiFrom(gain: real, loss: real): real
    requires gain >= 0.0 && loss >= 0.0
  {
    if loss == 0.0 then 100.0 else 100.0 - 100.0 / (1.0 + gain / loss)
  }

  function AverageMove(closes: seq<real>, up: bool): (average: real)
    requires |closes| > RSI_PERIOD
    ensures average >= 0.0
  {
    WilderOfNonNegative(Moves(closes, up), RSI_PERIOD, |closes| - 1);
    WilderAt(Moves(closes, up), RSI_PERIOD, |closes| - 1)
  }

  function Rsi14(closes: seq<real>): Option<real> {
    if |closes| <= RSI_PERIOD then None else Some(RsiFrom(AverageMove(closes, true), AverageMove(closes, false)))
  }

  method Rsi(closes: seq<real>) returns (rsi: Option<real>)
    ensures rsi == Rsi14(closes)
  {
    if |closes| < RSI_PERIOD + 1 {
      return None;
    }
    hide Move, WilderStep, WilderAt, RsiFrom, AverageMove, Seed;
    var averageGain, averageLoss := SeedMoves(closes);
    for i := RSI_PERIOD + 1 to |closes|
      invariant averageGain == WilderAt(Moves(closes, true), RSI_PERIOD, i - 1)
      invariant averageLoss == WilderAt(Moves(closes, false), RSI_PERIOD, i - 1)
    {
      NextAverages(closes, i);
      var delta := closes[i] - closes[i - 1];
      averageGain := WilderStep(averageGain, MaxReal(delta, 0.0), RSI_PERIOD);
      averageLoss := WilderStep(averageLoss, MaxReal(-delta, 0.0), RSI_PERIOD);
    }
    AveragesAreMoves(closes);
    rsi := Some(RsiFrom(averageGain, averageLoss));
  }

  /** Plain averages of the first rises and falls. */
  method SeedMoves(closes: seq<real>) returns (averageGain: real, averageLoss: real)
    requires |closes| > RSI_PERIOD
    ensures averageGain == WilderAt(Moves(closes, true), RSI_PERIOD, RSI_PERIOD)
    ensures averageLoss == WilderAt(Moves(closes, false), RSI_PERIOD, RSI_PERIOD)
  {
    hide Move, Moves, MaxReal, WilderAt, Seed, SumFirst;
    ghost var ups, downs := Moves(closes, true), Moves(closes, false);
    var gains, losses := 0.0, 0.0;
    NoSum(ups);
    NoSum(downs);
    for i := 1 to RSI_PERIOD + 1
      invariant gains == SumFirst(ups, i - 1) && losses == SumFirst(downs, i - 1)
    {
      NextSums(closes, i);
      var delta := closes[i] - closes[i - 1];
      if delta >= 0.0 {
        gains := gains + delta;
      } else {
        losses := losses - delta;
      }
    }
    averageGain, averageLoss := gains / RSI_PERIOD as real, losses / RSI_PERIOD as real;
    FirstAverage(ups);
    FirstAverage(downs);
  }

  lemma NoSum(values: seq<real>)
    ensures SumFirst(values, 0) == 0.0
  {}

  lemma NextSums(closes: seq<real>, i: nat)
    requires 0 < i < |closes|
    ensures var delta := closes[i] - closes[i - 1];
      && SumFirst(Moves(closes, true), i)
         == SumFirst(Moves(closes, true), i - 1) + (if delta >= 0.0 then delta else 0.0)
      && SumFirst(Moves(closes, false), i)
         == SumFirst(Moves(closes, false), i - 1) + (if delta >= 0.0 then 0.0 else -delta)
  {
    OneMove(closes[i - 1], closes[i]);
    hide Move, MaxReal;
  }

  lemma FirstAverage(moves: seq<real>)
    requires |moves| >= RSI_PERIOD
    ensures WilderAt(moves, RSI_PERIOD, RSI_PERIOD) == SumFirst(moves, RSI_PERIOD) / RSI_PERIOD as real
  {}

  lemma NextAverages(closes: seq<real>, i: nat)
    requires RSI_PERIOD < i < |closes|
    ensures var delta := closes[i] - closes[i - 1];
      && WilderAt(Moves(closes, true), RSI_PERIOD, i)
         == WilderStep(WilderAt(Moves(closes, true), RSI_PERIOD, i - 1), MaxReal(delta, 0.0), RSI_PERIOD)
      && WilderAt(Moves(closes, false), RSI_PERIOD, i)
         == WilderStep(WilderAt(Moves(closes, false), RSI_PERIOD, i - 1), MaxReal(-delta, 0.0), RSI_PERIOD)
  {
    hide Move, WilderStep;
    OneMove(closes[i - 1], closes[i]);
  }

  /** A rise is a move up and none down, and conversely. */
  lemma OneMove(before: real, after: real)
    ensures var delta := after - before;
      && Move(before, after, true) == MaxReal(delta, 0.0) == (if delta >= 0.0 then delta else 0.0)
      && Move(before, after, false) == MaxReal(-delta, 0.0) == (if delta >= 0.0 then 0.0 else -delta)
  {}

  lemma AveragesAreMoves(closes: seq<real>)
    requires |closes| > RSI_PERIOD
    ensures AverageMove(closes, true) == WilderAt(Moves(closes, true), RSI_PERIOD, |closes| - 1) >= 0.0
    ensures AverageMove(closes, false) == WilderAt(Moves(closes, false), RSI_PERIOD, |closes| - 1) >= 0.0
  {}

  lemma RsiFromBounds(gain: real, loss: real)
    requires gain >= 0.0 && loss >= 0.0
    ensures 0.0 <= RsiFrom(gain, loss) <= 100.0
    ensures RsiFrom(gain, loss) + RsiFrom(loss, gain) == 100.0 <==> gain != 0.0 || loss != 0.0
  {
    if loss > 0.0 {
      ShareOf(gain, loss);
    }
    if gain > 0.0 {
      ShareOf(loss, gain);
    }
    if gain > 0.0 && loss > 0.0 {
      var total := gain + loss;
      assert gain / total + loss / total == (gain + loss) / total;
    }
  }

  /** With losses, RSI is the share of the gains in all movement. */
  lemma ShareOf(gain: real, loss: real)
    requires gain >= 0.0 && loss > 0.0
    ensures RsiFrom(gain, loss) == 100.0 * (gain / (gain + loss))
    ensures 0.0 <= gain / (gain + loss) <= 1.0
  {
    var r := gain / loss;
    assert r * loss == gain && r >= 0.0;
    var share := gain / (gain + loss);
    assert share * (gain + loss) == gain;
    assert share * (1.0 + r) == r by {
      assert share * (r * loss + loss) == r * loss;
      assert (share * (1.0 + r)) * loss == r * loss;
      CancelEqual(share * (1.0 + r), r, loss);
    }
    var rest := 100.0 / (1.0 + r);
    assert rest * (1.0 + r) == 100.0;
    assert (100.0 - 100.0 * share) * (1.0 + r) == 100.0 * (1.0 + r) - 100.0 * (share * (1.0 + r));
    CancelEqual(rest, 100.0 - 100.0 * share, 1.0 + r);
    QuotientBounds(gain, gain + loss, 0.0, 1.0);
  }

  lemma CancelEqual(a: real, b: real, c: real)
    requires c > 0.0 && a * c == b * c
    ensures a == b
  {
    Cancel(a, b, c);
    Cancel(b, a, c);
  }

  /** Turning a series upside down exchanges rises and falls. */
  predicate SideOf(scale: real, up: bool) { if scale >= 0.0 then up else !up }

  lemma MovesUnderAffineChange(closes: seq<real>, scale: real, shift: real, up: bool)
    requires closes != []
    ensures Moves(Affine(closes, scale, shift), up) == Affine(Moves(closes, SideOf(scale, up)), Abs(scale), 0.0)
  {
    var side, moved := SideOf(scale, up), Affine(closes, scale, shift);
    var changed, affine := Moves(moved, up), Affine(Moves(closes, side), Abs(scale), 0.0);
    forall i | 0 <= i < |closes| - 1 ensures changed[i] == affine[i] {
      MoveAtUnderAffineChange(closes, scale, shift, up, i);
    }
  }

  lemma MoveAtUnderAffineChange(closes: seq<real>, scale: real, shift: real, up: bool, i: nat)
    requires i < |closes| - 1
    ensures Moves(Affine(closes, scale, shift), up)[i]
         == Affine(Moves(closes, SideOf(scale, up)), Abs(scale), 0.0)[i]
  {
    hide Move, SideOf, Abs, AffineAt;
    var c, moves, moved := Abs(scale), Moves(closes, SideOf(scale, up)), Affine(closes, scale, shift);
    MoveUnderAffineChange(closes[i], closes[i + 1], moves[i], moved[i], moved[i + 1], scale, shift, up, c);
  }

  lemma MoveUnderAffineChange(before: real, after: real, move: real, before': real, after': real, scale: real,
                              shift: real,
                              up: bool, c: real)
    requires before' == AffineAt(before, scale, shift) && after' == AffineAt(after, scale, shift)
    requires move == Move(before, after, SideOf(scale, up)) && c == Abs(scale)
    ensures Move(before', after', up) == AffineAt(move, c, 0.0)
  {
    var d := after - before;
    assert after' - before' == scale * d;
    SignOfProduct(scale, d);
    assert (-scale) * d == -(scale * d) && scale * (-d) == -(scale * d) && (-scale) * (-d) == scale * d;
  }

  lemma AverageMoveUnderAffineChange(closes: seq<real>, scale: real, shift: real, up: bool)
    requires |closes| > RSI_PERIOD
    ensures AverageMove(Affine(closes, scale, shift), up) == Abs(scale) * AverageMove(closes, SideOf(scale, up))
  {
    hide WilderAt, Moves, Affine;
    var side := SideOf(scale, up);
    MovesUnderAffineChange(closes, scale, shift, up);
    WilderScales(Moves(closes, side), RSI_PERIOD, |closes| - 1, Abs(scale));
    EqualFactors(Abs(scale), AverageMove(closes, side), WilderAt(Moves(closes, side), RSI_PERIOD, |closes| - 1));
  }

  lemma RsiFromScales(gain: real, loss: real, gain': real, loss': real, c: real)
    requires gain >= 0.0 && loss >= 0.0 && c > 0.0 && gain' == c * gain && loss' == c * loss
    ensures gain' >= 0.0 && loss' >= 0.0 && RsiFrom(gain', loss') == RsiFrom(gain, loss)
  {
    ProductNonNegative(c, gain);
    SignOfProduct(c, loss);
    if loss > 0.0 {
      QuotientCancels(c, gain, loss);
    }
  }

  /** No close differs from the one before it. */
  ghost predicate IsFlat(closes: seq<real>) {
    forall i :: 0 <= i < |closes| - 1 ==> closes[i + 1] == closes[i]
  }

  lemma FlatMeansNoMovement(closes: seq<real>)
    requires |closes| > RSI_PERIOD
    ensures IsFlat(closes) <==> AverageMove(closes, true) == 0.0 && AverageMove(closes, false) == 0.0
  {
    NoMovementOneWay(closes, true);
    NoMovementOneWay(closes, false);
    if IsFlat(closes) {
      forall i | 0 <= i < |closes| - 1
        ensures Move(closes[i], closes[i + 1], true) == 0.0 && Move(closes[i], closes[i + 1], false) == 0.0
      {}
    }
    if AverageMove(closes, true) == 0.0 && AverageMove(closes, false) == 0.0 {
      forall i | 0 <= i < |closes| - 1 ensures closes[i + 1] == closes[i] {
        assert Move(closes[i], closes[i + 1], true) == 0.0 && Move(closes[i], closes[i + 1], false) == 0.0;
      }
    }
  }

  lemma NoMovementOneWay(closes: seq<real>, up: bool)
    requires |closes| > RSI_PERIOD
    ensures AverageMove(closes, up) == 0.0 <==> forall i :: 0 <= i < |closes| - 1 ==> Move(closes[i], closes[i + 1], up) == 0.0
  {
    WilderOfNonNegative(Moves(closes, up), RSI_PERIOD, |closes| - 1);
    assert forall i :: 0 <= i < |closes| - 1 ==> Moves(closes, up)[i] == Move(closes[i], closes[i + 1], up);
  }

  /**
   * RSI lies in [0, 100], ignores price scale and price level, and turns into 100 minus itself when
   * the series is turned upside down, except for a flat series, which reads 100 either way.
   */
  lemma RsiLaws(closes: seq<real>, scale: real, shift: real)
    requires |closes| > RSI_PERIOD
    ensures var rsi, changed := Rsi14(closes).value, Rsi14(Affine(closes, scale, shift)).value;
      && 0.0 <= rsi <= 100.0
      && (scale > 0.0 ==> changed == rsi)
      && (scale < 0.0 ==> (changed == 100.0 - rsi <==> !IsFlat(closes)))
      && (scale == 0.0 || IsFlat(closes) ==> changed == 100.0)
  {
    hide AverageMove, RsiFrom, IsFlat;
    var moved := Affine(closes, scale, shift);
    var gain, loss := AverageMove(closes, true), AverageMove(closes, false);
    var gain', loss' := AverageMove(moved, true), AverageMove(moved, false);
    AverageMoveUnderAffineChange(closes, scale, shift, true);
    AverageMoveUnderAffineChange(closes, scale, shift, false);
    RsiFromBounds(gain, loss);
    FlatMeansNoMovement(closes);
    if scale > 0.0 {
      RsiFromScales(gain, loss, gain', loss', scale);
    } else if scale < 0.0 {
      RsiFromScales(loss, gain, gain', loss', -scale);
    }
    if scale == 0.0 || IsFlat(closes) {
      RsiOfFlat(gain', loss');
    }
  }

  /** No close lies on the other side of the one before it. */
  ghost predicate NeverTurns(closes: seq<real>, up: bool) {
    forall i :: 0 <= i < |closes| - 1 ==> if up then closes[i + 1] >= closes[i] else closes[i + 1] <= closes[i]
  }

  lemma NeverTurnsOneWay(closes: seq<real>, up: bool)
    requires |closes| > RSI_PERIOD && NeverTurns(closes, up)
    ensures AverageMove(closes, !up) == 0.0
  {
    hide AverageMove;
    forall i | 0 <= i < |closes| - 1 ensures Move(closes[i], closes[i + 1], !up) == 0.0 {}
    NoMovementOneWay(closes, !up);
  }

  lemma RsiOfFall(gain: real, loss: real)
    requires gain == 0.0 && loss > 0.0
    ensures RsiFrom(gain, loss) == 0.0
  {
    ShareOf(gain, loss);
    QuotientBounds(gain, gain + loss, 0.0, 0.0);
  }

  /** A series that never falls has RSI 100; one that never rises, and falls somewhere, has RSI 0. */
  lemma RsiExtremes(closes: seq<real>)
    requires |closes| > RSI_PERIOD
    ensures NeverTurns(closes, true) ==> Rsi14(closes) == Some(100.0)
    ensures NeverTurns(closes, false) && !IsFlat(closes) ==> Rsi14(closes) == Some(0.0)
  {
    FlatMeansNoMovement(closes);
    hide AverageMove, IsFlat, NeverTurns;
    var gain, loss := AverageMove(closes, true), AverageMove(closes, false);
    if NeverTurns(closes, true) {
      NeverTurnsOneWay(closes, true);
    }
    if NeverTurns(closes, false) && !IsFlat(closes) {
      NeverTurnsOneWay(closes, false);
      RsiOfFall(gain, loss);
    }
  }

  lemma RsiOfFlat(gain: real, loss: real)
    requires gain == 0.0 && loss == 0.0
    ensures RsiFrom(gain, loss) == 100.0
  {}

  // ATR.

  function TrueRanges(highs: seq<real>, lows: seq<real>, closes: seq<real>): (ranges: seq<real>)
    requires |highs| == |lows| == |closes| > 0
    ensures |ranges| == |closes| - 1
    ensures forall i :: 0 <= i < |ranges| ==> ranges[i] == TrueRange(highs[i + 1], lows[i + 1], closes[i])
  {
    seq(|closes| - 1, i requires 0 <= i < |closes| - 1 => TrueRange(highs[i + 1], lows[i + 1], closes[i]))
  }

  function TrueRange(high: real, low: real, previous: real): (range: real)
    ensures range >= 0.0
  {
    MaxReal(MaxReal(high - low, Abs(high - previous)), Abs(low - previous))
  }

  /**
   * Average true range as a percentage of the last close; None for series of different lengths, fewer
   * than fifteen bars or a last close of zero.
   */
  function AtrPct(highs: seq<real>, lows: seq<real>, closes: seq<real>): Option<real> {
    if !(|highs| == |lows| == |closes|) || |closes| < 15 || closes[|closes| - 1] == 0.0 then None
    else Some((AverageTrueRange(highs, lows, closes) / closes[|closes| - 1]) * 100.0)
  }

  function AverageTrueRange(highs: seq<real>, lows: seq<real>, closes: seq<real>): real
    requires |highs| == |lows| == |closes| >= 15
  {
    WilderAt(TrueRanges(highs, lows, closes), 14, |closes| - 1)
  }

  method Atr(highs: seq<real>, lows: seq<real>, closes: seq<real>) returns (pct: Option<real>)
    ensures pct == AtrPct(highs, lows, closes)
  {
    if !(|highs| == |lows| == |closes|) || |closes| < 15 {
      return None;
    }
    hide TrueRange;
    ghost var ranges := TrueRanges(highs, lows, closes);
    var trs: seq<real> := [];
    for i := 1 to |closes|
      invariant trs == ranges[..i - 1]
    {
      trs := trs + [TrueRange(highs[i], lows[i], closes[i - 1])];
    }
    assert trs == ranges;
    var sum := 0.0;
    for i := 0 to 14
      invariant sum == SumFirst(trs, i)
    {
      sum := sum + trs[i];
    }
    var average := sum / 14.0;
    for n := 14 to |trs|
      invariant average == WilderAt(trs, 14, n)
    {
      average := WilderStep(average, trs[n], 14);
    }
    var last := closes[|closes| - 1];
    if last == 0.0 {
      return None;
    }
    pct := Some((average / last) * 100.0);
  }

  lemma MaxScales(a: real, b: real, a': real, b': real, c: real)
    requires c > 0.0 && a' == c * a && b' == c * b
    ensures MaxReal(a', b') == c * MaxReal(a, b)
  {
    OrderScales(a, b, a', b', c);
  }

  lemma TrueRangeScales(h: real, l: real, p: real, h': real, l': real, p': real, c: real)
    requires c > 0.0 && h' == c * h && l' == c * l && p' == c * p
    ensures TrueRange(h', l', p') == c * TrueRange(h, l, p)
  {
    hide Abs, MaxReal;
    assert h' - l' == c * (h - l) && h' - p' == c * (h - p) && l' - p' == c * (l - p);
    AbsOf(c);
    AbsScales(h - p, h' - p', c);
    AbsScales(l - p, l' - p', c);
    MaxScales(h - l, Abs(h - p), h' - l', Abs(h' - p'), c);
    MaxScales(MaxReal(h - l, Abs(h - p)), Abs(l - p), MaxReal(h' - l', Abs(h' - p')), Abs(l' - p'), c);
  }

  lemma TrueRangesScale(highs: seq<real>, lows: seq<real>, closes: seq<real>, c: real)
    requires |highs| == |lows| == |closes| > 0 && c > 0.0
    ensures TrueRanges(Affine(highs, c, 0.0), Affine(lows, c, 0.0), Affine(closes, c, 0.0))
         == Affine(TrueRanges(highs, lows, closes), c, 0.0)
  {
    hide TrueRange;
    var h, l, p := Affine(highs, c, 0.0), Affine(lows, c, 0.0), Affine(closes, c, 0.0);
    var scaled, affine := TrueRanges(h, l, p), Affine(TrueRanges(highs, lows, closes), c, 0.0);
    forall i | 0 <= i < |closes| - 1 ensures scaled[i] == affine[i] {
      TrueRangeScales(highs[i + 1], lows[i + 1], closes[i], h[i + 1], l[i + 1], p[i], c);
    }
  }

  /** ATR% does not depend on the unit of the prices, and for positive prices it is never negative. */
  lemma AtrLaws(highs: seq<real>, lows: seq<real>, closes: seq<real>, c: real)
    requires c > 0.0
    ensures AtrPct(Affine(highs, c, 0.0), Affine(lows, c, 0.0), Affine(closes, c, 0.0)) == AtrPct(highs, lows, closes)
    ensures AtrPct(highs, lows, closes).Some? && closes[|closes| - 1] > 0.0 ==> AtrPct(highs, lows, closes).value >= 0.0
  {
    hide AverageTrueRange;
    if |highs| == |lows| == |closes| && |closes| >= 15 {
      var h, l, p := Affine(highs, c, 0.0), Affine(lows, c, 0.0), Affine(closes, c, 0.0);
      var last := |closes| - 1;
      SignOfProduct(c, closes[last]);
      AverageTrueRangeScales(highs, lows, closes, c);
      RatioScales(AverageTrueRange(highs, lows, closes), closes[last], AverageTrueRange(h, l, p), p[last], c);
    }
  }

  lemma AverageTrueRangeScales(highs: seq<real>, lows: seq<real>, closes: seq<real>, c: real)
    requires c > 0.0 && |highs| == |lows| == |closes| >= 15
    ensures AverageTrueRange(Affine(highs, c, 0.0), Affine(lows, c, 0.0), Affine(closes, c, 0.0))
         == c * AverageTrueRange(highs, lows, closes)
    ensures AverageTrueRange(highs, lows, closes) >= 0.0
  {
    hide TrueRange, WilderAt, TrueRanges;
    var ranges, n := TrueRanges(highs, lows, closes), |closes| - 1;
    TrueRangesScale(highs, lows, closes, c);
    WilderScales(ranges, 14, n, c);
    WilderOfNonNegative(ranges, 14, n);
    EqualFactors(c, AverageTrueRange(highs, lows, closes), WilderAt(ranges, 14, n));
  }

  lemma RatioScales(a: real, b: real, a': real, b': real, c: real)
    requires c > 0.0 && a' == c * a && b' == c * b
    ensures b != 0.0 ==> b' != 0.0 && a' / b' == a / b
    ensures a >= 0.0 && b > 0.0 ==> a / b >= 0.0
  {
    if b != 0.0 {
      QuotientCancels(c, a, b);
      if a >= 0.0 && b > 0.0 {
        ZeroQuotient(a, b);
      }
    }
  }
}
