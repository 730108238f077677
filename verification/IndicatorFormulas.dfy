/** Averages and indicators in closed form: what each bar of a series weighs in them. */
module IndicatorFormulas {
  import opened Common
  import opened RealFacts
  import opened Signals
  import opened IndicatorMath

  function Power(base: real, n: nat): real { if n == 0 then 1.0 else base * Power(base, n - 1) }

  /** Values from `j` to before `n`, the latest at weight `k`, each earlier one at 1 - k times the next. */
  function Faded(values: seq<real>, k: real, j: nat, n: nat): real
    requires j <= n <= |values|
    decreases n - j
  {
    if j == n then 0.0 else Term(Power(1.0 - k, n - 1 - j), k, values[j]) + Faded(values, k, j + 1, n)
  }

  function Term(fading: real, k: real, value: real): real { fading * k * value }

  /** One step of a running average that gives the new value the weight `k`. */
  predicate Steps(average: real, value: real, k: real, next: real) { next == value * k + average * (1.0 - k) }

  lemma {:induction false} FadedNext(values: seq<real>, k: real, j: nat, n: nat)
    requires j <= n < |values|
    ensures Steps(Faded(values, k, j, n), values[n], k, Faded(values, k, j, n + 1))
    decreases n - j
  {
    if j == n {
      assert Faded(values, k, n + 1, n + 1) == 0.0;
    } else {
      FadedNext(values, k, j + 1, n);
      var p, v := Power(1.0 - k, n - 1 - j), values[j];
      PowerNext(1.0 - k, n - 1 - j);
      FadeTerm(p, k, v);
      hide Power, Term, Steps;
      assert Faded(values, k, j, n + 1) == Term(Power(1.0 - k, n - j), k, v) + Faded(values, k, j + 1, n + 1);
      StepTogether(Term(p, k, v), Faded(values, k, j + 1, n), values[n], k, Term(Power(1.0 - k, n - j), k, v),
                   Faded(values, k, j + 1, n + 1));
    }
  }

  lemma StepTogether(term: real, rest: real, value: real, k: real, term': real, rest': real)
    requires Steps(rest, value, k, rest') && term' == term * (1.0 - k)
    ensures Steps(term + rest, value, k, term' + rest')
  {
    Distribute(term, rest, 1.0 - k);
  }

  lemma PowerNext(base: real, n: nat)
    ensures Power(base, n + 1) == base * Power(base, n)
  {}

  lemma FadeTerm(p: real, k: real, v: real)
    ensures Term((1.0 - k) * p, k, v) == Term(p, k, v) * (1.0 - k)
  {}

  lemma Distribute(a: real, b: real, c: real)
    ensures (a + b) * c == a * c + b * c
  {}

  /** The plain mean of the first `p` values, faded, and every later value at its own weight. */
  function ClosedForm(values: seq<real>, k: real, p: nat, n: nat): real
    requires 0 < p <= n <= |values|
  {
    Power(1.0 - k, n - p) * (SumFirst(values, p) / p as real) + Faded(values, k, p, n)
  }

  lemma ClosedFormNext(values: seq<real>, k: real, p: nat, n: nat)
    requires 0 < p <= n < |values|
    ensures Steps(ClosedForm(values, k, p, n), values[n], k, ClosedForm(values, k, p, n + 1))
  {
    FadedNext(values, k, p, n);
    PowerNext(1.0 - k, n - p);
    hide Power, Faded, SumFirst;
    var mean, q := SumFirst(values, p) / p as real, Power(1.0 - k, n - p);
    Distribute(q * mean, Faded(values, k, p, n), 1.0 - k);
    assert ((1.0 - k) * q) * mean == (q * mean) * (1.0 - k);
  }

  lemma ClosedFormFirst(values: seq<real>, k: real, p: nat)
    requires 0 < p <= |values|
    ensures ClosedForm(values, k, p, p) == SumFirst(values, p) / p as real
  {}

  lemma StepsOnce(average: real, value: real, k: real, a: real, b: real)
    requires Steps(average, value, k, a) && Steps(average, value, k, b)
    ensures a == b
  {}

  /** A moving average gives the latest value the weight 2 / (period + 1). */
  lemma {:induction false} EmaInClosedForm(values: seq<real>, period: nat, n: nat)
    requires 0 < period <= n <= |values|
    ensures EmaAt(values, period, n) == ClosedForm(values, 2.0 / (period + 1) as real, period, n)
  {
    var k := 2.0 / (period + 1) as real;
    if n == period {
      ClosedFormFirst(values, k, period);
    } else {
      EmaInClosedForm(values, period, n - 1);
      ClosedFormNext(values, k, period, n - 1);
      hide ClosedForm, Seed, Steps;
      EmaSteps(values, period, n);
      StepsOnce(EmaAt(values, period, n - 1), values[n - 1], k, EmaAt(values, period, n), ClosedForm(values, k, period, n));
    }
  }

  lemma EmaSteps(values: seq<real>, period: nat, n: nat)
    requires 0 < period < n <= |values|
    ensures Steps(EmaAt(values, period, n - 1), values[n - 1], 2.0 / (period + 1) as real, EmaAt(values, period, n))
  {}

  /** Wilder's average gives the latest value the weight 1 / period. */
  lemma {:induction false} WilderInClosedForm(values: seq<real>, period: nat, n: nat)
    requires 0 < period <= n <= |values|
    ensures WilderAt(values, period, n) == ClosedForm(values, 1.0 / period as real, period, n)
  {
    var k := 1.0 / period as real;
    if n == period {
      ClosedFormFirst(values, k, period);
    } else {
      WilderInClosedForm(values, period, n - 1);
      ClosedFormNext(values, k, period, n - 1);
      WilderSteps(WilderAt(values, period, n - 1), values[n - 1], period);
      hide ClosedForm, Seed, Steps, WilderStep;
      StepsOnce(WilderAt(values, period, n - 1), values[n - 1], k, WilderAt(values, period, n), ClosedForm(values, k, period, n));
    }
  }

  lemma WilderSteps(average: real, value: real, period: nat)
    requires period > 0
    ensures Steps(average, value, 1.0 / period as real, WilderStep(average, value, period))
  {
    var p := period as real;
    var k := 1.0 / p;
    assert k * p == 1.0;
    var next := value * k + average * (1.0 - k);
    assert next * p == value * (k * p) + average * (p - k * p);
    assert average * (period - 1) as real == average * (p - 1.0);
    DivideBack(next, p);
  }

  // RSI.

  /** The rises and falls of a series: each step is one or the other. */
  ghost predicate SplitsMoves(closes: seq<real>, ups: seq<real>, downs: seq<real>) {
    && |ups| == |downs| == |closes| - 1
    && forall i :: 0 <= i < |ups| ==>
         && ups[i] >= 0.0 && downs[i] >= 0.0 && (ups[i] == 0.0 || downs[i] == 0.0)
         && ups[i] - downs[i] == closes[i + 1] - closes[i]
  }

  lemma MovesSplit(closes: seq<real>)
    requires closes != []
    ensures SplitsMoves(closes, Moves(closes, true), Moves(closes, false))
  {}

  /** Of all smoothed movement RSI is the percentage that is upward; without downward movement it is 100. */
  predicate IsShareOf(rsi: real, up: real, down: real) {
    up >= 0.0 && down >= 0.0 && if down == 0.0 then rsi == 100.0 else rsi * (up + down) == 100.0 * up
  }

  lemma RsiIsShare(up: real, down: real)
    requires up >= 0.0 && down >= 0.0
    ensures IsShareOf(RsiFrom(up, down), up, down)
  {
    if down > 0.0 {
      ShareOf(up, down);
      var share := up / (up + down);
      assert share * (up + down) == up;
      assert (100.0 * share) * (up + down) == 100.0 * (share * (up + down));
    }
  }

  /** RSI written out: the share of rises, both averaged over fourteen steps as Wilder does. */
  lemma RsiExactly(closes: seq<real>) returns (ups: seq<real>, downs: seq<real>)
    ensures Rsi14(closes).Some? <==> |closes| >= 15
    ensures Rsi14(closes).Some? ==>
      && SplitsMoves(closes, ups, downs)
      && IsShareOf(Rsi14(closes).value, ClosedForm(ups, 1.0 / 14.0, 14, |closes| - 1), ClosedForm(downs, 1.0 / 14.0, 14, |closes| - 1))
  {
    ups, downs := [], [];
    if |closes| >= 15 {
      ups, downs := Moves(closes, true), Moves(closes, false);
      MovesSplit(closes);
      RsiOfMoves(closes);
    }
  }

  lemma RsiOfMoves(closes: seq<real>)
    requires |closes| >= 15
    ensures Rsi14(closes).Some?
    ensures IsShareOf(Rsi14(closes).value, ClosedForm(Moves(closes, true), 1.0 / 14.0, 14, |closes| - 1),
                      ClosedForm(Moves(closes, false), 1.0 / 14.0, 14, |closes| - 1))
  {
    hide ClosedForm, RsiFrom, IsShareOf, WilderAt, Move;
    AveragesAreMoves(closes);
    WilderInClosedForm(Moves(closes, true), 14, |closes| - 1);
    WilderInClosedForm(Moves(closes, false), 14, |closes| - 1);
    hide Moves, AverageMove;
    RsiIsShare(AverageMove(closes, true), AverageMove(closes, false));
  }

  // The true range.

  /** The true range is the whole span of the bar together with the close before it. */
  lemma TrueRangeIsSpan(high: real, low: real, previous: real)
    requires low <= high
    ensures TrueRange(high, low, previous) == MaxReal(high, previous) - MinReal(low, previous)
  {}

  /** ATR written out: the spans averaged over fourteen bars as Wilder does, in percent of the last close. */
  lemma AtrExactly(highs: seq<real>, lows: seq<real>, closes: seq<real>)
    ensures AtrPct(highs, lows, closes).Some? <==>
      |highs| == |lows| == |closes| && |closes| >= 15 && closes[|closes| - 1] != 0.0
    ensures AtrPct(highs, lows, closes).Some? ==>
      var ranges, n := TrueRanges(highs, lows, closes), |closes| - 1;
      AtrPct(highs, lows, closes).value * closes[n] == 100.0 * ClosedForm(ranges, 1.0 / 14.0, 14, n)
  {
    if AtrPct(highs, lows, closes).Some? {
      AverageRange(highs, lows, closes);
      hide ClosedForm, TrueRanges, AverageTrueRange;
      var average, last := AverageTrueRange(highs, lows, closes), closes[|closes| - 1];
      PercentBack(average, last);
    }
  }

  lemma AverageRange(highs: seq<real>, lows: seq<real>, closes: seq<real>)
    requires |highs| == |lows| == |closes| >= 15
    ensures |TrueRanges(highs, lows, closes)| == |closes| - 1
    ensures AverageTrueRange(highs, lows, closes) == ClosedForm(TrueRanges(highs, lows, closes), 1.0 / 14.0, 14, |closes| - 1)
  {
    hide ClosedForm, WilderAt, TrueRange;
    WilderInClosedForm(TrueRanges(highs, lows, closes), 14, |closes| - 1);
  }

  lemma PercentBack(x: real, y: real)
    requires y != 0.0
    ensures ((x / y) * 100.0) * y == 100.0 * x
  {
    var q := x / y;
    assert q * y == x;
    assert (q * 100.0) * y == 100.0 * (q * y);
  }

  // States.

  /** The moving average over the first `n` closes, in closed form. */
  function Average(values: seq<real>, period: nat, n: nat): real
    requires 0 < period <= n <= |values|
  {
    ClosedForm(values, 2.0 / (period + 1) as real, period, n)
  }

  /** The 20-bar average against the 50-bar one, over the first `n` closes. */
  function Lead(closes: seq<real>, n: nat): real
    requires 50 <= n <= |closes|
  {
    Average(closes, 20, n) - Average(closes, 50, n)
  }

  /**
   * The state of the averages: above when the faster one leads, crossing when the lead began or ended
   * with the last bar, and diverging when the distance has not shrunk.
   */
  lemma EmaStateExactly(closes: seq<real>)
    ensures EmaStateOf(closes).Some? <==> |closes| >= 51
    ensures |closes| >= 51 ==>
      var state, before, now := EmaStateOf(closes).value, Lead(closes, |closes| - 1), Lead(closes, |closes|);
      && (state.Crossing? <==> (before > 0.0) != (now > 0.0))
      && (state.AboveDiverging? <==> before > 0.0 && now > 0.0 && now >= before)
      && (state.AboveConverging? <==> before > 0.0 && now > 0.0 && now < before)
      && (state.BelowDiverging? <==> before <= 0.0 && now <= 0.0 && now <= before)
      && (state.BelowConverging? <==> before <= 0.0 && now <= 0.0 && now > before)
  {
    if |closes| >= 51 {
      EmaInClosedForm(closes, 20, |closes|);
      EmaInClosedForm(closes, 50, |closes|);
      EmaInClosedForm(closes, 20, |closes| - 1);
      EmaInClosedForm(closes, 50, |closes| - 1);
      hide ClosedForm, EmaAt;
    }
  }

  /** The MACD line from bar 26 on: the 12-bar average less the 26-bar one. */
  ghost predicate IsMacdLine(closes: seq<real>, line: seq<real>) {
    && |closes| >= 35 && |line| == |closes| - 25
    && forall i :: 0 <= i < |line| ==> line[i] == Average(closes, 12, 26 + i) - Average(closes, 26, 26 + i)
  }

  /** The line less its own 9-bar average, over the first `n` bars of the line. */
  function Histogram(line: seq<real>, n: nat): real
    requires 9 <= n <= |line|
  {
    line[n - 1] - Average(line, 9, n)
  }

  lemma LineIsMacd(closes: seq<real>)
    requires |closes| >= 35
    ensures IsMacdLine(closes, MacdLine(closes))
  {
    var line := MacdLine(closes);
    forall i | 0 <= i < |line| ensures line[i] == Average(closes, 12, 26 + i) - Average(closes, 26, 26 + i) {
      EmaInClosedForm(closes, 12, 26 + i);
      EmaInClosedForm(closes, 26, 26 + i);
      hide ClosedForm, EmaAt;
    }
  }

  /** The state of MACD: on which side of its signal the line is, and whether it got there with the last bar. */
  lemma MacdStateExactly(closes: seq<real>) returns (line: seq<real>)
    ensures MacdStateOf(closes).Some? <==> |closes| >= 35
    ensures |closes| >= 35 ==> IsMacdLine(closes, line)
    ensures |closes| >= 35 ==>
      var state, before, now := MacdStateOf(closes).value, Histogram(line, |line| - 1), Histogram(line, |line|);
      && (state == BullishCross <==> before <= 0.0 && now > 0.0)
      && (state == MacdState.Bullish <==> before > 0.0 && now > 0.0)
      && (state == BearishCross <==> before >= 0.0 && now < 0.0)
      && (state == MacdState.Bearish <==> before < 0.0 && now < 0.0)
      && (state == MacdState.Neutral <==> now == 0.0)
  {
    hide IsMacdLine, ClosedForm, EmaAt, MacdLine, MacdStateOf, Histogram, StateFromGaps;
    line := [];
    MacdNeeds(closes);
    if |closes| >= 35 {
      line := MacdLine(closes);
      LineIsMacd(closes);
      LineLength(closes);
      MacdReads(closes);
      GapsTell(Histogram(line, |line| - 1), Histogram(line, |line|));
    }
  }

  lemma MacdNeeds(closes: seq<real>)
    ensures MacdStateOf(closes).Some? <==> |closes| >= 35
  {}

  lemma MacdReads(closes: seq<real>)
    requires |closes| >= 35
    ensures |MacdLine(closes)| == |closes| - 25
    ensures MacdStateOf(closes) ==
      Some(StateFromGaps(Histogram(MacdLine(closes), |closes| - 26), Histogram(MacdLine(closes), |closes| - 25)))
  {
    hide ClosedForm, EmaAt, MacdLine, MacdGap, Histogram, StateFromGaps;
    GapIsHistogram(closes, 0);
    GapIsHistogram(closes, 1);
  }

  lemma GapsTell(before: real, now: real)
    ensures var state := StateFromGaps(before, now);
      && (state == BullishCross <==> before <= 0.0 && now > 0.0)
      && (state == MacdState.Bullish <==> before > 0.0 && now > 0.0)
      && (state == BearishCross <==> before >= 0.0 && now < 0.0)
      && (state == MacdState.Bearish <==> before < 0.0 && now < 0.0)
      && (state == MacdState.Neutral <==> now == 0.0)
  {}

  lemma GapIsHistogram(closes: seq<real>, back: nat)
    requires |closes| >= 35 && back <= 1
    ensures |MacdLine(closes)| == |closes| - 25
    ensures MacdGap(closes, back) == Histogram(MacdLine(closes), |closes| - 25 - back)
  {
    var line := MacdLine(closes);
    hide MacdLine, ClosedForm, EmaAt;
    LineLength(closes);
    EmaInClosedForm(line, 9, |line| - back);
  }

  lemma LineLength(closes: seq<real>)
    requires |closes| >= 35
    ensures |MacdLine(closes)| == |closes| - 25
  {}
}
