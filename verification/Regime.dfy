/** The market health index: a renormalised weighted blend of the scores, from 0 to 100. */
module HealthIndex {
  import opened Common
  import opened RealFacts
  import opened Rounding
  import opened Signals

  /** A component without a configured weight never enters the index. */
  datatype MhiWeights = MhiWeights(trend: Option<real>, risk: Option<real>, sentiment: Option<real>, volatility: Option<real>)

  function Weighted(value: Option<real>, weight: Option<real>): seq<Pair> {
    if value.Some? && weight.Some? then [Pair(value.value, weight.value)] else []
  }

  function Calm(atrPct: real): real { 1.0 - Clamp(atrPct / ATR_FULL, 0.0, 1.0) }

  function Components(w: MhiWeights, trend: real, risk: real, sentiment: Option<real>,
                      atrPct: Option<real>): seq<Pair> {
    Weighted(Some((trend + 1.0) / 2.0), w.trend)
    + Weighted(Some(1.0 - risk), w.risk)
    + Weighted(if sentiment.Some? then Some((sentiment.value + 1.0) / 2.0) else None, w.sentiment)
    + Weighted(if atrPct.Some? then Some(Calm(atrPct.value)) else None, w.volatility)
  }

  function Blend(pairs: seq<Pair>): int {
    var total := TotalWeight(pairs);
    if total == 0.0 then 50 else RoundHalfEven(100.0 * Clamp(WeightedSum(pairs) / total, 0.0, 1.0))
  }

  function MarketHealthIndex(w: MhiWeights, trend: real, risk: real, sentiment: Option<real>,
                             atrPct: Option<real>): int {
    Blend(Components(w, trend, risk, sentiment, atrPct))
  }

  /** Whatever the weights and the inputs, the index fits the contract's range. */
  lemma IndexInRange(w: MhiWeights, trend: real, risk: real, sentiment: Option<real>, atrPct: Option<real>)
    ensures 0 <= MarketHealthIndex(w, trend, risk, sentiment, atrPct) <= 100
  {
    var pairs := Components(w, trend, risk, sentiment, atrPct);
    if TotalWeight(pairs) != 0.0 {
      var health := 100.0 * Clamp(WeightedSum(pairs) / TotalWeight(pairs), 0.0, 1.0);
      RoundIsMonotone(0.0, health);
      RoundIsMonotone(health, 100.0);
      RoundOfInteger(0);
      RoundOfInteger(100);
    }
  }

  lemma BlendFollowsDominance(high: seq<Pair>, low: seq<Pair>)
    requires Dominates(high, low) && NonNegative(low)
    ensures Blend(high) >= Blend(low)
  {
    hide TotalWeight, WeightedSum, RoundHalfEven, Dominates, NonNegative;
    SumsFollowDominance(high, low);
    var total := TotalWeight(low);
    if total != 0.0 {
      var better, worse := WeightedSum(high) / total, WeightedSum(low) / total;
      QuotientMonotone(WeightedSum(low), WeightedSum(high), total);
      RoundIsMonotone(100.0 * Clamp(worse, 0.0, 1.0), 100.0 * Clamp(better, 0.0, 1.0));
    }
  }

  ghost predicate NonNegativeWeights(w: MhiWeights) {
    && (w.trend.Some? ==> w.trend.value >= 0.0) && (w.risk.Some? ==> w.risk.value >= 0.0)
    && (w.sentiment.Some? ==> w.sentiment.value >= 0.0) && (w.volatility.Some? ==> w.volatility.value >= 0.0)
  }

  lemma WeightedDominates(high: Option<real>, low: Option<real>, weight: Option<real>)
    requires NoSmaller(high, low) && (weight.Some? ==> weight.value >= 0.0)
    ensures Dominates(Weighted(high, weight), Weighted(low, weight)) && NonNegative(Weighted(low, weight))
  {}

  lemma CalmFalls(atr: real, atr': real)
    requires atr' <= atr
    ensures Calm(atr) <= Calm(atr')
  {}

  lemma ComponentsDominate(w: MhiWeights, trend: real, trend': real, risk: real, risk': real,
                           sentiment: Option<real>, sentiment': Option<real>, atr: Option<real>, atr': Option<real>)
    requires NonNegativeWeights(w)
    requires trend <= trend' && risk' <= risk && NoSmaller(sentiment', sentiment) && NoSmaller(atr, atr')
    ensures Dominates(Components(w, trend', risk', sentiment', atr'), Components(w, trend, risk, sentiment, atr))
    ensures NonNegative(Components(w, trend, risk, sentiment, atr))
  {
    hide Dominates, NonNegative, Weighted, Calm;
    var t, t' := Some((trend + 1.0) / 2.0), Some((trend' + 1.0) / 2.0);
    var r, r' := Some(1.0 - risk), Some(1.0 - risk');
    var s := if sentiment.Some? then Some((sentiment.value + 1.0) / 2.0) else None;
    var s' := if sentiment'.Some? then Some((sentiment'.value + 1.0) / 2.0) else None;
    var c := if atr.Some? then Some(Calm(atr.value)) else None;
    var c' := if atr'.Some? then Some(Calm(atr'.value)) else None;
    if atr.Some? {
      CalmFalls(atr.value, atr'.value);
    }
    WeightedDominates(t', t, w.trend);
    WeightedDominates(r', r, w.risk);
    WeightedDominates(s', s, w.sentiment);
    WeightedDominates(c', c, w.volatility);
    var a, b := Weighted(t, w.trend), Weighted(r, w.risk);
    var a', b' := Weighted(t', w.trend), Weighted(r', w.risk);
    DominanceConcat(a, a', b, b');
    DominanceConcat(a + b, a' + b', Weighted(s, w.sentiment), Weighted(s', w.sentiment));
    DominanceConcat(a + b + Weighted(s, w.sentiment), a' + b' + Weighted(s', w.sentiment),
                    Weighted(c, w.volatility), Weighted(c', w.volatility));
  }

  /**
   * With non-negative weights a healthier market never scores lower: the index, rounding included,
   * does not fall when trend or sentiment rise or when risk or volatility fall.
   */
  lemma IndexIsMonotone(w: MhiWeights, trend: real, trend': real, risk: real, risk': real,
                        sentiment: Option<real>, sentiment': Option<real>, atr: Option<real>, atr': Option<real>)
    requires NonNegativeWeights(w)
    requires trend <= trend' && risk' <= risk && NoSmaller(sentiment', sentiment) && NoSmaller(atr, atr')
    ensures MarketHealthIndex(w, trend, risk, sentiment, atr) <= MarketHealthIndex(w, trend', risk', sentiment', atr')
  {
    hide Components, Dominates, NonNegative, Blend;
    var low, high := Components(w, trend, risk, sentiment, atr), Components(w, trend', risk', sentiment', atr');
    ComponentsDominate(w, trend, trend', risk, risk', sentiment, sentiment', atr, atr');
    BlendFollowsDominance(high, low);
  }
}

/** The global regime, classified from the assets that are sensitive to it and the active events. */
module Regimes {
  import opened Common
  import opened RealFacts
  import opened Folds
  import opened Rounding
  import opened Sorting
  import TextOrder

  datatype RegimeState = RiskOn | RiskOff | Transition | EventDriven

  datatype Sensitivity = High | Medium | Low

  datatype RegimeInput = RegimeInput(symbol: string, trend: real, risk: real, sensitivity: Sensitivity)

  datatype EventFeature = EventFeature(eventId: string, eventType: EventType, surprise: real, proximityHours: real)

  datatype Driver = Driver(name: string, weight: real)

  datatype RegimeResult = RegimeResult(
    state: RegimeState,
    previous: Option<RegimeState>,
    changed: bool,
    confidence: real,
    drivers: seq<Driver>)

  const RISK_HI := 0.6
  const RISK_LO := 0.45
  const TREND_BAND := 0.2
  const MATERIAL_SURPRISE := 0.05
  const EVENT_WINDOW_HOURS := 48.0

  predicate Material(e: EventFeature) {
    Abs(e.proximityHours) <= EVENT_WINDOW_HOURS && Abs(e.surprise) >= MATERIAL_SURPRISE
  }

  /** Weaker or equal surprise, ties by event id. */
  predicate Weaker(a: EventFeature, b: EventFeature) {
    Abs(a.surprise) < Abs(b.surprise) || (Abs(a.surprise) == Abs(b.surprise) && TextOrder.Leq(a.eventId, b.eventId))
  }

  function ActiveEvent(events: seq<EventFeature>): Option<EventFeature> {
    var material := Keep(Material, events);
    if material == [] then None else Some(Best(Weaker, material))
  }

  predicate IsSensitive(a: RegimeInput) { !a.sensitivity.Low? }

  function TrendOf(a: RegimeInput): real { a.trend }

  function RiskOf(a: RegimeInput): real { a.risk }

  predicate Rising(a: RegimeInput) { a.trend >= 0.0 }

  function Average(f: RegimeInput -> real, assets: seq<RegimeInput>): real {
    if assets == [] then 0.0 else SumOf(f, assets) / |assets| as real
  }

  function TrendConcordance(assets: seq<RegimeInput>): real {
    if assets == [] then 0.5
    else
      var rising := CountOf(Rising, assets);
      var agree := if Average(TrendOf, assets) >= 0.0 then rising else |assets| - rising;
      agree as real / |assets| as real
  }

  function StateFrom(trend: real, risk: real): RegimeState {
    if risk >= RISK_HI && trend <= -TREND_BAND then RiskOff
    else if risk <= RISK_LO && trend >= TREND_BAND then RiskOn
    else Transition
  }

  function BoundaryMargin(trend: real, risk: real, state: RegimeState): real {
    match state
    case RiskOff => Clamp(MinReal(risk - RISK_HI, -TREND_BAND - trend) / 0.4, 0.0, 1.0)
    case RiskOn => Clamp(MinReal(RISK_LO - risk, trend - TREND_BAND) / 0.4, 0.0, 1.0)
    case _ =>
      var toOff := MinReal(Abs(risk - RISK_HI), Abs(trend + TREND_BAND));
      var toOn := MinReal(Abs(risk - RISK_LO), Abs(trend - TREND_BAND));
      Clamp(MinReal(toOff, toOn) / 0.3, 0.0, 1.0)
  }

  /** What the sensitive assets contribute. */
  datatype Aggregates = Aggregates(trend: real, risk: real, concordance: real)

  function AggregatesOf(sensitive: seq<RegimeInput>): Aggregates {
    Aggregates(Average(TrendOf, sensitive), Average(RiskOf, sensitive), TrendConcordance(sensitive))
  }

  function EventMargin(event: EventFeature): real {
    Clamp((Abs(event.surprise) - MATERIAL_SURPRISE) / MATERIAL_SURPRISE, 0.0, 1.0)
  }

  function Decide(agg: Aggregates, event: Option<EventFeature>, previous: Option<RegimeState>): RegimeResult {
    var state := if event.Some? then EventDriven else StateFrom(agg.trend, agg.risk);
    var margin := if event.Some? then EventMargin(event.value) else BoundaryMargin(agg.trend, agg.risk, state);
    var drivers :=
      if event.Some? then [Driver("event_" + Token(event.value.eventType), Round4(Clamp(0.4 + 0.4 * margin, 0.0, 1.0)))]
      else [Driver("avg_trend", Round4((agg.trend + 1.0) / 2.0)), Driver("avg_risk", Round4(agg.risk))];
    var confidence := Clamp(0.5 * margin + 0.5 * agg.concordance, 0.0, 1.0);
    RegimeResult(state, previous, Some(state) != previous, Round4(confidence), drivers)
  }

  function Classify(assets: seq<RegimeInput>, events: seq<EventFeature>, previous: Option<RegimeState>): RegimeResult {
    Decide(AggregatesOf(Keep(IsSensitive, assets)), ActiveEvent(events), previous)
  }

  // Order independence.

  lemma WeakerIsTotal()
    ensures TotalPreorder(Weaker)
  {
    forall a, b ensures Weaker(a, b) || Weaker(b, a) {
      TextOrder.Total(a.eventId, b.eventId);
    }
    forall a, b, c | Weaker(a, b) && Weaker(b, c) ensures Weaker(a, c) {
      if Abs(a.surprise) == Abs(b.surprise) == Abs(c.surprise) {
        TextOrder.Transitive(a.eventId, b.eventId, c.eventId);
      }
    }
  }

  ghost predicate DistinctStrength(events: seq<EventFeature>) {
    forall a, b :: a in events && b in events && Abs(a.surprise) == Abs(b.surprise) && a.eventId == b.eventId ==> a == b
  }

  lemma ActiveEventForgetsOrder(a: seq<EventFeature>, b: seq<EventFeature>)
    requires multiset(a) == multiset(b) && DistinctStrength(a)
    ensures ActiveEvent(a) == ActiveEvent(b)
  {
    var ma, mb := Keep(Material, a), Keep(Material, b);
    KeepForgetsOrder(Material, a, b);
    assert |ma| == |multiset(ma)| && |mb| == |multiset(mb)|;
    KeepKept(Material, a);
    if ma != [] {
      StrongestForgetsOrder(ma, mb);
    }
  }

  lemma StrongestForgetsOrder(a: seq<EventFeature>, b: seq<EventFeature>)
    requires a != [] && b != [] && multiset(a) == multiset(b) && DistinctStrength(a)
    ensures Best(Weaker, a) == Best(Weaker, b)
  {
    WeakerIsTotal();
    forall x, y | x in a && y in a && Weaker(x, y) && Weaker(y, x) ensures x == y {
      TextOrder.Antisymmetric(x.eventId, y.eventId);
    }
    BestForgetsOrder(Weaker, a, b);
  }

  /**
   * The regime depends only on which sensitive assets and which events there are: not on the order of
   * either, and not on the assets of low sensitivity at all.
   */
  lemma ClassifyForgetsOrderAndLowSensitivity(a: seq<RegimeInput>, b: seq<RegimeInput>, ea: seq<EventFeature>,
                                              eb: seq<EventFeature>,
                                              previous: Option<RegimeState>)
    requires multiset(Keep(IsSensitive, a)) == multiset(Keep(IsSensitive, b))
    requires multiset(ea) == multiset(eb) && DistinctStrength(ea)
    ensures Classify(a, ea, previous) == Classify(b, eb, previous)
  {
    ActiveEventForgetsOrder(ea, eb);
    AggregatesForgetOrder(Keep(IsSensitive, a), Keep(IsSensitive, b));
  }

  lemma AggregatesForgetOrder(a: seq<RegimeInput>, b: seq<RegimeInput>)
    requires multiset(a) == multiset(b)
    ensures AggregatesOf(a) == AggregatesOf(b)
  {
    assert |a| == |multiset(a)| && |b| == |multiset(b)|;
    SumForgetsOrder(TrendOf, a, b);
    SumForgetsOrder(RiskOf, a, b);
    CountForgetsOrder(Rising, a, b);
  }

  /** Reordering the assets, or dropping the insensitive ones, is such a change. */
  lemma ReorderingAndDroppingAreInvisible(a: seq<RegimeInput>, b: seq<RegimeInput>, events: seq<EventFeature>,
                                          previous: Option<RegimeState>)
    requires multiset(a) == multiset(b) && DistinctStrength(events)
    ensures Classify(a, events, previous) == Classify(b, events, previous) == Classify(Keep(IsSensitive, b), events, previous)
  {
    KeepForgetsOrder(IsSensitive, a, b);
    KeepIsIdempotent(IsSensitive, b);
    ClassifyForgetsOrderAndLowSensitivity(a, b, events, events, previous);
    ClassifyForgetsOrderAndLowSensitivity(b, Keep(IsSensitive, b), events, events, previous);
  }

  // Direction.

  /** From calm to stressed. */
  function Stress(state: RegimeState): nat
    requires !state.EventDriven?
  {
    match state
    case RiskOn => 0
    case Transition => 1
    case RiskOff => 2
  }

  /** The same asset with no higher trend and no lower risk. */
  predicate NoBetterAsset(a: RegimeInput, b: RegimeInput) {
    a.symbol == b.symbol && a.sensitivity == b.sensitivity && a.trend <= b.trend && a.risk >= b.risk
  }

  ghost predicate NoBetter(worse: seq<RegimeInput>, better: seq<RegimeInput>) {
    |worse| == |better| && forall i :: 0 <= i < |better| ==> NoBetterAsset(worse[i], better[i])
  }

  lemma NoBetterCons(a: RegimeInput, b: RegimeInput, worse: seq<RegimeInput>, better: seq<RegimeInput>)
    requires NoBetterAsset(a, b) && NoBetter(worse, better)
    ensures NoBetter([a] + worse, [b] + better)
  {}

  lemma {:induction false} NoBetterKept(worse: seq<RegimeInput>, better: seq<RegimeInput>)
    requires NoBetter(worse, better)
    ensures NoBetter(Keep(IsSensitive, worse), Keep(IsSensitive, better))
  {
    if worse != [] {
      assert NoBetterAsset(worse[0], better[0]) && NoBetter(worse[1..], better[1..]);
      NoBetterKept(worse[1..], better[1..]);
      hide NoBetter;
      NoBetterCons(worse[0], better[0], Keep(IsSensitive, worse[1..]), Keep(IsSensitive, better[1..]));
    }
  }

  lemma {:induction false} NoBetterSums(worse: seq<RegimeInput>, better: seq<RegimeInput>)
    requires NoBetter(worse, better)
    ensures SumOf(TrendOf, worse) <= SumOf(TrendOf, better) && SumOf(RiskOf, worse) >= SumOf(RiskOf, better)
  {
    if worse != [] {
      assert NoBetterAsset(worse[0], better[0]);
      NoBetterSums(worse[1..], better[1..]);
    }
  }

  lemma NoBetterAverages(worse: seq<RegimeInput>, better: seq<RegimeInput>)
    requires NoBetter(worse, better)
    ensures Average(TrendOf, worse) <= Average(TrendOf, better) && Average(RiskOf, worse) >= Average(RiskOf, better)
  {
    NoBetterSums(worse, better);
    if worse != [] {
      var n := |worse| as real;
      QuotientMonotone(SumOf(TrendOf, worse), SumOf(TrendOf, better), n);
      QuotientMonotone(SumOf(RiskOf, better), SumOf(RiskOf, worse), n);
    }
  }

  /**
   * Without an active event the regime follows the market: when every trend falls or stays and every
   * risk rises or stays, the regime moves towards risk-off or stays.
   */
  lemma RegimeFollowsMarket(worse: seq<RegimeInput>, better: seq<RegimeInput>, events: seq<EventFeature>,
                            previous: Option<RegimeState>)
    requires NoBetter(worse, better) && ActiveEvent(events).None?
    ensures var w, b := Classify(worse, events, previous).state, Classify(better, events, previous).state;
      !w.EventDriven? && !b.EventDriven? && Stress(w) >= Stress(b)
  {
    hide BoundaryMargin, TrendConcordance, Average, Round4;
    NoBetterKept(worse, better);
    NoBetterAverages(Keep(IsSensitive, worse), Keep(IsSensitive, better));
  }

  // Contract ranges.

  ghost predicate InRange(assets: seq<RegimeInput>) {
    forall i :: 0 <= i < |assets| ==> -1.0 <= assets[i].trend <= 1.0 && 0.0 <= assets[i].risk <= 1.0
  }

  lemma AverageInRange(f: RegimeInput -> real, assets: seq<RegimeInput>, low: real, high: real)
    requires low <= 0.0 <= high && forall i :: 0 <= i < |assets| ==> low <= f(assets[i]) <= high
    ensures low <= Average(f, assets) <= high
  {
    if assets != [] {
      SumOfBounds(f, assets, low, high);
      QuotientBounds(SumOf(f, assets), |assets| as real, low, high);
    }
  }

  lemma ConcordanceInRange(assets: seq<RegimeInput>)
    ensures 0.0 <= TrendConcordance(assets) <= 1.0
  {
    if assets != [] {
      var rising := CountOf(Rising, assets);
      QuotientBounds(rising as real, |assets| as real, 0.0, 1.0);
      QuotientBounds((|assets| - rising) as real, |assets| as real, 0.0, 1.0);
    }
  }

  lemma DecisionInRange(agg: Aggregates, event: Option<EventFeature>, previous: Option<RegimeState>)
    requires -1.0 <= agg.trend <= 1.0 && 0.0 <= agg.risk <= 1.0 && 0.0 <= agg.concordance <= 1.0
    ensures var r := Decide(agg, event, previous);
      && 0.0 <= r.confidence <= 1.0
      && (forall i :: 0 <= i < |r.drivers| ==> 0.0 <= r.drivers[i].weight <= 1.0)
      && (r.changed <==> r.previous != Some(r.state))
      && (r.state.EventDriven? <==> event.Some?)
  {
    var margin := if event.Some? then EventMargin(event.value)
                  else BoundaryMargin(agg.trend, agg.risk, StateFrom(agg.trend, agg.risk));
    Round4StaysWithin(Clamp(0.5 * margin + 0.5 * agg.concordance, 0.0, 1.0), 0, 1);
    Round4StaysWithin(Clamp(0.4 + 0.4 * margin, 0.0, 1.0), 0, 1);
    Round4StaysWithin((agg.trend + 1.0) / 2.0, 0, 1);
    Round4StaysWithin(agg.risk, 0, 1);
  }

  lemma AggregatesInRange(sensitive: seq<RegimeInput>)
    requires InRange(sensitive)
    ensures var agg := AggregatesOf(sensitive);
      -1.0 <= agg.trend <= 1.0 && 0.0 <= agg.risk <= 1.0 && 0.0 <= agg.concordance <= 1.0
  {
    AverageInRange(TrendOf, sensitive, -1.0, 1.0);
    AverageInRange(RiskOf, sensitive, 0.0, 1.0);
    ConcordanceInRange(sensitive);
  }

  /**
   * Confidence and every driver weight fit the contract's unit range, so a run never fails its own
   * model validation on them; the change flag agrees with the states it compares; and the state is
   * event-driven exactly when some event is both recent and surprising enough.
   */
  lemma ClassifyFitsContract(assets: seq<RegimeInput>, events: seq<EventFeature>, previous: Option<RegimeState>)
    requires InRange(assets)
    ensures var r := Classify(assets, events, previous);
      && 0.0 <= r.confidence <= 1.0
      && (forall i :: 0 <= i < |r.drivers| ==> 0.0 <= r.drivers[i].weight <= 1.0)
      && (r.changed <==> r.previous != Some(r.state))
      && (r.state.EventDriven? <==> exists e :: e in events && Material(e))
  {
    var sensitive := Keep(IsSensitive, assets);
    KeepKept(IsSensitive, assets);
    assert InRange(sensitive) by {
      forall i | 0 <= i < |sensitive| ensures -1.0 <= sensitive[i].trend <= 1.0 && 0.0 <= sensitive[i].risk <= 1.0 {
        assert sensitive[i] in assets;
      }
    }
    AggregatesInRange(sensitive);
    DecisionInRange(AggregatesOf(sensitive), ActiveEvent(events), previous);
    SomeActive(events);
  }

  lemma SomeActive(events: seq<EventFeature>)
    ensures ActiveEvent(events).Some? <==> exists e :: e in events && Material(e)
  {
    var material := Keep(Material, events);
    KeepKept(Material, events);
    if material != [] {
      assert material[0] in material;
    }
    if e :| e in events && Material(e) {
      assert e in material;
    }
  }
}
