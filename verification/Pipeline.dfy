/** The published run document, as far as guardrails and replay fingerprints look at it. */
module RunModel {
  import opened Common
  import opened Signals
  import Regimes
  import Conflict

  datatype Scores = Scores(trend: real, risk: real, sentiment: Option<real>, confidence: real)

  datatype RuleActivation = RuleActivation(ruleId: string, strength: Conflict.Strength, horizon: string, decayRemaining: real)

  datatype CausalLink = CausalLink(cause: string, asset: string, direction: Conflict.Direction, viaRule: string)

  datatype Asset = Asset(
    symbol: string,
    indicators: Option<Indicators>,
    scores: Scores,
    healthIndex: int,
    activatedRules: seq<RuleActivation>,
    causalLinks: seq<CausalLink>,
    summary: Option<string>,
    noveltyFlags: Option<seq<string>>)

  datatype Severity = Info | Warning | Critical

  datatype Code =
    | DegradedRun | SentimentDegraded | SynthesisDegraded | RuleConflict
    | DegradedSentimentPresent | DegradedSummaryPresent | DanglingCausalLink
    | TrendIndicatorContradiction | RegimeChangeFlagInconsistent

  /** What part of the run a flag points at. */
  datatype Place =
    | WholeRun | AtRegimeChange | OnSymbol(symbol: string)
    | AtSentiment(asset: nat) | AtSummary(asset: nat) | AtTrend(asset: nat) | AtLink(asset: nat, link: nat)

  datatype Flag = Flag(code: Code, severity: Severity, place: Place)

  datatype Run = Run(
    runId: string,
    sequence: nat,
    isDegraded: bool,
    regime: Regimes.RegimeResult,
    assets: seq<Asset>,
    flags: seq<Flag>)
}

/** Deterministic checks of an assembled run, and the decision to publish it. */
module Guardrails {
  import opened Common
  import opened Signals
  import opened RunModel
  import Regimes

  predicate HasCode(flags: seq<Flag>, code: Code) {
    exists i :: 0 <= i < |flags| && flags[i].code == code
  }

  /** Without a flag that says which job failed, a degraded run counts as both having failed. */
  predicate JobFailed(run: Run, code: Code) {
    || HasCode(run.flags, code)
    || (run.isDegraded && !HasCode(run.flags, SentimentDegraded) && !HasCode(run.flags, SynthesisDegraded))
  }

  // Each check as the findings of the first `n` assets.

  function HonestyFindings(run: Run, n: nat): seq<Flag>
    requires n <= |run.assets|
  {
    if n == 0 then []
    else
      var a := run.assets[n - 1];
      HonestyFindings(run, n - 1)
      + (if JobFailed(run, SentimentDegraded) && a.scores.sentiment.Some?
         then [Flag(DegradedSentimentPresent, Critical, AtSentiment(n - 1))] else [])
      + (if JobFailed(run, SynthesisDegraded) && a.summary.Some?
         then [Flag(DegradedSummaryPresent, Critical, AtSummary(n - 1))] else [])
  }

  predicate Activated(run: Run, ruleId: string) {
    exists i, k :: 0 <= i < |run.assets| && 0 <= k < |run.assets[i].activatedRules|
      && run.assets[i].activatedRules[k].ruleId == ruleId
  }

  function DanglingLinks(run: Run, i: nat, n: nat): seq<Flag>
    requires i < |run.assets| && n <= |run.assets[i].causalLinks|
  {
    if n == 0 then []
    else
      DanglingLinks(run, i, n - 1)
      + if Activated(run, run.assets[i].causalLinks[n - 1].viaRule) then []
        else [Flag(DanglingCausalLink, Critical, AtLink(i, n - 1))]
  }

  function LinkFindings(run: Run, n: nat): seq<Flag>
    requires n <= |run.assets|
  {
    if n == 0 then [] else LinkFindings(run, n - 1) + DanglingLinks(run, n - 1, |run.assets[n - 1].causalLinks|)
  }

  /** Whether MACD and the moving averages agree: bullish, bearish, or no verdict. */
  function Bullishness(ind: Indicators): Option<bool> {
    if ind.macd.None? || ind.ema.None? then None
    else
      var macd, ema := ind.macd.value, ind.ema.value;
      if (macd.Bullish? || macd.BullishCross?) && (ema.AboveDiverging? || ema.AboveConverging?) then Some(true)
      else if (macd.Bearish? || macd.BearishCross?) && (ema.BelowDiverging? || ema.BelowConverging?) then Some(false)
      else None
  }

  predicate Contradicts(a: Asset) {
    && a.indicators.Some?
    && match Bullishness(a.indicators.value)
       case None => false
       case Some(bullish) => if bullish then a.scores.trend <= -0.5 else a.scores.trend >= 0.5
  }

  function TrendFindings(run: Run, n: nat): seq<Flag>
    requires n <= |run.assets|
  {
    if n == 0 then []
    else
      TrendFindings(run, n - 1)
      + if Contradicts(run.assets[n - 1]) then [Flag(TrendIndicatorContradiction, Warning, AtTrend(n - 1))] else []
  }

  function RegimeFindings(run: Run): seq<Flag> {
    if run.regime.changed != (Some(run.regime.state) != run.regime.previous)
    then [Flag(RegimeChangeFlagInconsistent, Warning, AtRegimeChange)]
    else []
  }

  function Findings(run: Run): seq<Flag> {
    HonestyFindings(run, |run.assets|) + LinkFindings(run, |run.assets|) + TrendFindings(run, |run.assets|) + RegimeFindings(run)
  }

  predicate AnyCritical(findings: seq<Flag>) {
    exists i :: 0 <= i < |findings| && findings[i].severity.Critical?
  }

  method CheckDegradedHonesty(run: Run) returns (findings: seq<Flag>)
    ensures findings == HonestyFindings(run, |run.assets|)
  {
    findings := [];
    var sentimentFailed, synthesisFailed := JobFailed(run, SentimentDegraded), JobFailed(run, SynthesisDegraded);
    for i := 0 to |run.assets|
      invariant findings == HonestyFindings(run, i)
    {
      if sentimentFailed && run.assets[i].scores.sentiment.Some? {
        findings := findings + [Flag(DegradedSentimentPresent, Critical, AtSentiment(i))];
      }
      if synthesisFailed && run.assets[i].summary.Some? {
        findings := findings + [Flag(DegradedSummaryPresent, Critical, AtSummary(i))];
      }
    }
  }

  method CheckCausalLinks(run: Run) returns (findings: seq<Flag>)
    ensures findings == LinkFindings(run, |run.assets|)
  {
    findings := [];
    for i := 0 to |run.assets|
      invariant findings == LinkFindings(run, i)
    {
      ghost var before := findings;
      for j := 0 to |run.assets[i].causalLinks|
        invariant findings == before + DanglingLinks(run, i, j)
      {
        if !Activated(run, run.assets[i].causalLinks[j].viaRule) {
          findings := findings + [Flag(DanglingCausalLink, Critical, AtLink(i, j))];
        }
      }
    }
  }

  method CheckTrend(run: Run) returns (findings: seq<Flag>)
    ensures findings == TrendFindings(run, |run.assets|)
  {
    findings := [];
    for i := 0 to |run.assets|
      invariant findings == TrendFindings(run, i)
    {
      if Contradicts(run.assets[i]) {
        findings := findings + [Flag(TrendIndicatorContradiction, Warning, AtTrend(i))];
      }
    }
  }

  method Validate(run: Run) returns (flags: seq<Flag>, publish: bool)
    ensures flags == run.flags + Findings(run)
    ensures publish == !AnyCritical(Findings(run))
  {
    var honesty := CheckDegradedHonesty(run);
    var links := CheckCausalLinks(run);
    var trend := CheckTrend(run);
    var findings := honesty + links + trend + RegimeFindings(run);
    flags := run.flags + findings;
    publish := !AnyCritical(findings);
  }

  // When a check is silent.

  lemma {:induction false} HonestyIsSilent(run: Run, n: nat)
    requires n <= |run.assets|
    ensures HonestyFindings(run, n) == [] <==>
      forall i :: 0 <= i < n ==>
        && (JobFailed(run, SentimentDegraded) ==> run.assets[i].scores.sentiment.None?)
        && (JobFailed(run, SynthesisDegraded) ==> run.assets[i].summary.None?)
  {
    if n > 0 {
      HonestyIsSilent(run, n - 1);
    }
  }

  lemma {:induction false} DanglingIsSilent(run: Run, i: nat, n: nat)
    requires i < |run.assets| && n <= |run.assets[i].causalLinks|
    ensures DanglingLinks(run, i, n) == [] <==> forall j :: 0 <= j < n ==> Activated(run, run.assets[i].causalLinks[j].viaRule)
  {
    if n > 0 {
      DanglingIsSilent(run, i, n - 1);
    }
  }

  ghost predicate LinksResolve(run: Run, i: nat)
    requires i < |run.assets|
  {
    forall j :: 0 <= j < |run.assets[i].causalLinks| ==> Activated(run, run.assets[i].causalLinks[j].viaRule)
  }

  lemma {:induction false} LinksAreSilent(run: Run, n: nat)
    requires n <= |run.assets|
    ensures LinkFindings(run, n) == [] <==> forall i :: 0 <= i < n ==> LinksResolve(run, i)
  {
    if n > 0 {
      LinksAreSilent(run, n - 1);
      DanglingIsSilent(run, n - 1, |run.assets[n - 1].causalLinks|);
      assert LinksResolve(run, n - 1) <==> DanglingLinks(run, n - 1, |run.assets[n - 1].causalLinks|) == [];
    }
  }

  lemma {:induction false} TrendIsSilent(run: Run, n: nat)
    requires n <= |run.assets|
    ensures TrendFindings(run, n) == [] <==> forall i :: 0 <= i < n ==> !Contradicts(run.assets[i])
  {
    if n > 0 {
      TrendIsSilent(run, n - 1);
    }
  }

  /** What the guardrails demand of a run: it produces no finding exactly when all of this holds. */
  lemma FindingsAreSilent(run: Run)
    ensures Findings(run) == [] <==>
      && (forall i :: 0 <= i < |run.assets| ==>
            && (JobFailed(run, SentimentDegraded) ==> run.assets[i].scores.sentiment.None?)
            && (JobFailed(run, SynthesisDegraded) ==> run.assets[i].summary.None?))
      && (forall i :: 0 <= i < |run.assets| ==> LinksResolve(run, i))
      && (forall i :: 0 <= i < |run.assets| ==> !Contradicts(run.assets[i]))
      && (run.regime.changed <==> Some(run.regime.state) != run.regime.previous)
  {
    HonestyIsSilent(run, |run.assets|);
    LinksAreSilent(run, |run.assets|);
    TrendIsSilent(run, |run.assets|);
  }
}

/** Scoring, rule matching, assembly, the two LLM jobs and the guardrails, in the pipeline's order. */
module Orchestrator {
  import opened Common
  import opened Rounding
  import opened Signals
  import opened HealthIndex
  import opened Regimes
  import opened RuleEngine
  import opened RunModel
  import Conflict
  import Guardrails

  datatype AssetClass = Crypto | Metal | Energy | Fx | Index

  datatype AssetCfg = AssetCfg(symbol: string, assetClass: AssetClass, sensitivity: Sensitivity)

  datatype Config = Config(assets: seq<AssetCfg>, weights: MhiWeights)

  datatype FeatureSet = FeatureSet(perAsset: map<string, AssetFeatures>, events: seq<EventFeature>)

  datatype Context = Context(runId: string, sequence: nat, previous: Option<RegimeState>)

  // Scoring.

  function ExpectedSignals(c: AssetClass): nat { if c.Index? then 2 else 5 }

  datatype Scored = Scored(scores: Scores, healthIndex: int)

  /** The event nearest in time, by absolute distance; the first of the nearest. */
  function Nearest(events: seq<EventFeature>): Option<real> {
    if events == [] then None
    else
      var before, last := Nearest(events[..|events| - 1]), events[|events| - 1].proximityHours;
      if before.Some? && Abs(before.value) <= Abs(last) then before else Some(last)
  }

  function SentimentOn(sentiment: Option<map<string, real>>, symbol: string): Option<real> {
    if sentiment.Some? && symbol in sentiment.value then Some(sentiment.value[symbol]) else None
  }

  function ScoreAsset(cfg: Config, a: AssetCfg, f: AssetFeatures, proximity: Option<real>,
                      sentiment: Option<real>): Scored {
    var trend, risk := TrendScore(f), RiskScore(f, proximity);
    Scored(
      Scores(Round4(trend), Round4(risk), if sentiment.Some? then Some(Round4(sentiment.value)) else None,
             Round4(SystemConfidence(f, ExpectedSignals(a.assetClass)))),
      MarketHealthIndex(cfg.weights, trend, risk, sentiment, f.indicators.atrPct))
  }

  datatype Scoring = Scoring(perAsset: map<string, Scored>, inputs: seq<RegimeInput>)

  /** Scores of the first `n` configured assets that have features. */
  function ScoreFirst(cfg: Config, fs: FeatureSet, sentiment: Option<map<string, real>>, n: nat): Scoring
    requires n <= |cfg.assets|
  {
    if n == 0 then Scoring(map[], [])
    else
      var before := ScoreFirst(cfg, fs, sentiment, n - 1);
      var a := cfg.assets[n - 1];
      if a.symbol !in fs.perAsset then before
      else
        var f := fs.perAsset[a.symbol];
        Scoring(
          before.perAsset[a.symbol := ScoreAsset(cfg, a, f, Nearest(fs.events), SentimentOn(sentiment, a.symbol))],
          before.inputs + [RegimeInput(a.symbol, TrendScore(f), RiskScore(f, Nearest(fs.events)), a.sensitivity)])
  }

  method Score(cfg: Config, fs: FeatureSet, previous: Option<RegimeState>, sentiment: Option<map<string, real>>)
    returns (perAsset: map<string, Scored>, regime: RegimeResult)
    ensures perAsset == ScoreFirst(cfg, fs, sentiment, |cfg.assets|).perAsset
    ensures regime == Classify(ScoreFirst(cfg, fs, sentiment, |cfg.assets|).inputs, fs.events, previous)
  {
    hide ScoreAsset, TrendScore, RiskScore, Classify, Nearest, SentimentOn;
    perAsset := map[];
    var inputs: seq<RegimeInput> := [];
    var proximity := Nearest(fs.events);
    for i := 0 to |cfg.assets|
      invariant Scoring(perAsset, inputs) == ScoreFirst(cfg, fs, sentiment, i)
    {
      var a := cfg.assets[i];
      if a.symbol in fs.perAsset {
        var f := fs.perAsset[a.symbol];
        perAsset := perAsset[a.symbol := ScoreAsset(cfg, a, f, proximity, SentimentOn(sentiment, a.symbol))];
        inputs := inputs + [RegimeInput(a.symbol, TrendScore(f), RiskScore(f, proximity), a.sensitivity)];
      }
    }
    regime := Classify(inputs, fs.events, previous);
  }

  // Assembly.

  function ToRuleActivations(acts: seq<Activation>): seq<RuleActivation> {
    if acts == [] then []
    else [RuleActivation(acts[0].ruleId, acts[0].strength, acts[0].horizon, acts[0].decayRemaining)] + ToRuleActivations(acts[1..])
  }

  /** Neutral activations carry no causal link. */
  function ToCausalLinks(acts: seq<Activation>, symbol: string): seq<CausalLink> {
    if acts == [] then []
    else
      var a := acts[0];
      var cause := if a.eventId.Some? then a.eventId.value else a.ruleId;
      (if a.direction.Neutral? then [] else [CausalLink(cause, symbol, a.direction, a.ruleId)]) + ToCausalLinks(acts[1..], symbol)
  }

  function PublishedIndicators(ind: Indicators): Option<Indicators> {
    if ind == Indicators(None, None, None, None, None) then None else Some(ind)
  }

  function AssembleAsset(symbol: string, f: AssetFeatures, scored: Scored, acts: seq<Activation>): Asset {
    Asset(symbol, PublishedIndicators(f.indicators), scored.scores.(sentiment := None), scored.healthIndex,
          ToRuleActivations(acts), ToCausalLinks(acts, symbol), None, None)
  }

  function AssembleAssets(assets: seq<AssetCfg>, fs: FeatureSet, perAsset: map<string, Scored>,
                          activations: map<string, seq<Activation>>)
    : seq<Asset>
  {
    if assets == [] then []
    else
      var symbol := assets[0].symbol;
      (if symbol in perAsset && symbol in fs.perAsset
       then [AssembleAsset(symbol, fs.perAsset[symbol], perAsset[symbol], if symbol in activations then activations[symbol] else [])]
       else [])
      + AssembleAssets(assets[1..], fs, perAsset, activations)
  }

  function ConflictFlags(assets: seq<string>): seq<Flag> {
    if assets == [] then [] else [Flag(RuleConflict, Warning, OnSymbol(assets[0]))] + ConflictFlags(assets[1..])
  }

  const DEGRADED := Flag(DegradedRun, Warning, WholeRun)

  /** The deterministic run, in degraded shape, with whatever the guardrails add to it. */
  function Assemble(ctx: Context, regime: RegimeResult, assets: seq<Asset>, conflicts: seq<string>): Run {
    var run := Run(ctx.runId, ctx.sequence, true, regime, assets, [DEGRADED] + ConflictFlags(conflicts));
    run.(flags := run.flags + Guardrails.Findings(run))
  }

  // Composition with the LLM output.

  datatype SynthesisAsset = SynthesisAsset(summary: string, noveltyFlags: seq<string>)

  type Synthesis = map<string, SynthesisAsset>

  function ComposeAsset(a: Asset, sentiment: Option<map<string, real>>, synthesis: Option<Synthesis>): Asset {
    var felt := SentimentOn(sentiment, a.symbol);
    var scored := if felt.Some? then a.(scores := a.scores.(sentiment := felt)) else a;
    if synthesis.Some? && a.symbol in synthesis.value
    then scored.(summary := Some(synthesis.value[a.symbol].summary), noveltyFlags := Some(synthesis.value[a.symbol].noveltyFlags))
    else scored
  }

  function ComposeAssets(assets: seq<Asset>, sentiment: Option<map<string, real>>,
                         synthesis: Option<Synthesis>): seq<Asset> {
    if assets == [] then []
    else ComposeAssets(assets[..|assets| - 1], sentiment, synthesis) + [ComposeAsset(assets[|assets| - 1], sentiment, synthesis)]
  }

  function WithoutCode(flags: seq<Flag>, code: Code): seq<Flag> {
    if flags == [] then []
    else (if flags[0].code != code then [flags[0]] else []) + WithoutCode(flags[1..], code)
  }

  function DegradationFlags(sentimentFailed: bool, synthesisFailed: bool): seq<Flag> {
    (if sentimentFailed || synthesisFailed then [DEGRADED] else [])
    + (if sentimentFailed then [Flag(SentimentDegraded, Warning, WholeRun)] else [])
    + (if synthesisFailed then [Flag(SynthesisDegraded, Warning, WholeRun)] else [])
  }

  function Compose(base: Run, sentiment: Option<map<string, real>>, synthesis: Option<Synthesis>,
                   sentimentFailed: bool, synthesisFailed: bool): Run {
    base.(
      assets := ComposeAssets(base.assets, sentiment, synthesis),
      isDegraded := sentimentFailed || synthesisFailed,
      flags := WithoutCode(base.flags, DegradedRun) + DegradationFlags(sentimentFailed, synthesisFailed))
  }

  method ComposeRun(base: Run, sentiment: Option<map<string, real>>, synthesis: Option<Synthesis>,
                    sentimentFailed: bool, synthesisFailed: bool) returns (run: Run)
    ensures run == Compose(base, sentiment, synthesis, sentimentFailed, synthesisFailed)
  {
    hide WithoutCode, ComposeAsset;
    var assets: seq<Asset> := [];
    for i := 0 to |base.assets|
      invariant assets == ComposeAssets(base.assets[..i], sentiment, synthesis)
    {
      assert base.assets[..i + 1][..i] == base.assets[..i];
      assets := assets + [ComposeAsset(base.assets[i], sentiment, synthesis)];
    }
    assert base.assets[..|base.assets|] == base.assets;
    var flags := WithoutCode(base.flags, DegradedRun);
    if sentimentFailed || synthesisFailed {
      flags := flags + [DEGRADED];
    }
    if sentimentFailed {
      flags := flags + [Flag(SentimentDegraded, Warning, WholeRun)];
    }
    if synthesisFailed {
      flags := flags + [Flag(SynthesisDegraded, Warning, WholeRun)];
    }
    run := base.(assets := assets, isDegraded := sentimentFailed || synthesisFailed, flags := flags);
  }

  // One run.

  /**
   * What the reasoner answers in one run: None is a degraded job. A sentiment answer can only be
   * given when there is evidence, and counts only for the assets the evidence is about.
   */
  datatype Reasoner = Reasoner(sentiment: Option<map<string, real>>, synthesis: Option<Synthesis>)

  function HeardSentiment(evidence: seq<string>, r: Reasoner): Option<map<string, real>> {
    if evidence == [] || r.sentiment.None? then None
    else Some(map symbol | symbol in r.sentiment.value && symbol in evidence :: r.sentiment.value[symbol])
  }

  datatype PipelineResult = PipelineResult(run: Run, isDegraded: bool, published: bool)

  /** The deterministic run, before synthesis. */
  function BaseRun(cfg: Config, book: Rulebook, ctx: Context, fs: FeatureSet,
                   sentiment: Option<map<string, real>>): Run {
    var scoring := ScoreFirst(cfg, fs, sentiment, |cfg.assets|);
    var regime := Classify(scoring.inputs, fs.events, ctx.previous);
    var matched := MatchRules(book, fs.events, Some(regime.state));
    Assemble(ctx, regime, AssembleAssets(cfg.assets, fs, scoring.perAsset, matched.activations), matched.conflicts)
  }

  function RunPipeline(cfg: Config, book: Rulebook, ctx: Context, fs: FeatureSet, evidence: seq<string>,
                       r: Reasoner): PipelineResult {
    var sentiment := HeardSentiment(evidence, r);
    var sentimentFailed := evidence != [] && sentiment.None?;
    var base := BaseRun(cfg, book, ctx, fs, sentiment);
    var composed := Compose(base, sentiment, r.synthesis, sentimentFailed, r.synthesis.None?);
    var findings := Guardrails.Findings(composed);
    var run := composed.(flags := composed.flags + findings);
    PipelineResult(run, run.isDegraded, !Guardrails.AnyCritical(findings))
  }

  method RunOnce(cfg: Config, book: Rulebook, ctx: Context, fs: FeatureSet, evidence: seq<string>, r: Reasoner)
    returns (result: PipelineResult)
    ensures result == RunPipeline(cfg, book, ctx, fs, evidence, r)
  {
    var sentiment := HeardSentiment(evidence, r);
    var sentimentFailed := evidence != [] && sentiment.None?;
    var perAsset, regime := Score(cfg, fs, ctx.previous, sentiment);
    var matched := Match(book, fs.events, Some(regime.state));
    var base := Run(ctx.runId, ctx.sequence, true, regime,
                    AssembleAssets(cfg.assets, fs, perAsset, matched.activations),
                    [DEGRADED] + ConflictFlags(matched.conflicts));
    var baseFlags, _ := Guardrails.Validate(base);
    base := base.(flags := baseFlags);
    var run := ComposeRun(base, sentiment, r.synthesis, sentimentFailed, r.synthesis.None?);
    var flags, publish := Guardrails.Validate(run);
    run := run.(flags := flags);
    result := PipelineResult(run, run.isDegraded, publish);
  }
}

/** No run this pipeline builds can trip a guardrail, so every completed run is published. */
module Publication {
  import opened Common
  import opened Rounding
  import opened Signals
  import opened Regimes
  import opened RuleEngine
  import opened RunModel
  import opened Orchestrator
  import opened Guardrails
  import Conflict
  import HealthIndex

  predicate Mentions(activated: seq<RuleActivation>, ruleId: string) {
    exists k :: 0 <= k < |activated| && activated[k].ruleId == ruleId
  }

  /** What assembly guarantees of an asset, and composition keeps. */
  ghost predicate Sound(a: Asset) {
    && !Contradicts(a)
    && forall j :: 0 <= j < |a.causalLinks| ==> Mentions(a.activatedRules, a.causalLinks[j].viaRule)
  }

  predicate Silent(a: Asset) { a.scores.sentiment.None? && a.summary.None? }

  ghost predicate AllSound(assets: seq<Asset>) {
    forall i :: 0 <= i < |assets| ==> Sound(assets[i])
  }

  ghost predicate AllSilent(assets: seq<Asset>) {
    forall i :: 0 <= i < |assets| ==> Silent(assets[i])
  }

  lemma MentionsCons(first: RuleActivation, rest: seq<RuleActivation>, ruleId: string)
    ensures Mentions([first] + rest, ruleId) <==> first.ruleId == ruleId || Mentions(rest, ruleId)
  {
    var all := [first] + rest;
    assert all[0] == first;
    if Mentions(rest, ruleId) {
      var k :| 0 <= k < |rest| && rest[k].ruleId == ruleId;
      assert all[k + 1].ruleId == ruleId;
    }
    if Mentions(all, ruleId) && first.ruleId != ruleId {
      var k :| 0 <= k < |all| && all[k].ruleId == ruleId;
      assert rest[k - 1].ruleId == ruleId;
    }
  }

  lemma {:induction false} LinksFollowActivations(acts: seq<Activation>, symbol: string)
    ensures forall j :: 0 <= j < |ToCausalLinks(acts, symbol)| ==>
      Mentions(ToRuleActivations(acts), ToCausalLinks(acts, symbol)[j].viaRule)
  {
    if acts != [] {
      LinksFollowActivations(acts[1..], symbol);
      var links, rest := ToCausalLinks(acts, symbol), ToCausalLinks(acts[1..], symbol);
      var activated := ToRuleActivations(acts);
      assert activated == [activated[0]] + ToRuleActivations(acts[1..]);
      forall j | 0 <= j < |links| ensures Mentions(activated, links[j].viaRule) {
        MentionsCons(activated[0], ToRuleActivations(acts[1..]), links[j].viaRule);
        if |links| == |rest| {
          assert links[j] == rest[j];
        } else if j > 0 {
          assert links[j] == rest[j - 1];
        }
      }
    }
  }

  /** The published trend is too close to its indicators to contradict them. */
  lemma RoundedTrendNeverContradicts(a: Asset, f: AssetFeatures)
    requires a.indicators == PublishedIndicators(f.indicators) && a.scores.trend == Round4(TrendScore(f))
    ensures !Contradicts(a)
  {
    AgreeingIndicatorsBoundTrend(f);
    Round4IsClose(TrendScore(f));
  }

  lemma AssembledAssetIsSound(symbol: string, f: AssetFeatures, scored: Scored, acts: seq<Activation>)
    requires scored.scores.trend == Round4(TrendScore(f))
    ensures Sound(AssembleAsset(symbol, f, scored, acts)) && Silent(AssembleAsset(symbol, f, scored, acts))
  {
    RoundedTrendNeverContradicts(AssembleAsset(symbol, f, scored, acts), f);
    LinksFollowActivations(acts, symbol);
  }

  /** Every scored asset has features, and its trend is the rounded trend of those. */
  ghost predicate TrendsMatch(fs: FeatureSet, perAsset: map<string, Scored>) {
    forall symbol :: symbol in perAsset ==>
      symbol in fs.perAsset && perAsset[symbol].scores.trend == Round4(TrendScore(fs.perAsset[symbol]))
  }

  lemma {:induction false} ScoredTrendsMatch(cfg: Config, fs: FeatureSet, sentiment: Option<map<string, real>>, n: nat)
    requires n <= |cfg.assets|
    ensures TrendsMatch(fs, ScoreFirst(cfg, fs, sentiment, n).perAsset)
  {
    if n > 0 {
      ScoredTrendsMatch(cfg, fs, sentiment, n - 1);
    }
  }

  lemma {:induction false} AssembledAssetsAreSound(assets: seq<AssetCfg>, fs: FeatureSet, perAsset: map<string, Scored>,
                                                   activations: map<string, seq<Activation>>)
    requires TrendsMatch(fs, perAsset)
    ensures AllSound(AssembleAssets(assets, fs, perAsset, activations))
    ensures AllSilent(AssembleAssets(assets, fs, perAsset, activations))
  {
    hide Sound, Silent, AssembleAsset;
    if assets != [] {
      AssembledAssetsAreSound(assets[1..], fs, perAsset, activations);
      var symbol := assets[0].symbol;
      if symbol in perAsset {
        AssembledAssetIsSound(symbol, fs.perAsset[symbol], perAsset[symbol],
                              if symbol in activations then activations[symbol] else []);
      }
    }
  }

  lemma {:induction false} ComposeKeepsSound(assets: seq<Asset>, sentiment: Option<map<string, real>>,
                                             synthesis: Option<Synthesis>)
    requires AllSound(assets) && AllSilent(assets)
    ensures var composed := ComposeAssets(assets, sentiment, synthesis);
      && AllSound(composed)
      && (sentiment.None? ==> forall i :: 0 <= i < |composed| ==> composed[i].scores.sentiment.None?)
      && (synthesis.None? ==> forall i :: 0 <= i < |composed| ==> composed[i].summary.None?)
  {
    if assets != [] {
      ComposeKeepsSound(assets[..|assets| - 1], sentiment, synthesis);
      ComposedAssetIsSound(assets[|assets| - 1], sentiment, synthesis);
    }
  }

  lemma ComposedAssetIsSound(a: Asset, sentiment: Option<map<string, real>>, synthesis: Option<Synthesis>)
    requires Sound(a) && Silent(a)
    ensures var composed := ComposeAsset(a, sentiment, synthesis);
      && Sound(composed)
      && (sentiment.None? ==> composed.scores.sentiment.None?)
      && (synthesis.None? ==> composed.summary.None?)
  {
    var composed := ComposeAsset(a, sentiment, synthesis);
    assert composed.activatedRules == a.activatedRules && composed.causalLinks == a.causalLinks;
    assert composed.indicators == a.indicators && composed.scores.trend == a.scores.trend;
  }

  lemma SoundAssetsResolve(run: Run)
    requires AllSound(run.assets)
    ensures forall i :: 0 <= i < |run.assets| ==> LinksResolve(run, i) && !Contradicts(run.assets[i])
  {
    forall i, j | 0 <= i < |run.assets| && 0 <= j < |run.assets[i].causalLinks|
      ensures Activated(run, run.assets[i].causalLinks[j].viaRule)
    {
      assert Sound(run.assets[i]);
      assert Mentions(run.assets[i].activatedRules, run.assets[i].causalLinks[j].viaRule);
      var k :| 0 <= k < |run.assets[i].activatedRules|
        && run.assets[i].activatedRules[k].ruleId == run.assets[i].causalLinks[j].viaRule;
    }
  }

  lemma {:induction false} ConflictFlagsAreConflicts(conflicts: seq<string>)
    ensures forall i :: 0 <= i < |ConflictFlags(conflicts)| ==> ConflictFlags(conflicts)[i].code == RuleConflict
    ensures WithoutCode(ConflictFlags(conflicts), DegradedRun) == ConflictFlags(conflicts)
  {
    if conflicts != [] {
      ConflictFlagsAreConflicts(conflicts[1..]);
    }
  }

  /**
   * From resolution to explanation: an asset whose rules contradict each other at full strength lists
   * the rule but explains nothing by it, and any other asset with an effect has one causal link, in
   * the direction of the effect that won, unless that effect is neutral itself.
   */
  lemma LinksExplainResolution(book: Rulebook, events: seq<EventFeature>, regime: Option<RegimeState>, asset: string)
    requires UniqueIds(book.rules)
    ensures var here := OnAsset(Candidates(book.rules, ConditionVars(events), regime), asset);
      var acts := ActivationsOn(book, events, Candidates(book.rules, ConditionVars(events), regime), asset);
      var r, links := Conflict.Resolve(asset, here), ToCausalLinks(acts, asset);
      && |ToRuleActivations(acts)| == (if here == [] then 0 else 1)
      && (r.Contested? ==> links == [])
      && (r.Settled? ==> |links| == (if r.effect.direction.Neutral? then 0 else 1))
      && (links != [] ==> links[0].direction == r.effect.direction && links[0].asset == asset)
  {
    var candidates := Candidates(book.rules, ConditionVars(events), regime);
    ActivationsAreJustified(book, events, regime, asset);
    hide Candidates, ConditionVars, OnAsset, ActivationsOn;
    var here, acts := OnAsset(candidates, asset), ActivationsOn(book, events, candidates, asset);
    if here != [] {
      Conflict.StrongestWins(asset, here);
      hide Conflict.Resolve;
      assert acts == [acts[0]] && acts[1..] == [];
      assert Expresses(acts[0], Conflict.Resolve(asset, here), asset);
    }
  }

  /** Every published score fits the range its contract gives it, after rounding. */
  lemma ScoresFitContract(cfg: Config, a: AssetCfg, f: AssetFeatures, proximity: Option<real>, sentiment: Option<real>)
    ensures var scored := ScoreAsset(cfg, a, f, proximity, sentiment);
      && -1.0 <= scored.scores.trend <= 1.0 && 0.0 <= scored.scores.risk <= 1.0 && 0.0 <= scored.scores.confidence <= 1.0
      && 0 <= scored.healthIndex <= 100
  {
    var trend, risk := TrendScore(f), RiskScore(f, proximity);
    var confidence := SystemConfidence(f, ExpectedSignals(a.assetClass));
    Round4StaysWithin(trend, -1, 1);
    Round4StaysWithin(risk, 0, 1);
    Round4StaysWithin(confidence, 0, 1);
    HealthIndex.IndexInRange(cfg.weights, trend, risk, sentiment, f.indicators.atrPct);
  }

  /** Assembly adds no finding of its own. */
  lemma BaseRunIsClean(cfg: Config, book: Rulebook, ctx: Context, fs: FeatureSet, sentiment: Option<map<string, real>>)
    ensures var base := BaseRun(cfg, book, ctx, fs, sentiment);
      var matched := MatchRules(book, fs.events, Some(base.regime.state));
      && base.flags == [DEGRADED] + ConflictFlags(matched.conflicts)
      && base.regime.changed == (Some(base.regime.state) != base.regime.previous)
      && AllSound(base.assets) && AllSilent(base.assets)
  {
    var scoring := ScoreFirst(cfg, fs, sentiment, |cfg.assets|);
    var regime := Classify(scoring.inputs, fs.events, ctx.previous);
    var matched := MatchRules(book, fs.events, Some(regime.state));
    ScoredTrendsMatch(cfg, fs, sentiment, |cfg.assets|);
    AssembledAssetsAreSound(cfg.assets, fs, scoring.perAsset, matched.activations);
    var assets := AssembleAssets(cfg.assets, fs, scoring.perAsset, matched.activations);
    var run := Run(ctx.runId, ctx.sequence, true, regime, assets, [DEGRADED] + ConflictFlags(matched.conflicts));
    SoundAssetsResolve(run);
    FindingsAreSilent(run);
  }

  lemma DegradationCodes(conflicts: seq<string>, sentimentFailed: bool, synthesisFailed: bool)
    ensures var flags := ConflictFlags(conflicts) + DegradationFlags(sentimentFailed, synthesisFailed);
      && (HasCode(flags, SentimentDegraded) <==> sentimentFailed)
      && (HasCode(flags, SynthesisDegraded) <==> synthesisFailed)
  {
    ConflictFlagsAreConflicts(conflicts);
    var degraded := if sentimentFailed || synthesisFailed then [DEGRADED] else [];
    var sentiment := if sentimentFailed then [Flag(SentimentDegraded, Warning, WholeRun)] else [];
    var synthesis := if synthesisFailed then [Flag(SynthesisDegraded, Warning, WholeRun)] else [];
    forall code ensures HasCode(ConflictFlags(conflicts) + (degraded + sentiment + synthesis), code)
      <==> HasCode(ConflictFlags(conflicts), code) || HasCode(degraded, code) || HasCode(sentiment, code) || HasCode(synthesis, code)
    {
      HasCodeConcat(ConflictFlags(conflicts), degraded + sentiment + synthesis, code);
      HasCodeConcat(degraded + sentiment, synthesis, code);
      HasCodeConcat(degraded, sentiment, code);
    }
    if sentimentFailed {
      assert sentiment[0].code == SentimentDegraded;
    }
    if synthesisFailed {
      assert synthesis[0].code == SynthesisDegraded;
    }
  }

  lemma HasCodeConcat(a: seq<Flag>, b: seq<Flag>, code: Code)
    ensures HasCode(a + b, code) <==> HasCode(a, code) || HasCode(b, code)
  {
    if HasCode(a, code) {
      var i :| 0 <= i < |a| && a[i].code == code;
      assert (a + b)[i].code == code;
    }
    if HasCode(b, code) {
      var i :| 0 <= i < |b| && b[i].code == code;
      assert (a + b)[|a| + i].code == code;
    }
  }

  /**
   * Whatever the configuration, the rulebook, the features and the two LLM answers are, the finished
   * run passes every guardrail: it is published, carries exactly the rule conflicts followed by the
   * flags of the failed jobs, and is degraded exactly when an attempted job failed.
   */
  lemma EveryRunIsPublished(cfg: Config, book: Rulebook, ctx: Context, fs: FeatureSet, evidence: seq<string>,
                            r: Reasoner)
    ensures var result := RunPipeline(cfg, book, ctx, fs, evidence, r);
      var sentimentFailed := evidence != [] && r.sentiment.None?;
      && result.published && Findings(result.run) == []
      && result.run.flags == ConflictFlags(MatchRules(book, fs.events, Some(result.run.regime.state)).conflicts)
                             + DegradationFlags(sentimentFailed, r.synthesis.None?)
      && (result.isDegraded <==> sentimentFailed || r.synthesis.None?)
  {
    hide BaseRun, MatchRules, Findings, HasCode, ConflictFlags, DegradationFlags, ComposeAssets, Contradicts, LinksResolve;
    var sentiment := HeardSentiment(evidence, r);
    var sentimentFailed := evidence != [] && sentiment.None?;
    var base := BaseRun(cfg, book, ctx, fs, sentiment);
    var conflicts := MatchRules(book, fs.events, Some(base.regime.state)).conflicts;
    BaseRunIsClean(cfg, book, ctx, fs, sentiment);
    ComposeKeepsSound(base.assets, sentiment, r.synthesis);
    ConflictFlagsAreConflicts(conflicts);
    var composed := Compose(base, sentiment, r.synthesis, sentimentFailed, r.synthesis.None?);
    assert base.flags[1..] == ConflictFlags(conflicts);
    assert composed.flags == ConflictFlags(conflicts) + DegradationFlags(sentimentFailed, r.synthesis.None?);
    DegradationCodes(conflicts, sentimentFailed, r.synthesis.None?);
    SoundAssetsResolve(composed);
    FindingsAreSilent(composed);
    assert composed.flags + [] == composed.flags;
  }

  // Contract ranges of a whole run.

  predicate Unit(x: real) { 0.0 <= x <= 1.0 }

  predicate InContract(a: Asset) {
    && -1.0 <= a.scores.trend <= 1.0 && Unit(a.scores.risk) && Unit(a.scores.confidence) && 0 <= a.healthIndex <= 100
    && (a.scores.sentiment.Some? ==> -1.0 <= a.scores.sentiment.value <= 1.0)
    && forall k :: 0 <= k < |a.activatedRules| ==> Unit(a.activatedRules[k].decayRemaining)
  }

  ghost predicate AllInContract(assets: seq<Asset>) {
    forall i :: 0 <= i < |assets| ==> InContract(assets[i])
  }

  predicate ScoredInContract(x: Scored) {
    -1.0 <= x.scores.trend <= 1.0 && Unit(x.scores.risk) && Unit(x.scores.confidence) && 0 <= x.healthIndex <= 100
  }

  ghost predicate ScoringInContract(scoring: Scoring) {
    && (forall symbol :: symbol in scoring.perAsset ==> ScoredInContract(scoring.perAsset[symbol]))
    && Regimes.InRange(scoring.inputs)
  }

  lemma ScoresInRange(f: AssetFeatures, proximity: Option<real>)
    ensures -1.0 <= TrendScore(f) <= 1.0 && 0.0 <= RiskScore(f, proximity) <= 1.0
  {}

  lemma {:induction false} ScoringFits(cfg: Config, fs: FeatureSet, sentiment: Option<map<string, real>>, n: nat)
    requires n <= |cfg.assets|
    ensures ScoringInContract(ScoreFirst(cfg, fs, sentiment, n))
  {
    hide ScoreAsset, TrendScore, RiskScore, Nearest, SentimentOn;
    if n > 0 {
      ScoringFits(cfg, fs, sentiment, n - 1);
      var a := cfg.assets[n - 1];
      if a.symbol in fs.perAsset {
        var f := fs.perAsset[a.symbol];
        ScoresFitContract(cfg, a, f, Nearest(fs.events), SentimentOn(sentiment, a.symbol));
        ScoresInRange(f, Nearest(fs.events));
      }
    }
  }

  /** What is left of every activation lies in the unit range. */
  ghost predicate DecaysFit(activations: map<string, seq<Activation>>) {
    forall symbol, k :: symbol in activations && 0 <= k < |activations[symbol]| ==> Unit(activations[symbol][k].decayRemaining)
  }

  lemma {:induction false} SettledDecaysFit(book: Rulebook, events: seq<Regimes.EventFeature>, candidates: seq<Conflict.Candidate>,
                                            assets: seq<string>)
    ensures DecaysFit(RuleEngine.Settle(book, events, candidates, assets).activations)
  {
    hide Conflict.Resolve, OnAsset, RuleById, EventFor, ToActivation;
    if assets != [] {
      SettledDecaysFit(book, events, candidates, assets[..|assets| - 1]);
      var asset := assets[|assets| - 1];
      var r := Conflict.Resolve(asset, OnAsset(candidates, asset));
      if !r.Nothing? {
        var rule := RuleById(book.rules, r.effect.sourceRuleId);
        if rule.Some? {
          ActivationExpresses(book, asset, r, rule.value, EventFor(rule.value, events));
        }
      }
    }
  }

  lemma {:induction false} PublishedDecays(acts: seq<Activation>)
    requires forall k :: 0 <= k < |acts| ==> Unit(acts[k].decayRemaining)
    ensures forall k :: 0 <= k < |ToRuleActivations(acts)| ==> Unit(ToRuleActivations(acts)[k].decayRemaining)
  {
    if acts != [] {
      PublishedDecays(acts[1..]);
    }
  }

  lemma {:induction false} AssembledFit(assets: seq<AssetCfg>, fs: FeatureSet, perAsset: map<string, Scored>,
                                        activations: map<string, seq<Activation>>)
    requires DecaysFit(activations)
    requires forall symbol :: symbol in perAsset ==> ScoredInContract(perAsset[symbol])
    ensures AllInContract(AssembleAssets(assets, fs, perAsset, activations))
  {
    hide ToRuleActivations, ToCausalLinks, PublishedIndicators;
    if assets != [] {
      AssembledFit(assets[1..], fs, perAsset, activations);
      var symbol := assets[0].symbol;
      if symbol in perAsset && symbol in fs.perAsset {
        var acts := if symbol in activations then activations[symbol] else [];
        PublishedDecays(acts);
        assert InContract(AssembleAsset(symbol, fs.perAsset[symbol], perAsset[symbol], acts));
      }
    }
  }

  /** The sentiments a validated response can hold. */
  ghost predicate SentimentsFit(sentiment: Option<map<string, real>>) {
    sentiment.Some? ==> forall symbol :: symbol in sentiment.value ==> -1.0 <= sentiment.value[symbol] <= 1.0
  }

  lemma {:induction false} ComposedFit(assets: seq<Asset>, sentiment: Option<map<string, real>>, synthesis: Option<Synthesis>)
    requires AllInContract(assets) && SentimentsFit(sentiment)
    ensures AllInContract(ComposeAssets(assets, sentiment, synthesis))
  {
    if assets != [] {
      ComposedFit(assets[..|assets| - 1], sentiment, synthesis);
      var last := assets[|assets| - 1];
      assert InContract(last);
      assert InContract(ComposeAsset(last, sentiment, synthesis));
    }
  }

  /**
   * Every number of every run fits its contract range: trend, risk, confidence, sentiment, health
   * index and decay of each asset, and the confidence and driver weights of the regime; for all
   * configurations, rules and features, and all answers whose sentiments passed validation.
   */
  lemma EveryRunFitsContract(cfg: Config, book: Rulebook, ctx: Context, fs: FeatureSet, evidence: seq<string>, r: Reasoner)
    requires SentimentsFit(r.sentiment)
    ensures var run := RunPipeline(cfg, book, ctx, fs, evidence, r).run;
      && AllInContract(run.assets) && Unit(run.regime.confidence)
      && forall i :: 0 <= i < |run.regime.drivers| ==> Unit(run.regime.drivers[i].weight)
  {
    var sentiment := HeardSentiment(evidence, r);
    var scoring := ScoreFirst(cfg, fs, sentiment, |cfg.assets|);
    ScoringFits(cfg, fs, sentiment, |cfg.assets|);
    Regimes.ClassifyFitsContract(scoring.inputs, fs.events, ctx.previous);
    var regime := Regimes.Classify(scoring.inputs, fs.events, ctx.previous);
    var candidates := Candidates(book.rules, ConditionVars(fs.events), Some(regime.state));
    SettledDecaysFit(book, fs.events, candidates, AssetsNamed(candidates));
    var matched := MatchRules(book, fs.events, Some(regime.state));
    AssembledFit(cfg.assets, fs, scoring.perAsset, matched.activations);
    var assets := AssembleAssets(cfg.assets, fs, scoring.perAsset, matched.activations);
    ComposedFit(assets, sentiment, r.synthesis);
    PublishedParts(cfg, book, ctx, fs, evidence, r);
    hide RunPipeline, ScoreFirst, Regimes.Classify, MatchRules, AssembleAssets, ComposeAssets, AllInContract, Regimes.InRange;
  }

  lemma PublishedParts(cfg: Config, book: Rulebook, ctx: Context, fs: FeatureSet, evidence: seq<string>, r: Reasoner)
    ensures var run := RunPipeline(cfg, book, ctx, fs, evidence, r).run;
      var sentiment := HeardSentiment(evidence, r);
      var scoring := ScoreFirst(cfg, fs, sentiment, |cfg.assets|);
      && run.regime == Regimes.Classify(scoring.inputs, fs.events, ctx.previous)
      && run.assets == ComposeAssets(
           AssembleAssets(cfg.assets, fs, scoring.perAsset, MatchRules(book, fs.events, Some(run.regime.state)).activations),
           sentiment, r.synthesis)
  {
    hide ScoreFirst, Regimes.Classify, MatchRules, AssembleAssets, ComposeAssets, HeardSentiment, Findings, WithoutCode,
      DegradationFlags, ConflictFlags, AnyCritical;
  }
}

/** The deterministic core of a run does not depend on what the reasoner says. */
module Noninterference {
  import opened Common
  import opened Signals
  import opened HealthIndex
  import opened Regimes
  import opened RuleEngine
  import opened RunModel
  import opened Orchestrator
  import opened Publication

  /** What the core fingerprint hashes, and the whole regime besides. */
  datatype CoreAsset = CoreAsset(symbol: string, trend: real, risk: real, confidence: real,
                                 activatedRules: seq<RuleActivation>, causalLinks: seq<CausalLink>)

  datatype Core = Core(regime: RegimeResult, assets: seq<CoreAsset>)

  function CoreOfAsset(a: Asset): CoreAsset {
    CoreAsset(a.symbol, a.scores.trend, a.scores.risk, a.scores.confidence, a.activatedRules, a.causalLinks)
  }

  function CoreOfAssets(assets: seq<Asset>): (core: seq<CoreAsset>)
    ensures |core| == |assets|
  {
    seq(|assets|, i requires 0 <= i < |assets| => CoreOfAsset(assets[i]))
  }

  function CoreOf(run: Run): Core { Core(run.regime, CoreOfAssets(run.assets)) }

  /** Two scorings that differ only where their sentiments do. */
  ghost predicate SameButSentiment(x: Scoring, y: Scoring, s: Option<map<string, real>>, t: Option<map<string, real>>) {
    && x.inputs == y.inputs
    && x.perAsset.Keys == y.perAsset.Keys
    && forall symbol :: symbol in x.perAsset ==>
         && x.perAsset[symbol].scores.trend == y.perAsset[symbol].scores.trend
         && x.perAsset[symbol].scores.risk == y.perAsset[symbol].scores.risk
         && x.perAsset[symbol].scores.confidence == y.perAsset[symbol].scores.confidence
         && (SentimentOn(s, symbol) == SentimentOn(t, symbol) ==> x.perAsset[symbol].healthIndex == y.perAsset[symbol].healthIndex)
  }

  lemma {:induction false} ScoringIgnoresSentiment(cfg: Config, fs: FeatureSet, s: Option<map<string, real>>,
                                                   t: Option<map<string, real>>, n: nat)
    requires n <= |cfg.assets|
    ensures SameButSentiment(ScoreFirst(cfg, fs, s, n), ScoreFirst(cfg, fs, t, n), s, t)
  {
    hide TrendScore, RiskScore, SystemConfidence, MarketHealthIndex, Nearest;
    if n > 0 {
      ScoringIgnoresSentiment(cfg, fs, s, t, n - 1);
    }
  }

  /** Assembled assets agree on everything but the health index, and on that where sentiments agree. */
  ghost predicate SameAssembled(x: seq<Asset>, y: seq<Asset>, s: Option<map<string, real>>,
                                t: Option<map<string, real>>) {
    && |x| == |y|
    && forall i :: 0 <= i < |x| ==>
         && x[i] == y[i].(healthIndex := x[i].healthIndex)
         && (SentimentOn(s, x[i].symbol) == SentimentOn(t, x[i].symbol) ==> x[i].healthIndex == y[i].healthIndex)
  }

  lemma {:induction false} AssemblyIgnoresSentiment(assets: seq<AssetCfg>, fs: FeatureSet, x: Scoring, y: Scoring,
                                                    s: Option<map<string, real>>, t: Option<map<string, real>>,
                                                    activations: map<string, seq<Activation>>)
    requires SameButSentiment(x, y, s, t)
    ensures SameAssembled(AssembleAssets(assets, fs, x.perAsset, activations), AssembleAssets(assets, fs, y.perAsset, activations), s, t)
  {
    if assets != [] {
      AssemblyIgnoresSentiment(assets[1..], fs, x, y, s, t, activations);
    }
  }

  lemma {:induction false} CompositionKeepsCore(assets: seq<Asset>, sentiment: Option<map<string, real>>,
                                                synthesis: Option<Synthesis>)
    ensures var composed := ComposeAssets(assets, sentiment, synthesis);
      && |composed| == |assets|
      && forall i :: 0 <= i < |assets| ==>
           CoreOfAsset(composed[i]) == CoreOfAsset(assets[i]) && composed[i].healthIndex == assets[i].healthIndex
  {
    if assets != [] {
      CompositionKeepsCore(assets[..|assets| - 1], sentiment, synthesis);
    }
  }

  predicate HeardAlike(evidence: seq<string>, r: Reasoner, q: Reasoner, symbol: string) {
    SentimentOn(HeardSentiment(evidence, r), symbol) == SentimentOn(HeardSentiment(evidence, q), symbol)
  }

  /**
   * Two runs over the same context, features and rules have the same core, whatever the two reasoners
   * answer; and an asset's health index can differ only where the sentiment heard for it does.
   */
  lemma ReasonerNeverTouchesCore(cfg: Config, book: Rulebook, ctx: Context, fs: FeatureSet, evidence: seq<string>,
                                 r: Reasoner, q: Reasoner)
    ensures var x, y := RunPipeline(cfg, book, ctx, fs, evidence, r).run, RunPipeline(cfg, book, ctx, fs, evidence, q).run;
      && CoreOf(x) == CoreOf(y)
      && forall i :: 0 <= i < |x.assets| && HeardAlike(evidence, r, q, x.assets[i].symbol) ==>
           x.assets[i].healthIndex == y.assets[i].healthIndex
  {
    hide ScoreFirst, MatchRules, Classify, AssembleAssets, ComposeAssets, Guardrails.Findings, WithoutCode, DegradationFlags,
      ConflictFlags;
    var s, t := HeardSentiment(evidence, r), HeardSentiment(evidence, q);
    var a, b := ScoreFirst(cfg, fs, s, |cfg.assets|), ScoreFirst(cfg, fs, t, |cfg.assets|);
    ScoringIgnoresSentiment(cfg, fs, s, t, |cfg.assets|);
    var regime := Classify(a.inputs, fs.events, ctx.previous);
    var activations := MatchRules(book, fs.events, Some(regime.state)).activations;
    AssemblyIgnoresSentiment(cfg.assets, fs, a, b, s, t, activations);
    var base, base' := BaseRun(cfg, book, ctx, fs, s), BaseRun(cfg, book, ctx, fs, t);
    CompositionKeepsCore(base.assets, s, r.synthesis);
    CompositionKeepsCore(base'.assets, t, q.synthesis);
    var x, y := RunPipeline(cfg, book, ctx, fs, evidence, r).run, RunPipeline(cfg, book, ctx, fs, evidence, q).run;
    assert |CoreOf(x).assets| == |CoreOf(y).assets|;
    forall i | 0 <= i < |x.assets| ensures CoreOf(x).assets[i] == CoreOf(y).assets[i] {
      assert CoreOfAsset(base.assets[i]) == CoreOfAsset(base'.assets[i]);
    }
  }
}
