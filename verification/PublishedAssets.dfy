/** What a published run says of each asset, and of its regime and flags, told from the inputs of the run. */
module PublishedAssets {
  import opened Common
  import opened Folds
  import opened Rounding
  import opened Signals
  import opened HealthIndex
  import opened RuleEngine
  import opened RunModel
  import opened Orchestrator
  import opened Publication
  import Conflict
  import Guardrails
  import Regimes

  /** The configured assets that have features, in configuration order. */
  function Covered(assets: seq<AssetCfg>, fs: FeatureSet): seq<AssetCfg> {
    Keep((a: AssetCfg) => a.symbol in fs.perAsset, assets)
  }

  ghost predicate DistinctSymbols(assets: seq<AssetCfg>) {
    forall i, j :: 0 <= i < j < |assets| ==> assets[i].symbol != assets[j].symbol
  }

  /** A sentiment on the asset was given, by a job that had evidence, and the evidence is about the asset. */
  predicate WasHeard(evidence: seq<string>, r: Reasoner, symbol: string) {
    evidence != [] && r.sentiment.Some? && symbol in r.sentiment.value && symbol in evidence
  }

  function HeardOn(evidence: seq<string>, r: Reasoner, symbol: string): Option<real> {
    if WasHeard(evidence, r, symbol) then Some(r.sentiment.value[symbol]) else None
  }

  /** Rounded scores of the asset's own features, and the index over the unrounded ones. */
  ghost predicate ScoredFrom(cfg: Config, a: AssetCfg, f: AssetFeatures, near: Option<real>, heard: Option<real>, out: Asset) {
    && out.scores.trend == Round4(TrendScore(f))
    && out.scores.risk == Round4(RiskScore(f, near))
    && out.scores.confidence == Round4(SystemConfidence(f, if a.assetClass.Index? then 2 else 5))
    && out.scores.sentiment == heard
    && out.healthIndex == MarketHealthIndex(cfg.weights, TrendScore(f), RiskScore(f, near), heard, f.indicators.atrPct)
    && (out.indicators.Some? ==> out.indicators.value == f.indicators)
    && (out.indicators.None? <==>
          && f.indicators.ema.None? && f.indicators.macd.None? && f.indicators.rsi.None?
          && f.indicators.atrPct.None? && f.indicators.volumeRatio.None?)
  }

  /** One published activation for each activation, with what is left of it. */
  ghost predicate Lists(rules: seq<RuleActivation>, acts: seq<Activation>) {
    && |rules| == |acts|
    && forall i :: 0 <= i < |acts| ==>
         && rules[i].ruleId == acts[i].ruleId && rules[i].strength == acts[i].strength
         && rules[i].horizon == acts[i].horizon && rules[i].decayRemaining == acts[i].decayRemaining
  }

  predicate Directed(a: Activation) { !a.direction.Neutral? }

  /** One link for each activation that is not neutral, from its event or else its rule. */
  ghost predicate Explains(links: seq<CausalLink>, acts: seq<Activation>, symbol: string) {
    var directed := Keep(Directed, acts);
    && |links| == |directed|
    && forall i :: 0 <= i < |directed| ==>
         && links[i].asset == symbol && links[i].direction == directed[i].direction && links[i].viaRule == directed[i].ruleId
         && links[i].cause == if directed[i].eventId.Some? then directed[i].eventId.value else directed[i].ruleId
  }

  /** What was synthesized about the asset, if anything. */
  ghost predicate Narrates(synthesis: Option<Synthesis>, out: Asset) {
    var told := synthesis.Some? && out.symbol in synthesis.value;
    && out.summary == (if told then Some(synthesis.value[out.symbol].summary) else None)
    && out.noveltyFlags == (if told then Some(synthesis.value[out.symbol].noveltyFlags) else None)
  }

  function ActivatedOn(activations: map<string, seq<Activation>>, symbol: string): seq<Activation> {
    if symbol in activations then activations[symbol] else []
  }

  /** The published entry of a configured asset. */
  ghost predicate Describes(cfg: Config, fs: FeatureSet, activations: map<string, seq<Activation>>, evidence: seq<string>,
                            r: Reasoner, a: AssetCfg, out: Asset)
    requires a.symbol in fs.perAsset
  {
    var acts := ActivatedOn(activations, a.symbol);
    && out.symbol == a.symbol
    && ScoredFrom(cfg, a, fs.perAsset[a.symbol], Nearest(fs.events), HeardOn(evidence, r, a.symbol), out)
    && Lists(out.activatedRules, acts) && Explains(out.causalLinks, acts, a.symbol)
    && Narrates(r.synthesis, out)
  }

  lemma {:induction false} ActivationsAreListed(acts: seq<Activation>, symbol: string)
    ensures Lists(ToRuleActivations(acts), acts) && Explains(ToCausalLinks(acts, symbol), acts, symbol)
  {
    if acts != [] {
      ActivationsAreListed(acts[1..], symbol);
    }
  }

  /** Scoring gives every covered asset the scores of its own configuration and features. */
  lemma {:induction false} EveryCoveredIsScored(cfg: Config, fs: FeatureSet, sentiment: Option<map<string, real>>, n: nat)
    requires DistinctSymbols(cfg.assets) && n <= |cfg.assets|
    ensures var scoring := ScoreFirst(cfg, fs, sentiment, n);
      && (forall i :: 0 <= i < n && cfg.assets[i].symbol in fs.perAsset ==>
            && cfg.assets[i].symbol in scoring.perAsset
            && scoring.perAsset[cfg.assets[i].symbol] == ScoreAsset(cfg, cfg.assets[i], fs.perAsset[cfg.assets[i].symbol],
                                                                    Nearest(fs.events), SentimentOn(sentiment, cfg.assets[i].symbol)))
      && (forall symbol :: symbol in scoring.perAsset ==> symbol in fs.perAsset)
  {
    hide ScoreAsset, TrendScore, RiskScore, Nearest, SentimentOn;
    if n > 0 {
      EveryCoveredIsScored(cfg, fs, sentiment, n - 1);
      assert forall i :: 0 <= i < n - 1 ==> cfg.assets[i].symbol != cfg.assets[n - 1].symbol;
    }
  }

  function AssembledFrom(fs: FeatureSet, perAsset: map<string, Scored>, activations: map<string, seq<Activation>>,
                         a: AssetCfg): Asset
    requires a.symbol in fs.perAsset && a.symbol in perAsset
  {
    AssembleAsset(a.symbol, fs.perAsset[a.symbol], perAsset[a.symbol], ActivatedOn(activations, a.symbol))
  }

  lemma {:induction false} EveryCoveredIsAssembled(assets: seq<AssetCfg>, fs: FeatureSet, perAsset: map<string, Scored>,
                                                   activations: map<string, seq<Activation>>)
    requires forall i :: 0 <= i < |assets| ==> (assets[i].symbol in perAsset <==> assets[i].symbol in fs.perAsset)
    ensures var covered, out := Covered(assets, fs), AssembleAssets(assets, fs, perAsset, activations);
      && |out| == |covered|
      && forall i :: 0 <= i < |covered| ==>
           && covered[i] in assets && covered[i].symbol in fs.perAsset && covered[i].symbol in perAsset
           && out[i] == AssembledFrom(fs, perAsset, activations, covered[i])
  {
    hide AssembleAsset;
    if assets != [] {
      EveryCoveredIsAssembled(assets[1..], fs, perAsset, activations);
      assert assets == [assets[0]] + assets[1..];
    }
  }

  lemma {:induction false} EveryAssetIsComposed(assets: seq<Asset>, sentiment: Option<map<string, real>>, synthesis: Option<Synthesis>)
    ensures var out := ComposeAssets(assets, sentiment, synthesis);
      |out| == |assets| && forall i :: 0 <= i < |assets| ==> out[i] == ComposeAsset(assets[i], sentiment, synthesis)
  {
    hide ComposeAsset;
    if assets != [] {
      EveryAssetIsComposed(assets[..|assets| - 1], sentiment, synthesis);
    }
  }

  lemma HeardMeans(evidence: seq<string>, r: Reasoner, symbol: string)
    ensures SentimentOn(HeardSentiment(evidence, r), symbol) == HeardOn(evidence, r, symbol)
  {}

  lemma ComposedDescribes(cfg: Config, fs: FeatureSet, activations: map<string, seq<Activation>>, evidence: seq<string>,
                          r: Reasoner, a: AssetCfg, scored: Scored)
    requires a.symbol in fs.perAsset
    requires var sentiment := HeardSentiment(evidence, r);
      scored == ScoreAsset(cfg, a, fs.perAsset[a.symbol], Nearest(fs.events), SentimentOn(sentiment, a.symbol))
    ensures var assembled := AssembleAsset(a.symbol, fs.perAsset[a.symbol], scored, ActivatedOn(activations, a.symbol));
      Describes(cfg, fs, activations, evidence, r, a, ComposeAsset(assembled, HeardSentiment(evidence, r), r.synthesis))
  {
    HeardMeans(evidence, r, a.symbol);
    ActivationsAreListed(ActivatedOn(activations, a.symbol), a.symbol);
    hide TrendScore, RiskScore, SystemConfidence, MarketHealthIndex, Nearest, HeardSentiment, Lists, Explains, ToRuleActivations,
      ToCausalLinks, Round4, HeardOn, ActivatedOn;
  }

  /**
   * A run publishes exactly the configured assets that have features, in configuration order, each
   * with the rounded scores and the index of its own features, the rules activated for it, the
   * sentiment heard on it and the narrative synthesized about it.
   */
  lemma RunHoldsEveryAsset(cfg: Config, book: Rulebook, ctx: Context, fs: FeatureSet, evidence: seq<string>, r: Reasoner)
    requires DistinctSymbols(cfg.assets)
    ensures var run := RunPipeline(cfg, book, ctx, fs, evidence, r).run;
      var covered := Covered(cfg.assets, fs);
      var activations := MatchRules(book, fs.events, Some(run.regime.state)).activations;
      && |run.assets| == |covered|
      && forall i :: 0 <= i < |covered| ==>
           && covered[i].symbol in fs.perAsset
           && Describes(cfg, fs, activations, evidence, r, covered[i], run.assets[i])
  {
    var sentiment := HeardSentiment(evidence, r);
    PublishedParts(cfg, book, ctx, fs, evidence, r);
    hide RunPipeline, MatchRules, HeardSentiment, Regimes.Classify;
    var run := RunPipeline(cfg, book, ctx, fs, evidence, r).run;
    var scoring := ScoreFirst(cfg, fs, sentiment, |cfg.assets|);
    var activations := MatchRules(book, fs.events, Some(run.regime.state)).activations;
    EveryCoveredIsScored(cfg, fs, sentiment, |cfg.assets|);
    hide ScoreFirst;
    EveryCoveredIsAssembled(cfg.assets, fs, scoring.perAsset, activations);
    hide AssembleAssets, ComposeAssets, AssembleAsset, ComposeAsset, Describes, ScoreAsset, Covered, Nearest, SentimentOn, DistinctSymbols;
    var assembled := AssembleAssets(cfg.assets, fs, scoring.perAsset, activations);
    EveryAssetIsComposed(assembled, sentiment, r.synthesis);
    var covered := Covered(cfg.assets, fs);
    forall i | 0 <= i < |covered|
      ensures covered[i].symbol in fs.perAsset && Describes(cfg, fs, activations, evidence, r, covered[i], run.assets[i])
    {
      var a := covered[i];
      var k :| 0 <= k < |cfg.assets| && cfg.assets[k] == a;
      ComposedDescribes(cfg, fs, activations, evidence, r, a, scoring.perAsset[a.symbol]);
    }
  }

  // The run as a whole.

  lemma {:induction false} CoveredSnoc(assets: seq<AssetCfg>, fs: FeatureSet, n: nat)
    requires n < |assets|
    ensures Covered(assets[..n + 1], fs) == Covered(assets[..n], fs) + if assets[n].symbol in fs.perAsset then [assets[n]] else []
  {
    assert assets[..n + 1] == assets[..n] + [assets[n]];
    KeepConcat((a: AssetCfg) => a.symbol in fs.perAsset, assets[..n], [assets[n]]);
  }

  /** The regime is classified from every covered asset's unrounded scores, and nothing else. */
  lemma {:induction false} EveryCoveredIsClassified(cfg: Config, fs: FeatureSet, sentiment: Option<map<string, real>>, n: nat)
    requires n <= |cfg.assets|
    ensures var inputs, covered := ScoreFirst(cfg, fs, sentiment, n).inputs, Covered(cfg.assets[..n], fs);
      && |inputs| == |covered|
      && forall i :: 0 <= i < |covered| ==>
           && covered[i].symbol in fs.perAsset
           && var f := fs.perAsset[covered[i].symbol];
              inputs[i] == Regimes.RegimeInput(covered[i].symbol, TrendScore(f), RiskScore(f, Nearest(fs.events)), covered[i].sensitivity)
  {
    hide ScoreAsset, TrendScore, RiskScore, Nearest, SentimentOn, Covered;
    if n == 0 {
      hide *;
      NothingCovered(cfg, fs);
    } else {
      EveryCoveredIsClassified(cfg, fs, sentiment, n - 1);
      CoveredSnoc(cfg.assets, fs, n - 1);
    }
  }

  lemma NothingCovered(cfg: Config, fs: FeatureSet)
    ensures Covered(cfg.assets[..0], fs) == []
  {}

  lemma {:induction false} ConflictFlagsList(conflicts: seq<string>)
    ensures |ConflictFlags(conflicts)| == |conflicts|
    ensures forall i :: 0 <= i < |conflicts| ==> ConflictFlags(conflicts)[i] == Flag(RuleConflict, Warning, OnSymbol(conflicts[i]))
  {
    if conflicts != [] {
      ConflictFlagsList(conflicts[1..]);
    }
  }

  /** One warning per contested asset, in order, then one for a degraded run and one per failed job. */
  lemma RunIsFlagged(cfg: Config, book: Rulebook, ctx: Context, fs: FeatureSet, evidence: seq<string>, r: Reasoner)
    ensures var run := RunPipeline(cfg, book, ctx, fs, evidence, r).run;
      var contested := MatchRules(book, fs.events, Some(run.regime.state)).conflicts;
      var deaf, mute := evidence != [] && r.sentiment.None?, r.synthesis.None?;
      var n := |contested|;
      && run.runId == ctx.runId && run.sequence == ctx.sequence && run.isDegraded == (deaf || mute)
      && |run.flags| == n + (if deaf || mute then 1 else 0) + (if deaf then 1 else 0) + (if mute then 1 else 0)
      && (forall i :: 0 <= i < n ==> run.flags[i] == Flag(RuleConflict, Warning, OnSymbol(contested[i])))
      && (deaf || mute ==> run.flags[n] == Flag(DegradedRun, Warning, WholeRun))
      && (deaf ==> run.flags[n + 1] == Flag(SentimentDegraded, Warning, WholeRun))
      && (mute ==> run.flags[|run.flags| - 1] == Flag(SynthesisDegraded, Warning, WholeRun))
  {
    EveryRunIsPublished(cfg, book, ctx, fs, evidence, r);
    var run := RunPipeline(cfg, book, ctx, fs, evidence, r).run;
    ConflictFlagsList(MatchRules(book, fs.events, Some(run.regime.state)).conflicts);
    hide BaseRun, MatchRules, ConflictFlags, ComposeAssets, Guardrails.Findings, HeardSentiment, WithoutCode;
    BaseNames(cfg, book, ctx, fs, HeardSentiment(evidence, r));
  }

  lemma BaseNames(cfg: Config, book: Rulebook, ctx: Context, fs: FeatureSet, sentiment: Option<map<string, real>>)
    ensures BaseRun(cfg, book, ctx, fs, sentiment).runId == ctx.runId
    ensures BaseRun(cfg, book, ctx, fs, sentiment).sequence == ctx.sequence
  {
    hide ScoreFirst, Regimes.Classify, MatchRules, AssembleAssets, Guardrails.Findings, ConflictFlags;
  }

  /**
   * The regime of a run is that of the configured assets that have features, at their unrounded
   * scores, whatever else is configured.
   */
  lemma RunClassifiesEveryAsset(cfg: Config, book: Rulebook, ctx: Context, fs: FeatureSet, evidence: seq<string>, r: Reasoner)
    returns (inputs: seq<Regimes.RegimeInput>)
    ensures var run, covered := RunPipeline(cfg, book, ctx, fs, evidence, r).run, Covered(cfg.assets, fs);
      && run.regime == Regimes.Classify(inputs, fs.events, ctx.previous)
      && |inputs| == |covered|
      && forall i :: 0 <= i < |covered| ==>
           && covered[i].symbol in fs.perAsset
           && var f := fs.perAsset[covered[i].symbol];
              inputs[i] == Regimes.RegimeInput(covered[i].symbol, TrendScore(f), RiskScore(f, Nearest(fs.events)), covered[i].sensitivity)
  {
    PublishedParts(cfg, book, ctx, fs, evidence, r);
    hide RunPipeline, Regimes.Classify, Covered, TrendScore, RiskScore, Nearest;
    inputs := ScoreFirst(cfg, fs, HeardSentiment(evidence, r), |cfg.assets|).inputs;
    EveryCoveredIsClassified(cfg, fs, HeardSentiment(evidence, r), |cfg.assets|);
    assert cfg.assets[..|cfg.assets|] == cfg.assets;
  }
}
