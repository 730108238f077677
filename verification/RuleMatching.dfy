/** Which rules match, what they say under their guards, and which assets that activates. */
module RuleMatching {
  import opened Common
  import opened Rounding
  import opened Conflict
  import opened Folds
  import opened Regimes
  import opened RuleEngine

  // The variables of a condition.

  /** The event gives the variable its surprise: by its type, or by the CPI alias. */
  predicate Names(e: EventFeature, variable: string) {
    variable == VariableOf(e.eventType) || (e.eventType.UsCpi? && variable == CPI_ALIAS)
  }

  /** The last event to name the variable. */
  predicate NamesLast(events: seq<EventFeature>, variable: string, i: nat) {
    i < |events| && Names(events[i], variable) && forall j :: i < j < |events| ==> !Names(events[j], variable)
  }

  lemma NamesLastSnoc(front: seq<EventFeature>, last: EventFeature, variable: string, i: nat)
    ensures NamesLast(front + [last], variable, i) <==>
      if Names(last, variable) then i == |front| else NamesLast(front, variable, i)
  {
    var events := front + [last];
    assert forall j :: 0 <= j < |front| ==> events[j] == front[j];
    if i < |front| {
      assert NamesLast(events, variable, i) ==> !Names(events[|front|], variable);
    }
  }

  /** A variable has a value exactly when some event names it, and then the surprise of the last that does. */
  lemma {:induction false} VariablesAreLastSurprises(events: seq<EventFeature>, variable: string)
    ensures variable in ConditionVars(events) <==> exists i: nat :: NamesLast(events, variable, i)
    ensures forall i: nat :: NamesLast(events, variable, i) ==> ConditionVars(events)[variable] == events[i].surprise
  {
    if events != [] {
      var front, last := events[..|events| - 1], events[|events| - 1];
      VariablesAreLastSurprises(front, variable);
      assert events == front + [last];
      hide NamesLast, VariableOf;
      VariablesSnoc(front, last, variable);
      forall i: nat ensures NamesLast(events, variable, i) <==> if Names(last, variable) then i == |front| else NamesLast(front, variable, i) {
        NamesLastSnoc(front, last, variable, i);
      }
      forall i: nat | NamesLast(front, variable, i) ensures i < |front| && events[i] == front[i] {
        LastIsInside(front, variable, i);
      }
    }
  }

  lemma LastIsInside(events: seq<EventFeature>, variable: string, i: nat)
    requires NamesLast(events, variable, i)
    ensures i < |events|
  {}

  lemma VariablesSnoc(front: seq<EventFeature>, last: EventFeature, variable: string)
    ensures var before, after := ConditionVars(front), ConditionVars(front + [last]);
      if Names(last, variable) then variable in after && after[variable] == last.surprise
      else (variable in after <==> variable in before) && (variable in before ==> after[variable] == before[variable])
  {
    assert (front + [last])[..|front|] == front;
    VariablesAreDistinct(last.eventType, last.eventType);
  }

  /** The last event of the type. */
  predicate LastOfType(events: seq<EventFeature>, t: EventType, i: nat) {
    i < |events| && events[i].eventType == t && forall j :: i < j < |events| ==> events[j].eventType != t
  }

  lemma LastOfTypeSnoc(front: seq<EventFeature>, last: EventFeature, t: EventType, i: nat)
    ensures LastOfType(front + [last], t, i) <==>
      if last.eventType == t then i == |front| else LastOfType(front, t, i)
  {
    var events := front + [last];
    assert forall j :: 0 <= j < |front| ==> events[j] == front[j];
    if i < |front| {
      assert LastOfType(events, t, i) ==> events[|front|].eventType != t;
    }
  }

  /** The event kept for a type is the last of it. */
  lemma {:induction false} EventByTypeIsLast(events: seq<EventFeature>, t: EventType)
    ensures t in EventByType(events) <==> exists i: nat :: LastOfType(events, t, i)
    ensures forall i: nat :: LastOfType(events, t, i) ==> i < |events| && t in EventByType(events) && EventByType(events)[t] == events[i]
  {
    if events != [] {
      var front, last := events[..|events| - 1], events[|events| - 1];
      EventByTypeIsLast(front, t);
      assert events == front + [last];
      forall i: nat ensures LastOfType(events, t, i) <==> if last.eventType == t then i == |front| else LastOfType(front, t, i) {
        LastOfTypeSnoc(front, last, t, i);
      }
      hide LastOfType;
      if last.eventType == t {
        assert LastOfType(events, t, |front|);
      }
    }
  }

  // Conditions and guards.

  /** The rule is active, its variable has a value, and the value compares with the literal as its operator says. */
  predicate Met(rule: Rule, variables: map<string, real>) {
    var c := rule.condition;
    && rule.active && c.variable in variables
    && var x := variables[c.variable];
       && (c.op.Ge? ==> x >= c.literal) && (c.op.Le? ==> x <= c.literal)
       && (c.op.Gt? ==> x > c.literal) && (c.op.Lt? ==> x < c.literal)
       && (c.op.Eq? ==> x == c.literal) && (c.op.Ne? ==> x != c.literal)
  }

  lemma MatchesExactlyWhen(rule: Rule, variables: map<string, real>)
    ensures Matches(rule, variables) <==> Met(rule, variables)
  {}

  /** The regime is one the rule is written for. */
  predicate Governs(rule: Rule, regime: Option<RegimeState>) {
    rule.guard.Some? ==> regime.Some? && regime.value in rule.guard.value.appliesIn
  }

  predicate Silenced(rule: Rule, regime: Option<RegimeState>) {
    !Governs(rule, regime) && rule.guard.value.otherwise.Suppress?
  }

  /** What a guard leaves of one effect: outside its regimes it is uncertain, and minor if it is downgraded. */
  function Guarded(rule: Rule, regime: Option<RegimeState>, e: Effect): Effect {
    if Governs(rule, regime) then e
    else Effect(e.asset, e.direction, if rule.guard.value.otherwise.DowngradeToMinor? then Minor else e.strength, e.horizon, true)
  }

  lemma {:induction false} SoftenedOneByOne(rule: Rule, regime: Option<RegimeState>, effects: seq<Effect>)
    requires !Governs(rule, regime) && !Silenced(rule, regime)
    ensures SoftenAll(rule.guard.value.otherwise, effects) == Each((e: Effect) => Guarded(rule, regime, e), effects)
  {
    var f := (e: Effect) => Guarded(rule, regime, e);
    if effects == [] {
      assert Each(f, effects) == [];
    } else {
      SoftenedOneByOne(rule, regime, effects[1..]);
      assert Each(f, effects) == [f(effects[0])] + Each(f, effects[1..]);
    }
  }

  /** A guard silences the rule, or leaves every effect, each by itself, in order. */
  lemma GuardsExactly(rule: Rule, regime: Option<RegimeState>)
    ensures GuardedEffects(rule, regime)
         == if Silenced(rule, regime) then [] else Each((e: Effect) => Guarded(rule, regime, e), rule.effects)
  {
    var f := (e: Effect) => Guarded(rule, regime, e);
    if Governs(rule, regime) {
      assert Each(f, rule.effects) == rule.effects;
    } else if !Silenced(rule, regime) {
      SoftenedOneByOne(rule, regime, rule.effects);
    }
  }

  // Candidates.

  /** How often a matching rule says the candidate. */
  function TimesSaid(rules: seq<Rule>, variables: map<string, real>, regime: Option<RegimeState>, c: Candidate): nat {
    if rules == [] then 0
    else
      var last := rules[|rules| - 1];
      TimesSaid(rules[..|rules| - 1], variables, regime, c)
      + if last.id == c.ruleId && Met(last, variables) && !Silenced(last, regime)
        then CountOf((e: Effect) => Guarded(last, regime, e) == c.effect, last.effects) else 0
  }

  predicate Is(c: Candidate, d: Candidate) { c == d }

  lemma {:induction false} LabelledTimes(effects: seq<Effect>, ruleId: string, c: Candidate)
    ensures CountOf((d: Candidate) => Is(c, d), Labelled(effects, ruleId))
         == if ruleId == c.ruleId then CountOf((e: Effect) => e == c.effect, effects) else 0
  {
    if effects != [] {
      LabelledTimes(effects[1..], ruleId, c);
      var p := (d: Candidate) => Is(c, d);
      var first := [Candidate(effects[0], ruleId)];
      CountOfConcat(p, first, Labelled(effects[1..], ruleId));
      assert first[1..] == [];
    }
  }

  lemma {:induction false} GuardedTimes(rule: Rule, regime: Option<RegimeState>, effects: seq<Effect>, c: Candidate)
    ensures CountOf((e: Effect) => e == c.effect, Each((e: Effect) => Guarded(rule, regime, e), effects))
         == CountOf((e: Effect) => Guarded(rule, regime, e) == c.effect, effects)
  {
    hide Guarded;
    var f := (e: Effect) => Guarded(rule, regime, e);
    if effects == [] {
      assert Each(f, effects) == [];
    } else {
      GuardedTimes(rule, regime, effects[1..], c);
      assert Each(f, effects)[1..] == Each(f, effects[1..]) && Each(f, effects)[0] == f(effects[0]);
    }
  }

  lemma BlockTimes(rule: Rule, variables: map<string, real>, regime: Option<RegimeState>, c: Candidate)
    ensures CountOf((d: Candidate) => Is(c, d), Block(rule, variables, regime))
         == if rule.id == c.ruleId && Met(rule, variables) && !Silenced(rule, regime)
            then CountOf((e: Effect) => Guarded(rule, regime, e) == c.effect, rule.effects) else 0
  {
    MatchesExactlyWhen(rule, variables);
    GuardsExactly(rule, regime);
    LabelledTimes(GuardedEffects(rule, regime), rule.id, c);
    hide GuardedEffects, Met, Matches, Silenced, Labelled, Guarded;
    GuardedTimes(rule, regime, rule.effects, c);
  }

  /** A candidate occurs exactly as often as the matching rules, under their guards, say it. */
  lemma {:induction false} CandidatesAreWhatRulesSay(rules: seq<Rule>, variables: map<string, real>, regime: Option<RegimeState>,
                                                    c: Candidate)
    ensures CountOf((d: Candidate) => Is(c, d), Candidates(rules, variables, regime)) == TimesSaid(rules, variables, regime, c)
  {
    hide Met, Matches, Silenced, Guarded, GuardedEffects, Labelled;
    if rules != [] {
      var front, last := rules[..|rules| - 1], rules[|rules| - 1];
      CandidatesAreWhatRulesSay(front, variables, regime, c);
      BlockTimes(last, variables, regime, c);
      CountOfConcat((d: Candidate) => Is(c, d), Candidates(front, variables, regime), Block(last, variables, regime));
    }
  }

  // Activated assets.

  /** A rule of the book is met and, under its guard, says something about the asset. */
  ghost predicate SpokenOf(rules: seq<Rule>, variables: map<string, real>, regime: Option<RegimeState>, asset: string) {
    exists i, k :: 0 <= i < |rules| && 0 <= k < |rules[i].effects|
      && Met(rules[i], variables) && !Silenced(rules[i], regime) && rules[i].effects[k].asset == asset
  }

  ghost predicate SaidBy(rule: Rule, variables: map<string, real>, regime: Option<RegimeState>, asset: string) {
    Met(rule, variables) && !Silenced(rule, regime) && exists k :: 0 <= k < |rule.effects| && rule.effects[k].asset == asset
  }

  lemma {:induction false} LabelledMembers(effects: seq<Effect>, ruleId: string, asset: string)
    ensures OnAsset(Labelled(effects, ruleId), asset) != [] <==> exists k :: 0 <= k < |effects| && effects[k].asset == asset
  {
    if effects != [] {
      LabelledMembers(effects[1..], ruleId, asset);
      if k :| 0 <= k < |effects| && effects[k].asset == asset {
        assert k > 0 ==> effects[1..][k - 1].asset == asset;
      }
      if k :| 0 <= k < |effects[1..]| && effects[1..][k].asset == asset {
        assert effects[k + 1].asset == asset;
      }
    }
  }

  lemma BlockSpeaks(rule: Rule, variables: map<string, real>, regime: Option<RegimeState>, asset: string)
    ensures OnAsset(Block(rule, variables, regime), asset) != [] <==> SaidBy(rule, variables, regime, asset)
  {
    MatchesExactlyWhen(rule, variables);
    GuardsExactly(rule, regime);
    var guarded := GuardedEffects(rule, regime);
    LabelledMembers(guarded, rule.id, asset);
    hide Met, Matches, GuardedEffects, Labelled, Silenced;
    if !Silenced(rule, regime) {
      assert forall k :: 0 <= k < |guarded| ==> guarded[k].asset == rule.effects[k].asset;
    }
  }

  lemma SpokenOfSnoc(front: seq<Rule>, last: Rule, variables: map<string, real>, regime: Option<RegimeState>, asset: string)
    ensures SpokenOf(front + [last], variables, regime, asset) <==>
      SpokenOf(front, variables, regime, asset) || SaidBy(last, variables, regime, asset)
  {
    hide Met, Silenced;
    var rules := front + [last];
    if SpokenOf(front, variables, regime, asset) {
      var i, k :| 0 <= i < |front| && 0 <= k < |front[i].effects|
        && Met(front[i], variables) && !Silenced(front[i], regime) && front[i].effects[k].asset == asset;
      assert rules[i] == front[i];
    }
    if SaidBy(last, variables, regime, asset) {
      var k :| 0 <= k < |last.effects| && last.effects[k].asset == asset;
      assert rules[|front|] == last;
    }
    if SpokenOf(rules, variables, regime, asset) && !SaidBy(last, variables, regime, asset) {
      var i, k :| 0 <= i < |rules| && 0 <= k < |rules[i].effects|
        && Met(rules[i], variables) && !Silenced(rules[i], regime) && rules[i].effects[k].asset == asset;
      assert i < |front|;
      assert front[i] == rules[i];
    }
  }

  lemma {:induction false} CandidatesSpeak(rules: seq<Rule>, variables: map<string, real>, regime: Option<RegimeState>, asset: string)
    ensures OnAsset(Candidates(rules, variables, regime), asset) != [] <==> SpokenOf(rules, variables, regime, asset)
  {
    hide Met, Matches, Silenced, GuardedEffects, Labelled, SpokenOf, SaidBy;
    if rules == [] {
      NobodySpeaks(variables, regime, asset);
    } else {
      var front, last := rules[..|rules| - 1], rules[|rules| - 1];
      CandidatesSpeak(front, variables, regime, asset);
      BlockSpeaks(last, variables, regime, asset);
      assert rules == front + [last];
      SpokenOfSnoc(front, last, variables, regime, asset);
      OnAssetConcat(Candidates(front, variables, regime), Block(last, variables, regime), asset);
    }
  }

  lemma NobodySpeaks(variables: map<string, real>, regime: Option<RegimeState>, asset: string)
    ensures !SpokenOf([], variables, regime, asset)
  {}

  /**
   * An asset is activated exactly when some active rule of the book has its condition met by the last
   * surprises and, under its guard, an effect on that asset.
   */
  lemma ActivatedExactlyWhen(book: Rulebook, events: seq<EventFeature>, regime: Option<RegimeState>, asset: string)
    ensures asset in MatchRules(book, events, regime).activations <==>
      SpokenOf(book.rules, ConditionVars(events), regime, asset)
  {
    hide Met, Silenced, SpokenOf, Candidates, OnAsset, ActivationsOn, ConditionVars, MatchRules, Resolve;
    MatchMembers(book, events, regime);
    CandidatesSpeak(book.rules, ConditionVars(events), regime, asset);
  }

  /** Decay over the hours to the event that set the rule off, none without an event. */
  predicate DecaysAs(book: Rulebook, events: seq<EventFeature>, rule: Rule, a: Activation) {
    var byType := EventByType(events);
    var hours := if rule.eventType.Some? && rule.eventType.value in byType then Abs(byType[rule.eventType.value].proximityHours) else 0.0;
    && a.decayRemaining == Round4(MaxReal(0.0, MinReal(1.0, book.decay(hours, rule.halfLifeHours))))
    && a.condition == rule.condition
  }

  /**
   * With unique ids an activated asset has one activation, of a rule of the book that is met: it names
   * the last event of the rule's type, decays with the distance to it, and says what resolving the
   * candidates on the asset says.
   */
  lemma ActivationIsOfItsRule(book: Rulebook, events: seq<EventFeature>, regime: Option<RegimeState>, asset: string)
    returns (rule: Rule)
    requires UniqueIds(book.rules) && asset in MatchRules(book, events, regime).activations
    ensures var acts := MatchRules(book, events, regime).activations[asset];
      var r := Resolve(asset, OnAsset(Candidates(book.rules, ConditionVars(events), regime), asset));
      && |acts| == 1 && rule in book.rules && Met(rule, ConditionVars(events))
      && Justifies(rule, events, acts[0]) && Expresses(acts[0], r, asset) && DecaysAs(book, events, rule, acts[0])
      && !r.Nothing? && r.effect.sourceRuleId == rule.id
  {
    hide Candidates, ConditionVars, MatchRules, OnAsset, Resolve, Matches, Met, EventByType, ActivationsOn, Justifies, Expresses,
      DecaysAs, RuleById;
    var candidates := Candidates(book.rules, ConditionVars(events), regime);
    MatchMembers(book, events, regime);
    ActivationsAreJustified(book, events, regime, asset);
    var acts := ActivationsOn(book, events, candidates, asset);
    assert acts[0] in acts;
    rule :| rule in book.rules && Justifies(rule, events, acts[0]);
    JustifyingRule(rule, events, acts[0]);
    TheActivation(book, events, candidates, asset, rule);
  }

  lemma JustifyingRule(rule: Rule, events: seq<EventFeature>, a: Activation)
    requires Justifies(rule, events, a)
    ensures a.ruleId == rule.id && Met(rule, ConditionVars(events))
  {
    hide ConditionVars, EventFor, AboutOwnEvent;
    MatchesExactlyWhen(rule, ConditionVars(events));
  }

  lemma TheActivation(book: Rulebook, events: seq<EventFeature>, candidates: seq<Candidate>, asset: string, rule: Rule)
    requires UniqueIds(book.rules) && rule in book.rules
    requires var acts := ActivationsOn(book, events, candidates, asset); acts != [] && acts[0].ruleId == rule.id
    ensures var acts, r := ActivationsOn(book, events, candidates, asset), Resolve(asset, OnAsset(candidates, asset));
      |acts| == 1 && DecaysAs(book, events, rule, acts[0]) && !r.Nothing? && r.effect.sourceRuleId == rule.id
  {
    hide Resolve, OnAsset, RuleById, UniqueIds, EventByType, RoundHalfEven;
    var r := Resolve(asset, OnAsset(candidates, asset));
    RuleByIdNone(book.rules, r.effect.sourceRuleId);
    RuleByIdFinds(book.rules, rule);
  }
}
