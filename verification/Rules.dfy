/** One effect per asset out of all that apply: the strongest wins, an even contest is neutral. */
module Conflict {
  import opened Common
  import opened Folds
  import opened Sorting
  import TextOrder

  datatype Direction = Bullish | Bearish | Neutral

  datatype Strength = Minor | Moderate | Major | Dominant

  datatype Effect = Effect(asset: string, direction: Direction, strength: Strength, horizon: string, uncertain: bool)

  datatype Candidate = Candidate(effect: Effect, ruleId: string)

  datatype ResolvedEffect = ResolvedEffect(
    asset: string,
    direction: Direction,
    strength: Strength,
    horizon: string,
    uncertain: bool,
    sourceRuleId: string)

  datatype Resolution = Nothing | Settled(effect: ResolvedEffect) | Contested(effect: ResolvedEffect)

  function Rank(s: Strength): nat {
    match s
    case Minor => 1
    case Moderate => 2
    case Major => 3
    case Dominant => 4
  }

  /** Weaker, or as strong with a smaller rule id. */
  predicate Yields(a: Candidate, b: Candidate) {
    Rank(a.effect.strength) < Rank(b.effect.strength)
    || (Rank(a.effect.strength) == Rank(b.effect.strength) && TextOrder.Leq(a.ruleId, b.ruleId))
  }

  function Directions(candidates: seq<Candidate>): set<Direction> {
    set c | c in candidates && !c.effect.direction.Neutral? :: c.effect.direction
  }

  function TopDirections(candidates: seq<Candidate>, top: nat): set<Direction> {
    set c | c in candidates && Rank(c.effect.strength) == top && !c.effect.direction.Neutral? :: c.effect.direction
  }

  function Resolved(asset: string, winner: Candidate): ResolvedEffect {
    ResolvedEffect(asset, winner.effect.direction, winner.effect.strength, winner.effect.horizon, winner.effect.uncertain,
                   winner.ruleId)
  }

  function Resolve(asset: string, candidates: seq<Candidate>): Resolution {
    if candidates == [] then Nothing
    else
      var winner := Best(Yields, candidates);
      if |Directions(candidates)| <= 1 then Settled(Resolved(asset, winner))
      else if |TopDirections(candidates, Rank(winner.effect.strength))| > 1
      then Contested(Resolved(asset, winner).(direction := Neutral, uncertain := true))
      else Settled(Resolved(asset, winner))
  }

  lemma YieldsIsTotal()
    ensures TotalPreorder(Yields)
  {
    forall a, b ensures Yields(a, b) || Yields(b, a) {
      TextOrder.Total(a.ruleId, b.ruleId);
    }
    forall a, b, c | Yields(a, b) && Yields(b, c) ensures Yields(a, c) {
      if Rank(a.effect.strength) == Rank(b.effect.strength) == Rank(c.effect.strength) {
        TextOrder.Transitive(a.ruleId, b.ruleId, c.ruleId);
      }
    }
  }

  /** Candidates of equal strength come from different rules. */
  ghost predicate DistinctSources(candidates: seq<Candidate>) {
    forall a, b :: a in candidates && b in candidates && a.effect.strength == b.effect.strength && a.ruleId == b.ruleId ==> a == b
  }

  /** The outcome does not depend on the order in which rules were matched. */
  lemma ResolveForgetsOrder(asset: string, a: seq<Candidate>, b: seq<Candidate>)
    requires multiset(a) == multiset(b) && DistinctSources(a)
    ensures Resolve(asset, a) == Resolve(asset, b)
  {
    assert |a| == |multiset(a)| && |b| == |multiset(b)|;
    if a != [] {
      YieldsIsTotal();
      forall x, y | x in a && y in a && Yields(x, y) && Yields(y, x) ensures x == y {
        TextOrder.Antisymmetric(x.ruleId, y.ruleId);
      }
      BestForgetsOrder(Yields, a, b);
      SameMembers(a, b);
      var top := Rank(Best(Yields, a).effect.strength);
      assert Directions(a) == Directions(b) && TopDirections(a, top) == TopDirections(b, top);
    }
  }

  predicate FromRule(c: Candidate, id: string) { c.ruleId == id }

  /** What one rule says, in its own order. */
  function OfRule(candidates: seq<Candidate>, id: string): seq<Candidate> {
    Keep((c: Candidate) => FromRule(c, id), candidates)
  }

  lemma OfRuleSnoc(front: seq<Candidate>, last: Candidate, id: string)
    ensures OfRule(front + [last], id) == OfRule(front, id) + if last.ruleId == id then [last] else []
  {
    var p := (c: Candidate) => FromRule(c, id);
    KeepConcat(p, front, [last]);
    assert Keep(p, [last]) == (if p([last][0]) then [[last][0]] else []) + Keep(p, [last][1..]);
    assert [last][1..] == [] && Keep(p, []) == [];
  }

  lemma BestSnoc(front: seq<Candidate>, last: Candidate)
    ensures Best(Yields, front + [last]) ==
      if front == [] then last else if Yields(last, Best(Yields, front)) then Best(Yields, front) else last
  {
    assert (front + [last])[..|front|] == front;
  }

  lemma OfRuleMembers(candidates: seq<Candidate>, id: string)
    ensures forall c :: c in OfRule(candidates, id) <==> c in candidates && c.ruleId == id
  {
    KeepKept((c: Candidate) => FromRule(c, id), candidates);
  }

  /** The winner is the winner among what its own rule says. */
  lemma {:induction false} BestOfItsRule(candidates: seq<Candidate>)
    requires candidates != []
    ensures var winner := Best(Yields, candidates);
      OfRule(candidates, winner.ruleId) != [] && Best(Yields, OfRule(candidates, winner.ruleId)) == winner
  {
    hide Yields, OfRule;
    var front, last := candidates[..|candidates| - 1], candidates[|candidates| - 1];
    assert candidates == front + [last];
    BestSnoc(front, last);
    if front == [] {
      OfRuleMembers([], last.ruleId);
      SomeMember(OfRule([], last.ruleId));
      OfRuleSnoc(front, last, last.ruleId);
    } else {
      var best := Best(Yields, front);
      OfRuleSnoc(front, last, best.ruleId);
      BestSnoc(OfRule(front, best.ruleId), last);
      BestOfItsRule(front);
      assert OfRule(front, best.ruleId) + [] == OfRule(front, best.ruleId);
      if !Yields(last, best) {
        LastOfItsRule(front, last);
      }
    }
  }

  lemma LastOfItsRule(front: seq<Candidate>, last: Candidate)
    requires front != [] && !Yields(last, Best(Yields, front))
    ensures var own := OfRule(front + [last], last.ruleId); own != [] && Best(Yields, own) == last
  {
    hide Yields, OfRule;
    OfRuleSnoc(front, last, last.ruleId);
    var before := OfRule(front, last.ruleId);
    BestSnoc(before, last);
    if before != [] {
      YieldsIsTotal();
      BestIsMaximal(Yields, before);
      BestIsMaximal(Yields, front);
      OfRuleMembers(front, last.ruleId);
      var own := Best(Yields, before);
      var i :| 0 <= i < |front| && front[i] == own;
      assert Yields(front[i], Best(Yields, front));
      assert !Yields(last, own);
    }
  }

  /** The same candidates, those of each rule in the same order. */
  ghost predicate SameByRule(a: seq<Candidate>, b: seq<Candidate>) {
    forall id :: OfRule(a, id) == OfRule(b, id)
  }

  lemma SameByRuleMembers(a: seq<Candidate>, b: seq<Candidate>)
    requires SameByRule(a, b)
    ensures forall c :: c in a <==> c in b
  {
    forall c ensures c in a <==> c in b {
      OfRuleMembers(a, c.ruleId);
      OfRuleMembers(b, c.ruleId);
      assert OfRule(a, c.ruleId) == OfRule(b, c.ruleId);
    }
  }

  /** Rearranging the rules, whatever each of them says, does not change the outcome. */
  lemma ResolveForgetsRuleOrder(asset: string, a: seq<Candidate>, b: seq<Candidate>)
    requires SameByRule(a, b)
    ensures Resolve(asset, a) == Resolve(asset, b)
  {
    hide OfRule;
    SameByRuleMembers(a, b);
    SomeMember(a);
    SomeMember(b);
    if a != [] {
      YieldsIsTotal();
      BestIsMaximal(Yields, a);
      BestIsMaximal(Yields, b);
      var x, y := Best(Yields, a), Best(Yields, b);
      var i :| 0 <= i < |b| && b[i] == x;
      var j :| 0 <= j < |a| && a[j] == y;
      assert Yields(x, y) && Yields(y, x);
      TextOrder.Antisymmetric(x.ruleId, y.ruleId);
      BestOfItsRule(a);
      BestOfItsRule(b);
      assert OfRule(a, x.ruleId) == OfRule(b, x.ruleId);
      var top := Rank(x.effect.strength);
      assert Directions(a) == Directions(b) && TopDirections(a, top) == TopDirections(b, top);
    }
  }

  lemma SameMembers(a: seq<Candidate>, b: seq<Candidate>)
    requires multiset(a) == multiset(b)
    ensures forall c :: c in a <==> c in b
  {
    forall c ensures c in a <==> c in b {
      assert c in a <==> c in multiset(a);
      assert c in b <==> c in multiset(b);
    }
  }

  predicate AtTop(candidates: seq<Candidate>, c: Candidate) {
    c in candidates && forall d :: d in candidates ==> Rank(d.effect.strength) <= Rank(c.effect.strength)
  }

  /** Some effect of the greatest strength points this way. */
  ghost predicate PointsAtTop(candidates: seq<Candidate>, direction: Direction) {
    exists c :: AtTop(candidates, c) && c.effect.direction == direction
  }

  /**
   * What wins: an effect is chosen whenever there is a candidate, always of the greatest strength
   * present; it is contested, and then neutral and uncertain, exactly when effects of that strength
   * point both ways; otherwise it is, as it stands, the top candidate with the greatest rule id.
   */
  lemma StrongestWins(asset: string, candidates: seq<Candidate>)
    requires candidates != []
    ensures var r := Resolve(asset, candidates);
      && !r.Nothing? && r.effect.asset == asset
      && (r.Contested? <==> PointsAtTop(candidates, Bullish) && PointsAtTop(candidates, Bearish))
      && (r.Contested? ==> r.effect.direction.Neutral? && r.effect.uncertain)
      && exists c :: AtTop(candidates, c) && r.effect.strength == c.effect.strength && r.effect.sourceRuleId == c.ruleId
           && (r.Settled? ==> r.effect == Resolved(asset, c))
           && forall d :: AtTop(candidates, d) ==> TextOrder.Leq(d.ruleId, c.ruleId)
  {
    YieldsIsTotal();
    BestIsMaximal(Yields, candidates);
    var winner := Best(Yields, candidates);
    var top := Rank(winner.effect.strength);
    assert forall d :: d in candidates ==> Yields(d, winner);
    assert AtTop(candidates, winner);
    forall d | AtTop(candidates, d) ensures TextOrder.Leq(d.ruleId, winner.ruleId) {
      assert Yields(d, winner);
    }
    ContestedMeans(candidates, winner);
  }

  ghost predicate SomeStrength(candidates: seq<Candidate>, s: Strength) { exists c :: c in candidates && c.effect.strength == s }

  /** The outcome is as strong as the strongest candidate: dominant before major before moderate before minor. */
  lemma StrengthPrevails(asset: string, candidates: seq<Candidate>)
    requires candidates != []
    ensures var r := Resolve(asset, candidates);
      && !r.Nothing?
      && r.effect.strength ==
           if SomeStrength(candidates, Dominant) then Dominant
           else if SomeStrength(candidates, Major) then Major
           else if SomeStrength(candidates, Moderate) then Moderate else Minor
  {
    StrongestWins(asset, candidates);
    hide Resolve;
    var r := Resolve(asset, candidates);
    var c :| AtTop(candidates, c) && r.effect.strength == c.effect.strength;
    assert SomeStrength(candidates, c.effect.strength);
    forall s | SomeStrength(candidates, s) ensures Rank(s) <= Rank(c.effect.strength) {
      var d :| d in candidates && d.effect.strength == s;
    }
  }

  lemma TwoDirections(directions: set<Direction>)
    requires Neutral !in directions
    ensures |directions| > 1 <==> Bullish in directions && Bearish in directions
  {
    forall d | d in directions ensures d == Bullish || d == Bearish {
      assert d.Bullish? || d.Bearish? || d.Neutral?;
    }
    if Bullish in directions && Bearish in directions {
      assert directions == {Bullish, Bearish};
    } else if Bullish in directions {
      assert directions == {Bullish};
    } else if Bearish in directions {
      assert directions == {Bearish};
    } else {
      assert directions == {};
    }
  }

  lemma ContestedMeans(candidates: seq<Candidate>, winner: Candidate)
    requires candidates != [] && winner == Best(Yields, candidates) && AtTop(candidates, winner)
    ensures |Directions(candidates)| > 1 && |TopDirections(candidates, Rank(winner.effect.strength))| > 1
       <==> PointsAtTop(candidates, Bullish) && PointsAtTop(candidates, Bearish)
  {
    var top := Rank(winner.effect.strength);
    TwoDirections(Directions(candidates));
    TwoDirections(TopDirections(candidates, top));
    assert TopDirections(candidates, top) <= Directions(candidates);
    assert forall c :: AtTop(candidates, c) <==> c in candidates && Rank(c.effect.strength) == top;
  }
}

/** Matching rules against event surprises, guarding them by regime, and resolving what they say. */
module RuleEngine {
  import opened Common
  import opened Rounding
  import opened Conflict
  import opened Folds
  import opened Sorting
  import opened Regimes

  datatype Op = Ge | Le | Eq | Ne | Gt | Lt

  /** A parsed condition: a variable compared with a literal. */
  datatype Condition = Condition(variable: string, op: Op, literal: real)

  datatype ElsePolicy = Suppress | DowngradeToMinor | FlagUncertain

  datatype Guard = Guard(appliesIn: set<RegimeState>, otherwise: ElsePolicy)

  datatype Rule = Rule(
    id: string,
    active: bool,
    eventType: Option<EventType>,
    condition: Condition,
    effects: seq<Effect>,
    guard: Option<Guard>,
    halfLifeHours: real)

  datatype Activation = Activation(
    asset: string,
    ruleId: string,
    strength: Strength,
    horizon: string,
    decayRemaining: real,
    direction: Direction,
    eventId: Option<string>,
    condition: Condition)

  /** A rulebook, with half-life decay as a function of elapsed hours and half-life. */
  datatype Rulebook = Rulebook(rules: seq<Rule>, decay: (real, real) -> real)

  // Conditions.

  const CPI_ALIAS := "surprise_core_mom"

  function VariableOf(t: EventType): string { "surprise_" + Token(t) }

  function ConditionVars(events: seq<EventFeature>): map<string, real> {
    if events == [] then map[]
    else
      var before, last := ConditionVars(events[..|events| - 1]), events[|events| - 1];
      var named := before[VariableOf(last.eventType) := last.surprise];
      if last.eventType.UsCpi? then named[CPI_ALIAS := last.surprise] else named
  }

  method BuildConditionVars(events: seq<EventFeature>) returns (variables: map<string, real>)
    ensures variables == ConditionVars(events)
  {
    variables := map[];
    for i := 0 to |events|
      invariant variables == ConditionVars(events[..i])
    {
      assert events[..i + 1][..i] == events[..i];
      variables := variables[VariableOf(events[i].eventType) := events[i].surprise];
      if events[i].eventType.UsCpi? {
        variables := variables[CPI_ALIAS := events[i].surprise];
      }
    }
    assert events[..|events|] == events;
  }

  /** The event each type maps to: the last of its type. */
  function EventByType(events: seq<EventFeature>): map<EventType, EventFeature> {
    if events == [] then map[]
    else EventByType(events[..|events| - 1])[events[|events| - 1].eventType := events[|events| - 1]]
  }

  predicate Compare(op: Op, a: real, b: real) {
    match op
    case Ge => a >= b
    case Le => a <= b
    case Eq => a == b
    case Ne => a != b
    case Gt => a > b
    case Lt => a < b
  }

  /** A variable nothing has set matches no condition. */
  predicate Matches(rule: Rule, variables: map<string, real>) {
    && rule.active
    && rule.condition.variable in variables
    && Compare(rule.condition.op, variables[rule.condition.variable], rule.condition.literal)
  }

  // Guards.

  function Soften(policy: ElsePolicy, effect: Effect): Effect
    requires !policy.Suppress?
  {
    if policy.DowngradeToMinor? then effect.(strength := Minor, uncertain := true) else effect.(uncertain := true)
  }

  function SoftenAll(policy: ElsePolicy, effects: seq<Effect>): seq<Effect>
    requires !policy.Suppress?
  {
    if effects == [] then [] else [Soften(policy, effects[0])] + SoftenAll(policy, effects[1..])
  }

  function GuardedEffects(rule: Rule, regime: Option<RegimeState>): seq<Effect> {
    if rule.guard.None? || (regime.Some? && regime.value in rule.guard.value.appliesIn) then rule.effects
    else if rule.guard.value.otherwise.Suppress? then []
    else SoftenAll(rule.guard.value.otherwise, rule.effects)
  }

  /** The same statement, no stronger and no more certain. */
  predicate NoStronger(guarded: Effect, effect: Effect) {
    && guarded.asset == effect.asset && guarded.direction == effect.direction && guarded.horizon == effect.horizon
    && Rank(guarded.strength) <= Rank(effect.strength) && (effect.uncertain ==> guarded.uncertain)
  }

  lemma {:induction false} SoftenNeverStrengthens(policy: ElsePolicy, effects: seq<Effect>)
    requires !policy.Suppress?
    ensures |SoftenAll(policy, effects)| == |effects|
    ensures forall i :: 0 <= i < |effects| ==>
      NoStronger(SoftenAll(policy, effects)[i], effects[i]) && SoftenAll(policy, effects)[i].uncertain
  {
    if effects != [] {
      SoftenNeverStrengthens(policy, effects[1..]);
    }
  }

  predicate Applies(rule: Rule, regime: Option<RegimeState>) {
    rule.guard.None? || (regime.Some? && regime.value in rule.guard.value.appliesIn)
  }

  /**
   * A guard can drop everything a rule says or weaken all of it, never strengthen or turn it; it
   * leaves the rule alone where it applies, and elsewhere nothing remains certain.
   */
  lemma GuardNeverStrengthens(rule: Rule, regime: Option<RegimeState>)
    ensures var guarded := GuardedEffects(rule, regime);
      && (guarded == [] || |guarded| == |rule.effects|)
      && (forall i :: 0 <= i < |guarded| ==> NoStronger(guarded[i], rule.effects[i]))
      && (Applies(rule, regime) ==> guarded == rule.effects)
      && (!Applies(rule, regime) ==> forall i :: 0 <= i < |guarded| ==> guarded[i].uncertain)
  {
    if !Applies(rule, regime) && !rule.guard.value.otherwise.Suppress? {
      SoftenNeverStrengthens(rule.guard.value.otherwise, rule.effects);
    }
  }

  // Matching.

  function Labelled(effects: seq<Effect>, ruleId: string): seq<Candidate> {
    if effects == [] then [] else [Candidate(effects[0], ruleId)] + Labelled(effects[1..], ruleId)
  }

  /** All candidate effects of the matching rules, in rulebook order. */
  function Candidates(rules: seq<Rule>, variables: map<string, real>, regime: Option<RegimeState>): seq<Candidate> {
    if rules == [] then []
    else
      var last := rules[|rules| - 1];
      Candidates(rules[..|rules| - 1], variables, regime)
      + if Matches(last, variables) then Labelled(GuardedEffects(last, regime), last.id) else []
  }

  function OnAsset(candidates: seq<Candidate>, asset: string): seq<Candidate> {
    if candidates == [] then []
    else (if candidates[0].effect.asset == asset then [candidates[0]] else []) + OnAsset(candidates[1..], asset)
  }

  /** The assets the candidates name, in order of first mention. */
  function AssetsNamed(candidates: seq<Candidate>): seq<string> {
    if candidates == [] then []
    else
      var before, last := AssetsNamed(candidates[..|candidates| - 1]), candidates[|candidates| - 1].effect.asset;
      if last in before then before else before + [last]
  }

  function RuleById(rules: seq<Rule>, id: string): Option<Rule> {
    if rules == [] then None
    else if rules[|rules| - 1].id == id then Some(rules[|rules| - 1])
    else RuleById(rules[..|rules| - 1], id)
  }

  function EventFor(rule: Rule, events: seq<EventFeature>): Option<EventFeature> {
    var byType := EventByType(events);
    if rule.eventType.Some? && rule.eventType.value in byType then Some(byType[rule.eventType.value]) else None
  }

  function ToActivation(book: Rulebook, asset: string, effect: ResolvedEffect, rule: Rule,
                        event: Option<EventFeature>): Activation {
    var elapsed := if event.Some? then Abs(event.value.proximityHours) else 0.0;
    Activation(asset, rule.id, effect.strength, effect.horizon,
               Round4(Clamp(book.decay(elapsed, rule.halfLifeHours), 0.0, 1.0)), effect.direction,
               if event.Some? then Some(event.value.eventId) else None, rule.condition)
  }

  /** The activations of one asset, given all candidates: at most one. */
  function ActivationsOn(book: Rulebook, events: seq<EventFeature>, candidates: seq<Candidate>,
                         asset: string): seq<Activation> {
    var r := Resolve(asset, OnAsset(candidates, asset));
    if r.Nothing? then []
    else
      var rule := RuleById(book.rules, r.effect.sourceRuleId);
      if rule.None? then [] else [ToActivation(book, asset, r.effect, rule.value, EventFor(rule.value, events))]
  }

  datatype MatchResult = MatchResult(activations: map<string, seq<Activation>>, conflicts: seq<string>)

  /** Activations and contested assets of the first `n` named assets. */
  function Settle(book: Rulebook, events: seq<EventFeature>, candidates: seq<Candidate>,
                  assets: seq<string>): MatchResult {
    if assets == [] then MatchResult(map[], [])
    else
      var before := Settle(book, events, candidates, assets[..|assets| - 1]);
      var asset := assets[|assets| - 1];
      MatchResult(
        before.activations[asset := ActivationsOn(book, events, candidates, asset)],
        before.conflicts + if Resolve(asset, OnAsset(candidates, asset)).Contested? then [asset] else [])
  }

  function MatchRules(book: Rulebook, events: seq<EventFeature>, regime: Option<RegimeState>): MatchResult {
    var candidates := Candidates(book.rules, ConditionVars(events), regime);
    Settle(book, events, candidates, AssetsNamed(candidates))
  }

  method Match(book: Rulebook, events: seq<EventFeature>, regime: Option<RegimeState>) returns (r: MatchResult)
    ensures r == MatchRules(book, events, regime)
  {
    hide Matches, Labelled, GuardedEffects, ActivationsOn, Resolve, OnAsset, AssetsNamed;
    var variables := BuildConditionVars(events);
    var candidates: seq<Candidate> := [];
    for i := 0 to |book.rules|
      invariant candidates == Candidates(book.rules[..i], variables, regime)
    {
      assert book.rules[..i + 1][..i] == book.rules[..i];
      if Matches(book.rules[i], variables) {
        candidates := candidates + Labelled(GuardedEffects(book.rules[i], regime), book.rules[i].id);
      }
    }
    assert book.rules[..|book.rules|] == book.rules;
    var assets := AssetsNamed(candidates);
    r := MatchResult(map[], []);
    for i := 0 to |assets|
      invariant r == Settle(book, events, candidates, assets[..i])
    {
      assert assets[..i + 1][..i] == assets[..i];
      var contested := Resolve(assets[i], OnAsset(candidates, assets[i])).Contested?;
      r := MatchResult(r.activations[assets[i] := ActivationsOn(book, events, candidates, assets[i])],
                       r.conflicts + if contested then [assets[i]] else []);
    }
    assert assets[..|assets|] == assets;
  }

  // Attribution.

  lemma VariablesAreDistinct(s: EventType, t: EventType)
    ensures VariableOf(s) == VariableOf(t) <==> s == t
    ensures VariableOf(s) != CPI_ALIAS
  {
    assert VariableOf(s)[9..] == Token(s) && VariableOf(t)[9..] == Token(t);
    assert CPI_ALIAS[9] == 'c';
    assert VariableOf(s)[9] == Token(s)[0];
    assert Token(UsCpi)[3] == 'c' && Token(UsNfp)[3] == 'n';
  }

  /** Both lookups keep the last event of a type, so they speak of the same event. */
  lemma {:induction false} LookupsAgree(events: seq<EventFeature>, t: EventType)
    ensures VariableOf(t) in ConditionVars(events) <==> t in EventByType(events)
    ensures t in EventByType(events) ==>
      && EventByType(events)[t] in events && EventByType(events)[t].eventType == t
      && ConditionVars(events)[VariableOf(t)] == EventByType(events)[t].surprise
    ensures CPI_ALIAS in ConditionVars(events) <==> UsCpi in EventByType(events)
    ensures UsCpi in EventByType(events) ==> ConditionVars(events)[CPI_ALIAS] == EventByType(events)[UsCpi].surprise
  {
    if events != [] {
      var front, last := events[..|events| - 1], events[|events| - 1];
      LookupsAgree(front, t);
      VariablesAreDistinct(last.eventType, t);
    }
  }

  /** The rule's condition is about the surprise of its own event type, by name or by the CPI alias. */
  predicate AboutOwnEvent(rule: Rule) {
    && rule.eventType.Some?
    && (rule.condition.variable == VariableOf(rule.eventType.value)
        || (rule.eventType.value.UsCpi? && rule.condition.variable == CPI_ALIAS))
  }

  /**
   * When a rule about its own event type matches, the event its activation names is one of the run's
   * events, of that type, and its surprise is what satisfied the condition, however many events of
   * the type there are.
   */
  lemma AttributedEventSatisfiesCondition(rule: Rule, events: seq<EventFeature>)
    requires AboutOwnEvent(rule) && Matches(rule, ConditionVars(events))
    ensures var event := EventFor(rule, events);
      && event.Some? && event.value in events && event.value.eventType == rule.eventType.value
      && Compare(rule.condition.op, event.value.surprise, rule.condition.literal)
  {
    LookupsAgree(events, rule.eventType.value);
  }

  lemma {:induction false} CandidateComesFromMatch(rules: seq<Rule>, variables: map<string, real>,
                                                   regime: Option<RegimeState>, c: Candidate)
    requires c in Candidates(rules, variables, regime)
    ensures exists rule :: rule in rules && rule.id == c.ruleId && Matches(rule, variables)
  {
    var front, last := rules[..|rules| - 1], rules[|rules| - 1];
    if c in Candidates(front, variables, regime) {
      CandidateComesFromMatch(front, variables, regime, c);
    } else {
      LabelledIds(GuardedEffects(last, regime), last.id, c);
    }
  }

  lemma {:induction false} LabelledIds(effects: seq<Effect>, ruleId: string, c: Candidate)
    requires c in Labelled(effects, ruleId)
    ensures c.ruleId == ruleId
  {
    if c != Candidate(effects[0], ruleId) {
      LabelledIds(effects[1..], ruleId, c);
    }
  }

  lemma {:induction false} OnAssetMembers(candidates: seq<Candidate>, asset: string)
    ensures forall c :: c in OnAsset(candidates, asset) <==> c in candidates && c.effect.asset == asset
  {
    if candidates != [] {
      OnAssetMembers(candidates[1..], asset);
      assert candidates == [candidates[0]] + candidates[1..];
    }
  }

  ghost predicate UniqueIds(rules: seq<Rule>) {
    forall i, j :: 0 <= i < j < |rules| ==> rules[i].id != rules[j].id
  }

  lemma {:induction false} RuleByIdFinds(rules: seq<Rule>, rule: Rule)
    requires UniqueIds(rules) && rule in rules
    ensures RuleById(rules, rule.id) == Some(rule)
  {
    if rules[|rules| - 1] != rule {
      var k :| 0 <= k < |rules| && rules[k] == rule;
      assert rules[..|rules| - 1][k] == rule;
      RuleByIdFinds(rules[..|rules| - 1], rule);
    }
  }

  /** The rule matched, and the activation names it and the event of its type. */
  predicate Justifies(rule: Rule, events: seq<EventFeature>, a: Activation) {
    && a.ruleId == rule.id && Matches(rule, ConditionVars(events))
    && a.eventId == (if EventFor(rule, events).Some? then Some(EventFor(rule, events).value.eventId) else None)
    && (AboutOwnEvent(rule) ==> a.eventId.Some?)
  }

  /** The activation is the resolved effect on its asset, with what is left of it after decay. */
  predicate Expresses(a: Activation, r: Resolution, asset: string) {
    && !r.Nothing? && a.asset == asset
    && a.direction == r.effect.direction && a.strength == r.effect.strength && a.horizon == r.effect.horizon
    && 0.0 <= a.decayRemaining <= 1.0
  }

  lemma ActivationExpresses(book: Rulebook, asset: string, r: Resolution, rule: Rule, event: Option<EventFeature>)
    requires !r.Nothing?
    ensures Expresses(ToActivation(book, asset, r.effect, rule, event), r, asset)
  {
    var elapsed := if event.Some? then Abs(event.value.proximityHours) else 0.0;
    Round4StaysWithin(Clamp(book.decay(elapsed, rule.halfLifeHours), 0.0, 1.0), 0, 1);
  }

  /**
   * Every activation is the resolved effect of a matching rule of the book, and names the event of the rule's type; with
   * the attribution law above, an event-typed activation is never pinned on the wrong event.
   */
  lemma ActivationsAreJustified(book: Rulebook, events: seq<EventFeature>, regime: Option<RegimeState>, asset: string)
    requires UniqueIds(book.rules)
    ensures var candidates := Candidates(book.rules, ConditionVars(events), regime);
      var acts := ActivationsOn(book, events, candidates, asset);
      && (acts == [] <==> OnAsset(candidates, asset) == [])
      && |acts| <= 1
      && (forall a :: a in acts ==> exists rule :: rule in book.rules && Justifies(rule, events, a))
      && (forall a :: a in acts ==> Expresses(a, Resolve(asset, OnAsset(candidates, asset)), asset))
  {
    var variables := ConditionVars(events);
    var candidates := Candidates(book.rules, variables, regime);
    var here := OnAsset(candidates, asset);
    if here != [] {
      StrongestWins(asset, here);
      var r := Resolve(asset, here);
      var c :| AtTop(here, c) && r.effect.sourceRuleId == c.ruleId;
      OnAssetMembers(candidates, asset);
      CandidateComesFromMatch(book.rules, variables, regime, c);
      var rule :| rule in book.rules && rule.id == c.ruleId && Matches(rule, variables);
      RuleByIdFinds(book.rules, rule);
      if AboutOwnEvent(rule) {
        AttributedEventSatisfiesCondition(rule, events);
      }
      ActivationExpresses(book, asset, r, rule, EventFor(rule, events));
      var act := ActivationsOn(book, events, candidates, asset)[0];
      assert Justifies(rule, events, act);
    }
  }

  // Order of the rulebook.

  /** The candidates one rule contributes. */
  function Block(rule: Rule, variables: map<string, real>, regime: Option<RegimeState>): seq<Candidate> {
    if Matches(rule, variables) then Labelled(GuardedEffects(rule, regime), rule.id) else []
  }

  lemma {:induction false} OnAssetConcat(a: seq<Candidate>, b: seq<Candidate>, asset: string)
    ensures OnAsset(a + b, asset) == OnAsset(a, asset) + OnAsset(b, asset)
  {
    if a == [] {
      assert a + b == b;
    } else {
      OnAssetConcat(a[1..], b, asset);
      assert (a + b)[1..] == a[1..] + b && (a + b)[0] == a[0];
      var first, rest, more := if a[0].effect.asset == asset then [a[0]] else [], OnAsset(a[1..], asset), OnAsset(b, asset);
      assert OnAsset(a, asset) == first + rest && OnAsset(a + b, asset) == first + (rest + more);
      hide OnAsset;
      assert first + (rest + more) == first + rest + more;
    }
  }

  lemma OfRuleConcat(a: seq<Candidate>, b: seq<Candidate>, id: string)
    ensures OfRule(a + b, id) == OfRule(a, id) + OfRule(b, id)
  {
    KeepConcat((c: Candidate) => FromRule(c, id), a, b);
  }

  lemma OfRuleAll(candidates: seq<Candidate>, id: string)
    requires forall c :: c in candidates ==> c.ruleId == id
    ensures OfRule(candidates, id) == candidates
  {
    KeepAll((c: Candidate) => FromRule(c, id), candidates);
  }

  lemma OfRuleNone(candidates: seq<Candidate>, id: string)
    requires forall c :: c in candidates ==> c.ruleId != id
    ensures OfRule(candidates, id) == []
  {
    KeepKept((c: Candidate) => FromRule(c, id), candidates);
    SomeMember(OfRule(candidates, id));
  }

  lemma BlockIds(rule: Rule, variables: map<string, real>, regime: Option<RegimeState>, asset: string)
    ensures forall c :: c in OnAsset(Block(rule, variables, regime), asset) ==> c.ruleId == rule.id
  {
    forall c | c in OnAsset(Block(rule, variables, regime), asset) ensures c.ruleId == rule.id {
      OnAssetMembers(Block(rule, variables, regime), asset);
      LabelledIds(GuardedEffects(rule, regime), rule.id, c);
    }
  }

  /** What a rule of the book says about an asset is its own block; other ids say nothing. */
  lemma {:induction false} SayingsOf(rules: seq<Rule>, variables: map<string, real>, regime: Option<RegimeState>, asset: string,
                                     id: string)
    requires UniqueIds(rules)
    ensures var found := RuleById(rules, id);
      OfRule(OnAsset(Candidates(rules, variables, regime), asset), id)
        == if found.None? then [] else OnAsset(Block(found.value, variables, regime), asset)
  {
    hide Labelled, GuardedEffects, Matches, OfRule, OnAsset;
    if rules == [] {
      OnAssetMembers([], asset);
      OfRuleMembers(OnAsset([], asset), id);
      SomeMember(OfRule(OnAsset([], asset), id));
    } else {
      var front, last := rules[..|rules| - 1], rules[|rules| - 1];
      SayingsOf(front, variables, regime, asset, id);
      var before, block := Candidates(front, variables, regime), Block(last, variables, regime);
      BlockIds(last, variables, regime, asset);
      assert Candidates(rules, variables, regime) == before + block;
      OnAssetConcat(before, block, asset);
      OfRuleConcat(OnAsset(before, asset), OnAsset(block, asset), id);
      if last.id == id {
        OfRuleAll(OnAsset(block, asset), id);
        NotFoundInFront(rules, id);
      } else {
        OfRuleNone(OnAsset(block, asset), id);
      }
    }
  }

  lemma NotFoundInFront(rules: seq<Rule>, id: string)
    requires rules != [] && UniqueIds(rules) && rules[|rules| - 1].id == id
    ensures RuleById(rules[..|rules| - 1], id).None?
  {
    RuleByIdNone(rules[..|rules| - 1], id);
  }

  lemma {:induction false} RuleByIdNone(rules: seq<Rule>, id: string)
    ensures RuleById(rules, id).None? <==> forall i :: 0 <= i < |rules| ==> rules[i].id != id
    ensures RuleById(rules, id).Some? ==> RuleById(rules, id).value in rules && RuleById(rules, id).value.id == id
  {
    if rules != [] && rules[|rules| - 1].id != id {
      RuleByIdNone(rules[..|rules| - 1], id);
    }
  }

  /** A rearranged book finds the same rules. */
  lemma RuleByIdForgetsOrder(a: seq<Rule>, b: seq<Rule>, id: string)
    requires UniqueIds(a) && UniqueIds(b) && multiset(a) == multiset(b)
    ensures RuleById(a, id) == RuleById(b, id)
  {
    RuleByIdNone(a, id);
    RuleByIdNone(b, id);
    forall rule ensures rule in a <==> rule in b {
      assert rule in a <==> rule in multiset(a);
      assert rule in b <==> rule in multiset(b);
    }
    if RuleById(a, id).Some? {
      RuleByIdFinds(b, RuleById(a, id).value);
    } else if RuleById(b, id).Some? {
      RuleByIdFinds(a, RuleById(b, id).value);
    }
  }

  lemma UniqueIdsPermute(a: seq<Rule>, b: seq<Rule>)
    requires UniqueIds(a) && multiset(a) == multiset(b)
    ensures UniqueIds(b)
  {
    DistinctUnderPermutation((rule: Rule) => rule.id, a, b);
  }

  lemma SameSayings(a: seq<Rule>, b: seq<Rule>, variables: map<string, real>, regime: Option<RegimeState>, asset: string)
    requires UniqueIds(a) && multiset(a) == multiset(b)
    ensures SameByRule(OnAsset(Candidates(a, variables, regime), asset), OnAsset(Candidates(b, variables, regime), asset))
  {
    hide Candidates, OnAsset, OfRule, Block;
    UniqueIdsPermute(a, b);
    forall id
      ensures OfRule(OnAsset(Candidates(a, variables, regime), asset), id)
           == OfRule(OnAsset(Candidates(b, variables, regime), asset), id)
    {
      SayingsOf(a, variables, regime, asset, id);
      SayingsOf(b, variables, regime, asset, id);
      RuleByIdForgetsOrder(a, b, id);
    }
  }

  lemma {:induction false} AssetsNamedOnce(candidates: seq<Candidate>)
    ensures forall asset :: asset in AssetsNamed(candidates) <==> OnAsset(candidates, asset) != []
    ensures forall i, j :: 0 <= i < j < |AssetsNamed(candidates)| ==> AssetsNamed(candidates)[i] != AssetsNamed(candidates)[j]
  {
    if candidates != [] {
      var front, last := candidates[..|candidates| - 1], candidates[|candidates| - 1];
      AssetsNamedOnce(front);
      assert candidates == front + [last];
      forall asset ensures OnAsset(candidates, asset) != [] <==> OnAsset(front, asset) != [] || last.effect.asset == asset {
        OnAssetConcat(front, [last], asset);
        OnAssetMembers([last], asset);
        if last.effect.asset == asset {
          assert last in OnAsset([last], asset);
        } else {
          SomeMember(OnAsset([last], asset));
        }
      }
    }
  }

  lemma {:induction false} SettleActivations(book: Rulebook, events: seq<EventFeature>, candidates: seq<Candidate>,
                                             assets: seq<string>)
    ensures var activations := Settle(book, events, candidates, assets).activations;
      && (forall asset :: asset in activations <==> asset in assets)
      && (forall asset :: asset in assets ==> activations[asset] == ActivationsOn(book, events, candidates, asset))
  {
    hide ActivationsOn, Resolve, OnAsset;
    if assets != [] {
      SettleActivations(book, events, candidates, assets[..|assets| - 1]);
      assert assets == assets[..|assets| - 1] + [assets[|assets| - 1]];
    }
  }

  ghost predicate OnlyOnce(assets: seq<string>) { forall i, j :: 0 <= i < j < |assets| ==> assets[i] != assets[j] }

  lemma {:induction false} SettleConflicts(book: Rulebook, events: seq<EventFeature>, candidates: seq<Candidate>, assets: seq<string>)
    requires OnlyOnce(assets)
    ensures var conflicts := Settle(book, events, candidates, assets).conflicts;
      && (forall asset :: asset in conflicts <==> asset in assets && Resolve(asset, OnAsset(candidates, asset)).Contested?)
      && OnlyOnce(conflicts)
  {
    hide ActivationsOn, Resolve, OnAsset;
    if assets != [] {
      var front, last := assets[..|assets| - 1], assets[|assets| - 1];
      SettleConflicts(book, events, candidates, front);
      assert assets == front + [last];
      forall i | 0 <= i < |front| ensures front[i] != last {
        assert assets[i] != assets[|assets| - 1];
      }
    }
  }

  /** Matching, asset by asset: what is activated, and which assets are reported as contested, each once. */
  lemma MatchMembers(book: Rulebook, events: seq<EventFeature>, regime: Option<RegimeState>)
    ensures var r, candidates := MatchRules(book, events, regime), Candidates(book.rules, ConditionVars(events), regime);
      && (forall asset :: asset in r.activations <==> OnAsset(candidates, asset) != [])
      && (forall asset :: asset in r.activations ==> r.activations[asset] == ActivationsOn(book, events, candidates, asset))
      && (forall asset :: asset in r.conflicts <==> Resolve(asset, OnAsset(candidates, asset)).Contested?)
      && (forall i, j :: 0 <= i < j < |r.conflicts| ==> r.conflicts[i] != r.conflicts[j])
  {
    var candidates := Candidates(book.rules, ConditionVars(events), regime);
    AssetsNamedOnce(candidates);
    SettleActivations(book, events, candidates, AssetsNamed(candidates));
    SettleConflicts(book, events, candidates, AssetsNamed(candidates));
    hide Candidates, ConditionVars, OnAsset, ActivationsOn, AssetsNamed, Settle;
  }

  /**
   * Rearranging a rulebook with unique ids changes no activation and no contested asset, however many
   * effects a rule has; only the order in which contested assets are reported can differ.
   */
  lemma MatchForgetsRuleOrder(a: Rulebook, b: Rulebook, events: seq<EventFeature>, regime: Option<RegimeState>)
    requires UniqueIds(a.rules) && multiset(a.rules) == multiset(b.rules) && a == b.(rules := a.rules)
    ensures var x, y := MatchRules(a, events, regime), MatchRules(b, events, regime);
      && x.activations == y.activations
      && (forall asset :: asset in x.conflicts <==> asset in y.conflicts)
      && (forall i, j :: 0 <= i < j < |x.conflicts| ==> x.conflicts[i] != x.conflicts[j])
      && (forall i, j :: 0 <= i < j < |y.conflicts| ==> y.conflicts[i] != y.conflicts[j])
  {
    hide Candidates, ConditionVars, OnAsset, ActivationsOn, Resolve;
    MatchMembers(a, events, regime);
    MatchMembers(b, events, regime);
    hide MatchRules;
    UniqueIdsPermute(a.rules, b.rules);
    var variables := ConditionVars(events);
    var ca, cb := Candidates(a.rules, variables, regime), Candidates(b.rules, variables, regime);
    var x, y := MatchRules(a, events, regime), MatchRules(b, events, regime);
    forall asset
      ensures OnAsset(ca, asset) == [] <==> OnAsset(cb, asset) == []
      ensures Resolve(asset, OnAsset(ca, asset)) == Resolve(asset, OnAsset(cb, asset))
      ensures ActivationsOn(a, events, ca, asset) == ActivationsOn(b, events, cb, asset)
    {
      SameOnAsset(a, b, events, regime, asset);
    }
    assert x.activations.Keys == y.activations.Keys;
  }

  lemma SameOnAsset(a: Rulebook, b: Rulebook, events: seq<EventFeature>, regime: Option<RegimeState>, asset: string)
    requires UniqueIds(a.rules) && UniqueIds(b.rules) && multiset(a.rules) == multiset(b.rules) && a == b.(rules := a.rules)
    ensures var ca, cb := Candidates(a.rules, ConditionVars(events), regime), Candidates(b.rules, ConditionVars(events), regime);
      && (OnAsset(ca, asset) == [] <==> OnAsset(cb, asset) == [])
      && Resolve(asset, OnAsset(ca, asset)) == Resolve(asset, OnAsset(cb, asset))
      && ActivationsOn(a, events, ca, asset) == ActivationsOn(b, events, cb, asset)
  {
    var variables := ConditionVars(events);
    var ca, cb := Candidates(a.rules, variables, regime), Candidates(b.rules, variables, regime);
    SameSayings(a.rules, b.rules, variables, regime, asset);
    hide Candidates, ConditionVars, OnAsset, RuleById, EventFor, ToActivation, UniqueIds;
    var x, y := OnAsset(ca, asset), OnAsset(cb, asset);
    SameByRuleMembers(x, y);
    SomeMember(x);
    SomeMember(y);
    ResolveForgetsRuleOrder(asset, x, y);
    hide Resolve;
    var r := Resolve(asset, x);
    if !r.Nothing? {
      RuleByIdForgetsOrder(a.rules, b.rules, r.effect.sourceRuleId);
    }
  }
}
