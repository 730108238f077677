/** Values that cross the reasoning boundary: requests, provider results and Call Records. */
module Reasoning {
  import opened Common
  import opened CircuitBreakers

  datatype Json =
    | Null
    | Bool(truth: bool)
    | Number(num: real)
    | Text(chars: string)
    | Array(items: seq<Json>)
    | Object(members: map<string, Json>)

  datatype Job = Sentiment | Synthesis

  datatype Outcome = Success | Timeout | Error | CircuitOpen

  datatype Prompt = Prompt(text: string, version: string, hash: string)

  /** A neutral request together with the prompt the prompt builder renders for it. */
  datatype Request = Request(runId: string, job: Job, prompt: Prompt)

  datatype RawResult = RawResult(
    text: string,
    inputTokens: Option<nat>,
    outputTokens: Option<nat>,
    finishReason: Option<string>)

  /** How a single attempt can fail. */
  datatype Failure = CallError | TimedOut | BadOutput

  datatype CallRecord = CallRecord(
    runId: string,
    job: Job,
    attemptIndex: nat,
    provider: string,
    modelId: string,
    promptVersion: string,
    promptHash: string,
    renderedPrompt: string,
    response: Option<Json>,
    responseHash: Option<string>,
    latencyMs: nat,
    inputTokens: Option<nat>,
    outputTokens: Option<nat>,
    estimatedCost: Option<real>,
    retries: nat,
    finishReason: Option<string>,
    outcome: Outcome)

  datatype ProviderCfg = ProviderCfg(
    name: string,
    enabled: bool,
    priority: nat,
    weight: int,
    sentimentModel: string,
    synthesisModel: string,
    retries: Option<nat>,
    timeoutSeconds: Option<nat>)

  datatype Strategy = Priority | Weighted

  /**
   * JSON text, content hashing and schema validation, which the engine takes from libraries:
   * `parse` is None when the text is not JSON or not an object.
   */
  datatype Codec = Codec(
    parse: string -> Option<Json>,
    dump: Json -> string,
    hash: Json -> string,
    valid: (Job, Json) -> bool)
  {
    /** Whatever the codec reads, it reads again from its own text. */
    ghost predicate Lawful() {
      && (forall text :: parse(text).Some? ==> parse(text).value.Object?)
      && (forall text :: parse(text).Some? ==> parse(dump(parse(text).value)) == parse(text))
    }
  }

  /** Everything the gateway is built from except its adapters and clocks. */
  datatype Settings = Settings(
    providers: seq<ProviderCfg>,
    strategy: Strategy,
    defaultRetries: nat,
    defaultTimeoutSeconds: nat,
    breaker: BreakerCfg,
    seedFraction: string -> real,
    codec: Codec,
    cost: (string, Option<nat>, Option<nat>) -> Option<real>)
  {
    /** What loading the configuration checks: unique provider names, sane breaker. */
    ghost predicate Valid() {
      && breaker.Valid()
      && forall i, j :: 0 <= i < j < |providers| ==> providers[i].name != providers[j].name
    }

    function ModelFor(p: ProviderCfg, job: Job): string {
      match job
      case Sentiment => p.sentimentModel
      case Synthesis => p.synthesisModel
    }

    function Retries(p: ProviderCfg): nat {
      match p.retries
      case Some(n) => n
      case None => defaultRetries
    }

    /** A configured timeout of zero counts as absent. */
    function TimeoutMs(p: ProviderCfg): nat {
      1000 * if p.timeoutSeconds.Some? && p.timeoutSeconds.value != 0 then p.timeoutSeconds.value
             else defaultTimeoutSeconds
    }
  }

  datatype Reason =
    | NoProviders
    | Exhausted
    | SkippedOpen(provider: string)
    | Failed(provider: string, failure: Failure)

  /** What a job returns: a validated response, or the marker of a degraded run. */
  datatype JobAnswer =
    | Answered(data: Json)
    | Degraded(job: Job, reason: Reason, lastProvider: string, lastModel: string)
}

/** The failover order: by priority, or with a first pick drawn by weight from a seed fraction. */
module Router {
  import opened Common
  import opened Reasoning
  import TextOrder
  import opened Sorting

  predicate ByPriority(a: ProviderCfg, b: ProviderCfg) {
    a.priority < b.priority || (a.priority == b.priority && TextOrder.Leq(a.name, b.name))
  }

  lemma ByPriorityIsTotal()
    ensures TotalPreorder(ByPriority)
  {
    forall a, b ensures ByPriority(a, b) || ByPriority(b, a) {
      TextOrder.Total(a.name, b.name);
    }
    forall a, b, c | ByPriority(a, b) && ByPriority(b, c) ensures ByPriority(a, c) {
      if a.priority == b.priority == c.priority {
        TextOrder.Transitive(a.name, b.name, c.name);
      }
    }
  }

  ghost predicate UniqueNames(providers: seq<ProviderCfg>) {
    forall i, j :: 0 <= i < j < |providers| ==> providers[i].name != providers[j].name
  }

  function Weight(p: ProviderCfg): int { Max(0, p.weight) }

  /** Total weight of the first `k` providers. */
  function Cumulative(ordered: seq<ProviderCfg>, k: nat): (total: int)
    requires k <= |ordered|
    ensures total >= 0
  {
    if k == 0 then 0 else Cumulative(ordered, k - 1) + Weight(ordered[k - 1])
  }

  /** First index from `k` on at which the cumulative weight exceeds `target`; 0 when there is none. */
  function PickFrom(ordered: seq<ProviderCfg>, target: real, k: nat): (picked: nat)
    requires ordered != [] && k <= |ordered|
    ensures picked < |ordered|
    decreases |ordered| - k
  {
    if k == |ordered| then 0
    else if target < Cumulative(ordered, k + 1) as real then k
    else PickFrom(ordered, target, k + 1)
  }

  function Without(providers: seq<ProviderCfg>, name: string): seq<ProviderCfg> {
    if providers == [] then []
    else (if providers[0].name != name then [providers[0]] else []) + Without(providers[1..], name)
  }

  function Promote(ordered: seq<ProviderCfg>, k: nat): seq<ProviderCfg>
    requires k < |ordered|
  {
    [ordered[k]] + Without(ordered, ordered[k].name)
  }

  function PromotePicked(ordered: seq<ProviderCfg>, target: real): seq<ProviderCfg>
    requires ordered != []
  {
    Promote(ordered, PickFrom(ordered, target, 0))
  }

  function Target(fraction: real, total: int): real { fraction * (total as real) }

  function WeightedFirst(ordered: seq<ProviderCfg>, fraction: real): seq<ProviderCfg>
    requires ordered != []
  {
    var total := Cumulative(ordered, |ordered|);
    if total <= 0 then ordered else PromotePicked(ordered, Target(fraction, total))
  }

  function Order(strategy: Strategy, providers: seq<ProviderCfg>, fraction: real): seq<ProviderCfg> {
    if providers == [] then []
    else
      var ordered := Sort(ByPriority, providers);
      SortPermutes(ByPriority, providers);
      if strategy.Priority? then ordered else WeightedFirst(ordered, fraction)
  }

  method PickWeighted(ordered: seq<ProviderCfg>, fraction: real) returns (chain: seq<ProviderCfg>)
    requires ordered != []
    ensures chain == WeightedFirst(ordered, fraction)
  {
    var total := 0;
    for i := 0 to |ordered|
      invariant total == Cumulative(ordered, i)
    {
      total := total + Weight(ordered[i]);
    }
    if total <= 0 {
      return ordered;
    }
    var first := FirstAbove(ordered, Target(fraction, total));
    chain := [ordered[first]] + Without(ordered, ordered[first].name);
    assert chain == PromotePicked(ordered, Target(fraction, total));
  }

  method FirstAbove(ordered: seq<ProviderCfg>, target: real) returns (first: nat)
    requires ordered != []
    ensures first == PickFrom(ordered, target, 0)
  {
    var cumulative := 0;
    first := 0;
    var i := 0;
    while i < |ordered|
      invariant i <= |ordered| && cumulative == Cumulative(ordered, i)
      invariant first == 0 && PickFrom(ordered, target, 0) == PickFrom(ordered, target, i)
    {
      cumulative := cumulative + Weight(ordered[i]);
      if target < cumulative as real {
        return i;
      }
      i := i + 1;
    }
  }

  lemma {:induction false} WithoutAbsent(providers: seq<ProviderCfg>, name: string)
    requires forall i :: 0 <= i < |providers| ==> providers[i].name != name
    ensures Without(providers, name) == providers
  {
    if providers != [] {
      WithoutAbsent(providers[1..], name);
    }
  }

  lemma {:induction false} WithoutPermutes(providers: seq<ProviderCfg>, k: nat)
    requires UniqueNames(providers) && k < |providers|
    ensures multiset([providers[k]] + Without(providers, providers[k].name)) == multiset(providers)
  {
    assert providers == [providers[0]] + providers[1..];
    if k == 0 {
      WithoutAbsent(providers[1..], providers[0].name);
    } else {
      WithoutPermutes(providers[1..], k - 1);
    }
  }

  lemma UniqueUnderPermutation(a: seq<ProviderCfg>, b: seq<ProviderCfg>)
    requires UniqueNames(a) && multiset(a) == multiset(b)
    ensures UniqueNames(b)
  {
    DistinctUnderPermutation((p: ProviderCfg) => p.name, a, b);
  }

  lemma WeightedFirstPermutes(ordered: seq<ProviderCfg>, fraction: real)
    requires UniqueNames(ordered) && ordered != []
    ensures multiset(WeightedFirst(ordered, fraction)) == multiset(ordered)
  {
    WithoutPermutes(ordered, PickFrom(ordered, Target(fraction, Cumulative(ordered, |ordered|)), 0));
  }

  /** Whatever the strategy and the seed, the chain is a rearrangement of the providers. */
  lemma OrderIsPermutation(strategy: Strategy, providers: seq<ProviderCfg>, fraction: real)
    requires UniqueNames(providers)
    ensures multiset(Order(strategy, providers, fraction)) == multiset(providers)
    ensures UniqueNames(Order(strategy, providers, fraction))
  {
    var chain := Order(strategy, providers, fraction);
    if providers != [] {
      var ordered := Sort(ByPriority, providers);
      SortPermutes(ByPriority, providers);
      UniqueUnderPermutation(providers, ordered);
      WeightedFirstPermutes(ordered, fraction);
    }
    UniqueUnderPermutation(providers, chain);
  }

  /** The order the registry lists its providers in does not matter. */
  lemma OrderForgetsListing(strategy: Strategy, a: seq<ProviderCfg>, b: seq<ProviderCfg>, fraction: real)
    requires UniqueNames(a) && multiset(a) == multiset(b)
    ensures Order(strategy, a, fraction) == Order(strategy, b, fraction)
  {
    assert |a| == |multiset(a)| && |b| == |multiset(b)|;
    ByPriorityIsTotal();
    forall x, y | x in a && y in a && ByPriority(x, y) && ByPriority(y, x) ensures x == y {
      TextOrder.Antisymmetric(x.name, y.name);
    }
    SortForgetsOrder(ByPriority, a, b);
  }

  lemma {:induction false} CumulativeGrows(ordered: seq<ProviderCfg>, i: nat, j: nat)
    requires i <= j <= |ordered|
    ensures Cumulative(ordered, i) <= Cumulative(ordered, j)
  {
    if i < j {
      CumulativeGrows(ordered, i, j - 1);
    }
  }

  /** The target falls into the share of the provider at this position. */
  predicate OwnsShare(ordered: seq<ProviderCfg>, target: real, k: nat)
    requires k < |ordered|
  {
    Cumulative(ordered, k) as real <= target < Cumulative(ordered, k + 1) as real
  }

  /**
   * A seed fraction in [0, 1) always picks a provider: the one, and the only one, whose share of the
   * total weight contains it; so a provider of weight zero is never put first.
   */
  lemma WeightedPickOwnsItsShare(ordered: seq<ProviderCfg>, fraction: real) returns (k: nat)
    requires 0.0 <= fraction < 1.0 && ordered != [] && Cumulative(ordered, |ordered|) > 0
    ensures k < |ordered| && WeightedFirst(ordered, fraction) == Promote(ordered, k) && Weight(ordered[k]) > 0
    ensures forall j :: 0 <= j < |ordered| ==>
      (OwnsShare(ordered, Target(fraction, Cumulative(ordered, |ordered|)), j) <==> j == k)
  {
    var target := Target(fraction, Cumulative(ordered, |ordered|));
    TargetIsBelowTotal(fraction, Cumulative(ordered, |ordered|));
    SharePicked(ordered, target, 0);
    k := PickFrom(ordered, target, 0);
    forall j | 0 <= j < |ordered| ensures OwnsShare(ordered, target, j) <==> j == k {
      if j < k {
        CumulativeGrows(ordered, j + 1, k);
      } else if j > k {
        CumulativeGrows(ordered, k + 1, j);
      }
    }
  }

  lemma TargetIsBelowTotal(fraction: real, total: int)
    requires 0.0 <= fraction < 1.0 && total > 0
    ensures 0.0 <= Target(fraction, total) < total as real
  {
    var t := total as real;
    assert t > 0.0;
    assert fraction * t < 1.0 * t;
  }

  lemma {:induction false} SharePicked(ordered: seq<ProviderCfg>, target: real, k: nat)
    requires ordered != [] && k <= |ordered| && Cumulative(ordered, k) as real <= target
    requires target < Cumulative(ordered, |ordered|) as real
    ensures var n := PickFrom(ordered, target, k);
      && Cumulative(ordered, n) as real <= target
      && target < Cumulative(ordered, n + 1) as real
    decreases |ordered| - k
  {
    assert k < |ordered|;
    if target >= Cumulative(ordered, k + 1) as real {
      SharePicked(ordered, target, k + 1);
    }
  }

  /** The smaller priority number goes first, and among equal ones the smaller name. */
  ghost predicate InPriorityOrder(chain: seq<ProviderCfg>) {
    forall i, j :: 0 <= i < j < |chain| ==>
      || chain[i].priority < chain[j].priority
      || (chain[i].priority == chain[j].priority && TextOrder.Leq(chain[i].name, chain[j].name))
  }

  /** Shares start at zero and are as wide as the weights, negative ones counting as zero. */
  lemma {:induction false} SharesAreWeights(ordered: seq<ProviderCfg>, k: nat)
    requires k < |ordered|
    ensures Cumulative(ordered, 0) == 0
    ensures Cumulative(ordered, k + 1) - Cumulative(ordered, k) == if ordered[k].weight > 0 then ordered[k].weight else 0
  {}

  lemma {:induction false} NobodyWeighs(ordered: seq<ProviderCfg>, n: nat)
    requires n <= |ordered|
    ensures Cumulative(ordered, n) == 0 <==> forall i :: 0 <= i < n ==> ordered[i].weight <= 0
  {
    if n > 0 {
      NobodyWeighs(ordered, n - 1);
    }
  }

  lemma {:induction false} WithoutOne(ordered: seq<ProviderCfg>, k: nat)
    requires UniqueNames(ordered) && k < |ordered|
    ensures Without(ordered, ordered[k].name) == ordered[..k] + ordered[k + 1..]
  {
    if k == 0 {
      WithoutAbsent(ordered[1..], ordered[0].name);
      assert ordered[..0] + ordered[1..] == ordered[1..];
    } else {
      var rest, name := ordered[1..], ordered[k].name;
      assert rest[k - 1] == ordered[k] && ordered[0].name != name;
      assert UniqueNames(rest);
      WithoutOne(rest, k - 1);
      hide UniqueNames;
      assert Without(ordered, name) == [ordered[0]] + Without(rest, name);
      hide Without;
      assert rest[k - 1 + 1..] == ordered[k + 1..] && [ordered[0]] + rest[..k - 1] == ordered[..k];
      assert [ordered[0]] + (rest[..k - 1] + rest[k..]) == [ordered[0]] + rest[..k - 1] + rest[k..];
    }
  }

  lemma SortedByPriority(providers: seq<ProviderCfg>)
    ensures InPriorityOrder(Sort(ByPriority, providers)) && multiset(Sort(ByPriority, providers)) == multiset(providers)
  {
    SortPermutes(ByPriority, providers);
    ByPriorityIsTotal();
    SortSorts(ByPriority, providers);
    var ordered := Sort(ByPriority, providers);
    forall i, j | 0 <= i < j < |ordered|
      ensures ordered[i].priority < ordered[j].priority
        || (ordered[i].priority == ordered[j].priority && TextOrder.Leq(ordered[i].name, ordered[j].name))
    {
      assert ByPriority(ordered[i], ordered[j]);
    }
  }

  /** The seed fraction, spread over the total weight, falls into the share of the provider at `k`. */
  predicate HoldsFraction(ordered: seq<ProviderCfg>, fraction: real, k: nat)
    requires k < |ordered|
  {
    var spread := fraction * (Cumulative(ordered, |ordered|) as real);
    ordered[k].weight > 0 && Cumulative(ordered, k) as real <= spread < Cumulative(ordered, k + 1) as real
  }

  lemma MovedToFront(ordered: seq<ProviderCfg>, fraction: real) returns (k: nat)
    requires UniqueNames(ordered) && ordered != [] && 0.0 <= fraction < 1.0 && Cumulative(ordered, |ordered|) > 0
    ensures k < |ordered| && HoldsFraction(ordered, fraction, k)
    ensures WeightedFirst(ordered, fraction) == [ordered[k]] + ordered[..k] + ordered[k + 1..]
  {
    hide UniqueNames, Without, PickFrom, Cumulative;
    k := WeightedPickOwnsItsShare(ordered, fraction);
    assert OwnsShare(ordered, Target(fraction, Cumulative(ordered, |ordered|)), k);
    WithoutOne(ordered, k);
    hide WeightedFirst;
    assert [ordered[k]] + (ordered[..k] + ordered[k + 1..]) == [ordered[k]] + ordered[..k] + ordered[k + 1..];
  }

  /**
   * The chain is the providers in priority order; under the weighted strategy, if any provider has
   * weight, the one whose share of the total holds the seed fraction is moved to the front, and the
   * others stay in priority order behind it.
   */
  lemma OrderExactly(strategy: Strategy, providers: seq<ProviderCfg>, fraction: real) returns (ordered: seq<ProviderCfg>, k: nat)
    requires UniqueNames(providers) && 0.0 <= fraction < 1.0
    ensures multiset(ordered) == multiset(providers) && InPriorityOrder(ordered)
    ensures var chain, n := Order(strategy, providers, fraction), |ordered|;
      if strategy.Priority? || forall i :: 0 <= i < n ==> ordered[i].weight <= 0 then chain == ordered
      else k < n && HoldsFraction(ordered, fraction, k) && chain == [ordered[k]] + ordered[..k] + ordered[k + 1..]
  {
    hide InPriorityOrder, Sort, UniqueNames, PromotePicked, Cumulative, HoldsFraction;
    ordered, k := Sort(ByPriority, providers), 0;
    SortedByPriority(providers);
    UniqueUnderPermutation(providers, ordered);
    NobodyWeighs(ordered, |ordered|);
    if providers == [] {
      assert |multiset(ordered)| == |ordered|;
    } else if strategy.Weighted? && Cumulative(ordered, |ordered|) > 0 {
      assert |multiset(ordered)| == |ordered|;
      k := MovedToFront(ordered, fraction);
      hide WeightedFirst;
    }
  }
}
