/** One audited price from several sources: the median of the valid ones, with its deviations. */
module Aggregation {
  import opened Common
  import opened RealFacts
  import opened Folds
  import opened Rounding
  import opened Sorting
  import TextOrder

  datatype SourceFlag =
    | Inherited(text: string)
    | ReducedSourceCount(configured: nat, valid: nat)
    | CrossSourceDeviation(source: string, deviation: real)

  /**
   * A snapshot as the policy reads it. The value is None when the payload holds no finite number,
   * the time (in milliseconds) when it cannot be parsed or carries no zone, the quote currency when
   * it is missing or empty.
   */
  datatype Snapshot = Snapshot(
    source: string,
    symbol: string,
    stale: bool,
    value: Option<real>,
    currency: string,
    quote: Option<string>,
    asOf: Option<int>,
    contentHash: string,
    flags: seq<string>)

  datatype Policy = Policy(
    symbol: string,
    minSources: nat,
    configured: seq<string>,
    maxDeviation: real,
    now: int,
    stalenessMinutes: nat)
  {
    /** What configuration loading enforces. */
    predicate Valid() { minSources >= 1 && maxDeviation >= 0.0 }
  }

  datatype Observation = Observation(source: string, value: real, deviation: real, contentHash: string)

  datatype Aggregate = Aggregate(
    value: real,
    asOf: int,
    sources: nat,
    observations: seq<Observation>,
    flags: seq<SourceFlag>)

  // Which snapshots count.

  predicate FromSource(s: Snapshot, source: string) { s.source == source }

  /** Two snapshots of one source disqualify that source altogether. */
  predicate Repeated(snapshots: seq<Snapshot>, source: string) {
    CountOf((s: Snapshot) => FromSource(s, source), snapshots) > 1
  }

  /** The conditions on a snapshot by itself. */
  predicate Acceptable(p: Policy, s: Snapshot) {
    && s.source in p.configured
    && s.symbol == p.symbol && !s.stale
    && s.value.Some? && s.value.value > 0.0
    && s.currency == "USD"
    && s.quote.Some? && s.quote.value != ""
    && s.asOf.Some? && 0 <= p.now - s.asOf.value <= p.stalenessMinutes * 60000
  }

  predicate Counts(p: Policy, snapshots: seq<Snapshot>, s: Snapshot) {
    Acceptable(p, s) && !Repeated(snapshots, s.source)
  }

  predicate BySource(a: Snapshot, b: Snapshot) { TextOrder.Leq(a.source, b.source) }

  function ValidOnes(p: Policy, snapshots: seq<Snapshot>): seq<Snapshot> {
    Sort(BySource, Keep((s: Snapshot) => Counts(p, snapshots, s), snapshots))
  }

  method ValidObservations(p: Policy, snapshots: seq<Snapshot>) returns (valid: seq<Snapshot>)
    ensures valid == ValidOnes(p, snapshots)
  {
    var kept: seq<Snapshot> := [];
    for i := 0 to |snapshots|
      invariant kept == Keep((s: Snapshot) => Counts(p, snapshots, s), snapshots[..i])
    {
      KeepConcat((s: Snapshot) => Counts(p, snapshots, s), snapshots[..i], [snapshots[i]]);
      assert snapshots[..i + 1] == snapshots[..i] + [snapshots[i]];
      if !Repeated(snapshots, snapshots[i].source) && Acceptable(p, snapshots[i]) {
        kept := kept + [snapshots[i]];
      }
    }
    assert snapshots[..|snapshots|] == snapshots;
    valid := Sort(BySource, kept);
  }

  // The median and the deviations from it.

  predicate AtMost(a: real, b: real) { a <= b }

  /** The middle of a sorted list, or half-way between its two middles. */
  function Middle(sorted: seq<real>): real
    requires sorted != []
  {
    var half := |sorted| / 2;
    if |sorted| % 2 == 1 then sorted[half] else (sorted[half - 1] + sorted[half]) / 2.0
  }

  function Median(values: seq<real>): real
    requires values != []
  {
    SortPermutes(AtMost, values);
    Middle(Sort(AtMost, values))
  }

  function DeviationFrom(value: real, reference: real): real
    requires reference > 0.0
  {
    Abs(value - reference) / reference * 100.0
  }

  function PairwiseDeviation(left: real, right: real): real
    requires left > 0.0 && right > 0.0
  {
    Abs(left - right) / ((left + right) / 2.0) * 100.0
  }

  function Round6(x: real): real { RoundHalfEven(x * 1000000.0) as real / 1000000.0 }

  // The aggregate.

  function ValueOf(s: Snapshot): real { if s.value.Some? then s.value.value else 0.0 }

  ghost predicate AllPositive(values: seq<real>) {
    forall i :: 0 <= i < |values| ==> values[i] > 0.0
  }

  function ValuesOf(valid: seq<Snapshot>): (values: seq<real>)
    ensures |values| == |valid|
  {
    Each(ValueOf, valid)
  }

  function InheritedFlags(valid: seq<Snapshot>): seq<SourceFlag> {
    if valid == [] then []
    else InheritedFlags(valid[..|valid| - 1]) + Each((text: string) => Inherited(text), valid[|valid| - 1].flags)
  }

  function Observe(s: Snapshot, median: real): Observation
    requires median > 0.0
  {
    Observation(s.source, ValueOf(s), Round6(DeviationFrom(ValueOf(s), median)), s.contentHash)
  }

  function Observations(valid: seq<Snapshot>, median: real): seq<Observation>
    requires median > 0.0
  {
    if valid == [] then []
    else Observations(valid[..|valid| - 1], median) + [Observe(valid[|valid| - 1], median)]
  }

  predicate Deviates(p: Policy, s: Snapshot, median: real)
    requires median > 0.0
  {
    DeviationFrom(ValueOf(s), median) > p.maxDeviation
  }

  function DeviationFlags(p: Policy, valid: seq<Snapshot>, median: real): seq<SourceFlag>
    requires median > 0.0
  {
    if valid == [] then []
    else
      var last := valid[|valid| - 1];
      DeviationFlags(p, valid[..|valid| - 1], median)
      + if Deviates(p, last, median) then [CrossSourceDeviation(last.source, Round6(DeviationFrom(ValueOf(last), median)))] else []
  }

  predicate Newer(a: Snapshot, b: Snapshot) {
    a.asOf.Some? && b.asOf.Some?
    && (a.asOf.value < b.asOf.value || (a.asOf.value == b.asOf.value && TextOrder.Leq(a.source, b.source)))
  }

  /** The pair of a two-source fallback must agree within the threshold. */
  predicate PairDisagrees(p: Policy, values: seq<real>)
    requires AllPositive(values)
  {
    |values| == 2 && PairwiseDeviation(values[0], values[1]) > p.maxDeviation
  }

  function AggregateOf(p: Policy, snapshots: seq<Snapshot>): (result: Option<Aggregate>)
    requires p.Valid()
    ensures result.Some? ==> result.value.value > 0.0
  {
    var valid := ValidOnes(p, snapshots);
    var values := ValuesOf(valid);
    ValidMembers(p, snapshots);
    if |valid| < p.minSources || PairDisagrees(p, values) then None
    else
      MedianIsPositive(values);
      var median := Median(values);
      var latest := Best(Newer, valid);
      Some(Aggregate(
        median, if latest.asOf.Some? then latest.asOf.value else 0, |valid|, Observations(valid, median),
        InheritedFlags(valid)
        + (if |valid| < |p.configured| then [ReducedSourceCount(|p.configured|, |valid|)] else [])
        + DeviationFlags(p, valid, median)))
  }

  /** What each source said, and which of them are too far from the median. */
  method Audit(p: Policy, valid: seq<Snapshot>, median: real) returns (observations: seq<Observation>,
               flags: seq<SourceFlag>)
    requires median > 0.0
    ensures observations == Observations(valid, median) && flags == DeviationFlags(p, valid, median)
  {
    hide Deviates, Observe, DeviationFrom, Round6;
    observations, flags := [], [];
    for i := 0 to |valid|
      invariant observations == Observations(valid[..i], median) && flags == DeviationFlags(p, valid[..i], median)
    {
      assert valid[..i + 1][..i] == valid[..i];
      observations := observations + [Observe(valid[i], median)];
      if Deviates(p, valid[i], median) {
        flags := flags + [CrossSourceDeviation(valid[i].source, Round6(DeviationFrom(ValueOf(valid[i]), median)))];
      }
    }
    assert valid[..|valid|] == valid;
  }

  method AggregateSnapshots(p: Policy, snapshots: seq<Snapshot>) returns (result: Option<Aggregate>)
    requires p.Valid()
    ensures result == AggregateOf(p, snapshots)
  {
    hide ValidOnes, Median, InheritedFlags, Observations, DeviationFlags, PairwiseDeviation, Best;
    var valid := ValidObservations(p, snapshots);
    ValidMembers(p, snapshots);
    if |valid| < p.minSources {
      return None;
    }
    var values := ValuesOf(valid);
    MedianIsPositive(values);
    var median := Median(values);
    if |valid| == 2 && PairwiseDeviation(values[0], values[1]) > p.maxDeviation {
      return None;
    }
    var flags := InheritedFlags(valid);
    assert flags == flags + [];
    if |valid| < |p.configured| {
      flags := flags + [ReducedSourceCount(|p.configured|, |valid|)];
    }
    var observations, deviations := Audit(p, valid, median);
    var latest := Best(Newer, valid);
    result := Some(Aggregate(median, if latest.asOf.Some? then latest.asOf.value else 0, |valid|, observations,
                             flags + deviations));
  }

  // Valid observations.

  lemma BySourceIsTotal()
    ensures TotalPreorder(BySource)
  {
    forall a, b ensures BySource(a, b) || BySource(b, a) {
      TextOrder.Total(a.source, b.source);
    }
    forall a, b, c | BySource(a, b) && BySource(b, c) ensures BySource(a, c) {
      TextOrder.Transitive(a.source, b.source, c.source);
    }
  }

  lemma ValidMembers(p: Policy, snapshots: seq<Snapshot>)
    ensures forall s :: s in ValidOnes(p, snapshots) <==> s in snapshots && Counts(p, snapshots, s)
    ensures AllPositive(ValuesOf(ValidOnes(p, snapshots)))
  {
    var kept := Keep((s: Snapshot) => Counts(p, snapshots, s), snapshots);
    KeepKept((s: Snapshot) => Counts(p, snapshots, s), snapshots);
    SortPermutes(BySource, kept);
    var valid := ValidOnes(p, snapshots);
    forall s ensures s in valid <==> s in kept {
      assert s in valid <==> s in multiset(valid);
      assert s in kept <==> s in multiset(kept);
    }
    forall i | 0 <= i < |valid| ensures ValuesOf(valid)[i] > 0.0 {
      assert valid[i] in valid;
    }
  }

  /** A predicate that holds once holds of one element only. */
  lemma {:induction false} CountedOnce<T>(p: T -> bool, s: seq<T>, x: T, y: T)
    requires CountOf(p, s) <= 1 && x in s && y in s && p(x) && p(y)
    ensures x == y
  {
    if s[0] == x || s[0] == y {
      var other := if s[0] == x then y else x;
      if other != s[0] {
        assert other in s[1..];
        CountedPositive(p, s[1..], other);
      }
    } else {
      CountedOnce(p, s[1..], x, y);
    }
  }

  lemma {:induction false} CountedPositive<T>(p: T -> bool, s: seq<T>, x: T)
    requires x in s && p(x)
    ensures CountOf(p, s) >= 1
  {
    if s[0] != x {
      CountedPositive(p, s[1..], x);
    }
  }

  // The median.

  lemma AtMostIsTotal()
    ensures TotalPreorder(AtMost)
  {}

  lemma SortedValues(values: seq<real>)
    requires values != []
    ensures var sorted := Sort(AtMost, values);
      && |sorted| == |values| && multiset(sorted) == multiset(values)
      && forall i, j :: 0 <= i <= j < |sorted| ==> sorted[i] <= sorted[j]
  {
    SortPermutes(AtMost, values);
    AtMostIsTotal();
    SortSorts(AtMost, values);
    var sorted := Sort(AtMost, values);
    forall i, j | 0 <= i <= j < |sorted| ensures sorted[i] <= sorted[j] {
      assert i < j ==> AtMost(sorted[i], sorted[j]);
    }
  }

  lemma MedianIsPositive(values: seq<real>)
    requires values != [] && AllPositive(values)
    ensures Median(values) > 0.0
  {
    SortedValues(values);
    var sorted := Sort(AtMost, values);
    forall i | 0 <= i < |sorted| ensures sorted[i] > 0.0 {
      assert sorted[i] in multiset(values);
    }
  }

  /** None of the first `n` elements qualifies, or none from `n` on. */
  lemma CountOutside(p: real -> bool, s: seq<real>, n: nat)
    requires n <= |s|
    ensures (forall i :: 0 <= i < n ==> !p(s[i])) ==> CountOf(p, s) <= |s| - n
    ensures (forall i :: n <= i < |s| ==> !p(s[i])) ==> CountOf(p, s) <= n
  {
    assert s == s[..n] + s[n..];
    CountOfConcat(p, s[..n], s[n..]);
    if forall i :: 0 <= i < n ==> !p(s[i]) {
      CountNothing(p, s[..n]);
    }
    if forall i :: n <= i < |s| ==> !p(s[i]) {
      CountNothing(p, s[n..]);
    }
  }

  lemma {:induction false} CountNothing(p: real -> bool, s: seq<real>)
    requires forall i :: 0 <= i < |s| ==> !p(s[i])
    ensures CountOf(p, s) == 0
  {
    if s != [] {
      CountNothing(p, s[1..]);
    }
  }

  predicate Within(x: real, low: real, high: real) { low <= x <= high }

  /**
   * What most sources agree on, the median respects: when more than half of the values lie in an
   * interval, so does the median, wherever the others are.
   */
  lemma MajorityHoldsMedian(values: seq<real>, low: real, high: real)
    requires values != [] && 2 * CountOf((x: real) => Within(x, low, high), values) > |values|
    ensures low <= Median(values) <= high
  {
    SortedValues(values);
    CountForgetsOrder((x: real) => Within(x, low, high), values, Sort(AtMost, values));
    hide Sort, CountOf;
    MiddleWithin(Sort(AtMost, values), low, high);
  }

  lemma MiddleWithin(sorted: seq<real>, low: real, high: real)
    requires sorted != [] && forall i, j :: 0 <= i <= j < |sorted| ==> sorted[i] <= sorted[j]
    requires 2 * CountOf((x: real) => Within(x, low, high), sorted) > |sorted|
    ensures low <= Middle(sorted) <= high
  {
    hide CountOf;
    var p := (x: real) => Within(x, low, high);
    // The ranks the middle is made of are ranks a majority cannot avoid.
    var first, last := (|sorted| - 1) / 2, |sorted| / 2;
    if sorted[first] < low {
      CountOutside(p, sorted, first + 1);
    }
    if sorted[last] > high {
      CountOutside(p, sorted, last);
    }
  }

  /** The median lies between the extremes, and among three between the other two, whichever is off. */
  lemma MedianIsRobust(a: real, b: real, c: real)
    ensures MinReal(a, b) <= Median([a, b, c]) <= MaxReal(a, b)
    ensures MinReal(b, c) <= Median([a, b, c]) <= MaxReal(b, c)
    ensures MinReal(a, c) <= Median([a, b, c]) <= MaxReal(a, c)
  {
    TwoOfThree([a, b, c], 0, 1);
    TwoOfThree([a, b, c], 1, 2);
    TwoOfThree([a, b, c], 0, 2);
  }

  lemma TwoOfThree(values: seq<real>, i: nat, j: nat)
    requires |values| == 3 && i < j < 3
    ensures MinReal(values[i], values[j]) <= Median(values) <= MaxReal(values[i], values[j])
  {
    var low, high := MinReal(values[i], values[j]), MaxReal(values[i], values[j]);
    var p := (x: real) => Within(x, low, high);
    CountThree(p, values);
    MajorityHoldsMedian(values, low, high);
  }

  lemma CountThree(p: real -> bool, values: seq<real>)
    requires |values| == 3
    ensures CountOf(p, values)
         == (if p(values[0]) then 1 else 0) + (if p(values[1]) then 1 else 0) + (if p(values[2]) then 1 else 0)
  {
    CountNext(p, values);
    CountNext(p, values[1..]);
    CountNext(p, values[1..][1..]);
    hide CountOf;
    var one, two, three := values[1..], values[1..][1..], values[1..][1..][1..];
    assert one[0] == values[1] && two[0] == values[2];
    assert CountOf(p, values) == (if p(values[0]) then 1 else 0) + CountOf(p, one);
    assert CountOf(p, one) == (if p(values[1]) then 1 else 0) + CountOf(p, two);
    assert |three| == 0;
  }

  lemma CountNext(p: real -> bool, values: seq<real>)
    requires values != []
    ensures CountOf(p, values) == (if p(values[0]) then 1 else 0) + CountOf(p, values[1..])
  {
  }

  lemma MedianBetweenExtremes(values: seq<real>, low: real, high: real)
    requires values != [] && forall i :: 0 <= i < |values| ==> low <= values[i] <= high
    ensures low <= Median(values) <= high
  {
    CountEvery((x: real) => Within(x, low, high), values);
    MajorityHoldsMedian(values, low, high);
  }

  lemma {:induction false} CountEvery(p: real -> bool, s: seq<real>)
    requires forall i :: 0 <= i < |s| ==> p(s[i])
    ensures CountOf(p, s) == |s|
  {
    if s != [] {
      CountEvery(p, s[1..]);
    }
  }

  /** An odd number of values has its median among them, at deviation zero. */
  lemma OddMedianIsAValue(values: seq<real>)
    requires |values| % 2 == 1 && AllPositive(values)
    ensures Median(values) in values && DeviationFrom(Median(values), Median(values)) == 0.0
  {
    MedianIsPositive(values);
    SortedValues(values);
    var sorted := Sort(AtMost, values);
    assert sorted[|sorted| / 2] in multiset(values);
    QuotientBounds(0.0, Median(values), 0.0, 0.0);
  }

  /** Both of a pair deviate from their median by half of what they deviate from each other. */
  lemma PairDeviatesByHalf(a: real, b: real)
    requires a > 0.0 && b > 0.0
    ensures Median([a, b]) == (a + b) / 2.0 > 0.0
    ensures DeviationFrom(a, Median([a, b])) == PairwiseDeviation(a, b) / 2.0
    ensures DeviationFrom(b, Median([a, b])) == PairwiseDeviation(a, b) / 2.0
    ensures PairwiseDeviation(a, b) >= 0.0
  {
    assert [a, b][1..] == [b] && [b][1..] == [];
    var m := (a + b) / 2.0;
    assert Sort(AtMost, [b]) == [b];
    assert Sort(AtMost, [a, b]) == Insert(AtMost, a, [b]);
    assert Sort(AtMost, [a, b]) == if a <= b then [a, b] else [b, a];
    assert Abs(a - m) == 0.5 * Abs(a - b) && Abs(b - m) == 0.5 * Abs(a - b);
    QuotientScales(0.5, Abs(a - b), m);
    QuotientBounds(Abs(a - b), m, 0.0, Abs(a - b) / m);
  }
}

/** What the aggregate guarantees whatever the sources deliver. */
module AggregationLaws {
  import opened Common
  import opened Folds
  import opened Sorting
  import opened Aggregation
  import TextOrder

  lemma CountsForgetsOrder(p: Policy, a: seq<Snapshot>, b: seq<Snapshot>, s: Snapshot)
    requires multiset(a) == multiset(b)
    ensures Counts(p, a, s) == Counts(p, b, s)
  {
    CountForgetsOrder((x: Snapshot) => FromSource(x, s.source), a, b);
  }

  lemma {:induction false} KeepAlike<T>(p: T -> bool, q: T -> bool, s: seq<T>)
    requires forall i :: 0 <= i < |s| ==> p(s[i]) == q(s[i])
    ensures Keep(p, s) == Keep(q, s)
  {
    if s != [] {
      KeepAlike(p, q, s[1..]);
    }
  }

  /** One valid observation per source at most. */
  lemma ValidOnesAreDistinct(p: Policy, snapshots: seq<Snapshot>)
    ensures DistinctKeys(BySource, Keep((s: Snapshot) => Counts(p, snapshots, s), snapshots))
  {
    var kept := Keep((s: Snapshot) => Counts(p, snapshots, s), snapshots);
    KeepKept((s: Snapshot) => Counts(p, snapshots, s), snapshots);
    forall a, b | a in kept && b in kept && BySource(a, b) && BySource(b, a) ensures a == b {
      TextOrder.Antisymmetric(a.source, b.source);
      CountedOnce((s: Snapshot) => FromSource(s, a.source), snapshots, a, b);
    }
  }

  /** The aggregate does not depend on the order in which the sources were fetched, duplicates and all. */
  lemma AggregateForgetsOrder(p: Policy, a: seq<Snapshot>, b: seq<Snapshot>)
    requires p.Valid() && multiset(a) == multiset(b)
    ensures AggregateOf(p, a) == AggregateOf(p, b)
  {
    var f, g := (s: Snapshot) => Counts(p, a, s), (s: Snapshot) => Counts(p, b, s);
    forall i | 0 <= i < |b| ensures f(b[i]) == g(b[i]) {
      CountsForgetsOrder(p, a, b, b[i]);
    }
    KeepAlike(f, g, b);
    KeepForgetsOrder(f, a, b);
    ValidOnesAreDistinct(p, a);
    BySourceIsTotal();
    SortForgetsOrder(BySource, Keep(f, a), Keep(g, b));
    assert ValidOnes(p, a) == ValidOnes(p, b);
  }

  lemma {:induction false} NobodyDeviates(p: Policy, valid: seq<Snapshot>, median: real)
    requires median > 0.0
    ensures DeviationFlags(p, valid, median) == [] <==> forall i :: 0 <= i < |valid| ==> !Deviates(p, valid[i], median)
  {
    if valid != [] {
      NobodyDeviates(p, valid[..|valid| - 1], median);
    }
  }

  /**
   * A published pair carries no deviation flag: two sources are either rejected or close enough to
   * each other that both are within the threshold of their median.
   */
  lemma AcceptedPairIsUnflagged(p: Policy, snapshots: seq<Snapshot>)
    requires p.Valid() && |ValidOnes(p, snapshots)| == 2 && AggregateOf(p, snapshots).Some?
    ensures DeviationFlags(p, ValidOnes(p, snapshots), AggregateOf(p, snapshots).value.value) == []
  {
    var valid := ValidOnes(p, snapshots);
    ValidMembers(p, snapshots);
    var values := ValuesOf(valid);
    assert values == [values[0], values[1]];
    PairDeviatesByHalf(values[0], values[1]);
    NobodyDeviates(p, valid, Median(values));
  }

  /** With an odd number of sources, the one that delivers the median is never flagged. */
  lemma MedianSourceIsUnflagged(p: Policy, snapshots: seq<Snapshot>) returns (k: nat)
    requires p.Valid() && |ValidOnes(p, snapshots)| % 2 == 1 && AggregateOf(p, snapshots).Some?
    ensures var valid, median := ValidOnes(p, snapshots), AggregateOf(p, snapshots).value.value;
      k < |valid| && median > 0.0 && ValueOf(valid[k]) == median && !Deviates(p, valid[k], median)
  {
    var valid := ValidOnes(p, snapshots);
    ValidMembers(p, snapshots);
    var values := ValuesOf(valid);
    OddMedianIsAValue(values);
    k :| 0 <= k < |values| && values[k] == Median(values);
    MedianIsPositive(values);
  }

  /** The newest of the timed snapshots. */
  lemma {:induction false} LatestIsNewest(valid: seq<Snapshot>)
    requires valid != [] && forall i :: 0 <= i < |valid| ==> valid[i].asOf.Some?
    ensures Best(Newer, valid) in valid
    ensures forall i :: 0 <= i < |valid| ==> valid[i].asOf.value <= Best(Newer, valid).asOf.value
  {
    if |valid| > 1 {
      LatestIsNewest(valid[..|valid| - 1]);
      TextOrder.Total(valid[|valid| - 1].source, Best(Newer, valid[..|valid| - 1]).source);
      assert forall i :: 0 <= i < |valid| - 1 ==> valid[i] == valid[..|valid| - 1][i];
    }
  }

  /** The aggregate is as recent as the most recent source it rests on. */
  lemma AggregateIsAsOfNewest(p: Policy, snapshots: seq<Snapshot>)
    requires p.Valid() && AggregateOf(p, snapshots).Some?
    ensures var valid, asOf := ValidOnes(p, snapshots), AggregateOf(p, snapshots).value.asOf;
      && (exists i :: 0 <= i < |valid| && valid[i].asOf == Some(asOf))
      && forall i :: 0 <= i < |valid| ==> valid[i].asOf.Some? && valid[i].asOf.value <= asOf
  {
    var valid := ValidOnes(p, snapshots);
    ValidMembers(p, snapshots);
    forall i | 0 <= i < |valid| ensures valid[i].asOf.Some? {
      assert valid[i] in valid;
    }
    LatestIsNewest(valid);
    var i :| 0 <= i < |valid| && valid[i] == Best(Newer, valid);
  }
}
