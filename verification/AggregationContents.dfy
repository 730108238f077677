/** The aggregate written out: which snapshots count, when there is an aggregate, and what it says. */
module AggregateContents {
  import opened Common
  import opened RealFacts
  import opened Folds
  import opened Rounding
  import opened Sorting
  import opened Aggregation
  import opened AggregationLaws
  import TextOrder

  // Which snapshots count.

  /** A configured, fresh, positive dollar quote of the policy's symbol. */
  predicate Usable(p: Policy, s: Snapshot) {
    && s.source in p.configured && s.symbol == p.symbol && s.currency == "USD"
    && !s.stale && s.asOf.Some? && s.asOf.value <= p.now <= s.asOf.value + 60000 * p.stalenessMinutes
    && s.value.Some? && s.value.value > 0.0
    && s.quote.Some? && s.quote.value != ""
  }

  /** The only snapshot of its source. */
  predicate Alone(snapshots: seq<Snapshot>, i: nat) {
    i < |snapshots| && forall j :: 0 <= j < |snapshots| && j != i ==> snapshots[j].source != snapshots[i].source
  }

  lemma {:induction false} CountsOnce<T>(p: T -> bool, s: seq<T>)
    ensures CountOf(p, s) == 0 <==> forall i :: 0 <= i < |s| ==> !p(s[i])
    ensures CountOf(p, s) <= 1 <==> forall i, j :: 0 <= i < j < |s| ==> !(p(s[i]) && p(s[j]))
  {
    if s != [] {
      var rest := s[1..];
      CountsOnce(p, rest);
      if CountOf(p, s) <= 1 {
        forall i, j | 0 <= i < j < |s| ensures !(p(s[i]) && p(s[j])) {
          assert s[j] == rest[j - 1];
          assert i > 0 ==> s[i] == rest[i - 1];
        }
      } else if p(s[0]) {
        var j :| 0 <= j < |rest| && p(rest[j]);
        assert p(s[0]) && p(s[j + 1]);
      } else {
        var i, j :| 0 <= i < j < |rest| && p(rest[i]) && p(rest[j]);
        assert p(s[i + 1]) && p(s[j + 1]);
      }
    }
  }

  /** A snapshot counts exactly when it is usable and the only one of its source. */
  lemma CountsExactlyWhen(p: Policy, snapshots: seq<Snapshot>, i: nat)
    requires i < |snapshots|
    ensures snapshots[i] in ValidOnes(p, snapshots) <==> Usable(p, snapshots[i]) && Alone(snapshots, i)
  {
    ValidMembers(p, snapshots);
    var s := snapshots[i];
    CountsOnce((x: Snapshot) => FromSource(x, s.source), snapshots);
    if Alone(snapshots, i) {
      assert !Repeated(snapshots, s.source);
    } else {
      var j :| 0 <= j < |snapshots| && j != i && snapshots[j].source == s.source;
      assert Repeated(snapshots, s.source) by {
        assert FromSource(snapshots[i], s.source) && FromSource(snapshots[j], s.source);
      }
    }
  }

  /** The valid ones come by source, each source once. */
  lemma ValidBySource(p: Policy, snapshots: seq<Snapshot>)
    ensures var valid := ValidOnes(p, snapshots);
      forall i, j :: 0 <= i < j < |valid| ==> TextOrder.Leq(valid[i].source, valid[j].source) && valid[i].source != valid[j].source
  {
    var f := (s: Snapshot) => Counts(p, snapshots, s);
    var kept, valid := Keep(f, snapshots), ValidOnes(p, snapshots);
    BySourceIsTotal();
    SortSorts(BySource, kept);
    SortPermutes(BySource, kept);
    KeptSourcesDiffer(p, snapshots);
    DistinctUnderPermutation((s: Snapshot) => s.source, kept, valid);
    forall i, j | 0 <= i < j < |valid| ensures TextOrder.Leq(valid[i].source, valid[j].source) && valid[i].source != valid[j].source {
      assert BySource(valid[i], valid[j]);
    }
  }

  lemma {:induction false} KeptOnce(p: Snapshot -> bool, snapshots: seq<Snapshot>)
    requires forall i, j :: 0 <= i < j < |snapshots| && p(snapshots[i]) ==> snapshots[i].source != snapshots[j].source
    ensures DistinctBy((s: Snapshot) => s.source, Keep(p, snapshots))
  {
    if snapshots != [] {
      var rest := snapshots[1..];
      KeptOnce(p, rest);
      KeepKept(p, rest);
      var kept := Keep(p, rest);
      forall k | 0 <= k < |kept| && p(snapshots[0]) ensures kept[k].source != snapshots[0].source {
        assert kept[k] in rest;
        var l :| 0 <= l < |rest| && rest[l] == kept[k];
        assert snapshots[l + 1] == kept[k];
      }
    }
  }

  lemma KeptSourcesDiffer(p: Policy, snapshots: seq<Snapshot>)
    ensures DistinctBy((s: Snapshot) => s.source, Keep((s: Snapshot) => Counts(p, snapshots, s), snapshots))
  {
    var f := (s: Snapshot) => Counts(p, snapshots, s);
    forall i, j | 0 <= i < j < |snapshots| && f(snapshots[i]) ensures snapshots[i].source != snapshots[j].source {
      var s := snapshots[i];
      CountsOnce((x: Snapshot) => FromSource(x, s.source), snapshots);
      assert FromSource(snapshots[i], s.source);
      assert !FromSource(snapshots[j], s.source);
    }
    KeptOnce(f, snapshots);
  }

  // When there is an aggregate, and what it says.

  /** The two values differ by more than the allowed percentage of their mean. */
  predicate TooFarApart(p: Policy, a: real, b: real) { 200.0 * Abs(a - b) > p.maxDeviation * (a + b) }

  predicate TooFarOff(p: Policy, value: real, median: real) { 100.0 * Abs(value - median) > p.maxDeviation * median }

  /** A distance as a percentage of a positive reference, against a limit. */
  lemma PercentAgainst(distance: real, reference: real, limit: real)
    requires reference > 0.0
    ensures distance / reference * 100.0 > limit <==> 100.0 * distance > limit * reference
  {
    var q, part := distance / reference, limit / 100.0;
    assert q * reference == distance;
    DivideBack(part, reference);
    if distance <= part * reference {
      QuotientMonotone(distance, part * reference, reference);
    }
    if q <= part {
      ProductMonotone(q, part, reference);
    }
    assert 100.0 * (part * reference) == limit * reference;
  }

  lemma DeviatesMeans(p: Policy, s: Snapshot, median: real)
    requires median > 0.0
    ensures Deviates(p, s, median) <==> TooFarOff(p, ValueOf(s), median)
  {
    PercentAgainst(Abs(ValueOf(s) - median), median, p.maxDeviation);
  }

  lemma DisagreesMeans(p: Policy, a: real, b: real)
    requires a > 0.0 && b > 0.0
    ensures PairwiseDeviation(a, b) > p.maxDeviation <==> TooFarApart(p, a, b)
  {
    var half := (a + b) / 2.0;
    PercentAgainst(Abs(a - b), half, p.maxDeviation);
    assert p.maxDeviation * half == p.maxDeviation * (a + b) / 2.0;
  }

  /** There is an aggregate exactly when enough sources are valid and, if they are two, close enough. */
  lemma AggregatedExactlyWhen(p: Policy, snapshots: seq<Snapshot>)
    requires p.Valid()
    ensures var valid := ValidOnes(p, snapshots);
      AggregateOf(p, snapshots).Some? <==>
        |valid| >= p.minSources && !(|valid| == 2 && TooFarApart(p, ValueOf(valid[0]), ValueOf(valid[1])))
  {
    hide ValidOnes, Observations, InheritedFlags, DeviationFlags, Median, PairwiseDeviation, TooFarApart;
    ValidMembers(p, snapshots);
    var values := ValuesOf(ValidOnes(p, snapshots));
    if |values| == 2 {
      DisagreesMeans(p, values[0], values[1]);
    }
  }

  /** One observation per valid source, with its deviation in percent of the median, to six decimals. */
  ghost predicate Observes(valid: seq<Snapshot>, median: real, observations: seq<Observation>) {
    && |observations| == |valid|
    && forall i :: 0 <= i < |valid| ==>
         && observations[i].source == valid[i].source && observations[i].value == ValueOf(valid[i])
         && observations[i].contentHash == valid[i].contentHash
         && exists percent :: percent * median == 100.0 * Abs(ValueOf(valid[i]) - median) && observations[i].deviation == Round6(percent)
  }

  lemma PercentOf(value: real, median: real)
    requires median > 0.0
    ensures DeviationFrom(value, median) * median == 100.0 * Abs(value - median)
  {
    var q := Abs(value - median) / median;
    assert q * median == Abs(value - median);
  }

  lemma {:induction false} SourcesAreObserved(valid: seq<Snapshot>, median: real)
    requires median > 0.0
    ensures Observes(valid, median, Observations(valid, median))
  {
    hide DeviationFrom, Round6, ValueOf;
    if valid != [] {
      SourcesAreObserved(valid[..|valid| - 1], median);
      PercentOf(ValueOf(valid[|valid| - 1]), median);
    }
  }

  lemma {:induction false} InheritedExactly(valid: seq<Snapshot>, f: SourceFlag)
    ensures f in InheritedFlags(valid) <==> f.Inherited? && exists i :: 0 <= i < |valid| && f.text in valid[i].flags
  {
    if valid != [] {
      var n := |valid| - 1;
      InheritedExactly(valid[..n], f);
      var own := Each((text: string) => Inherited(text), valid[n].flags);
      if f in own {
        var k :| 0 <= k < |own| && own[k] == f;
        assert f.text in valid[n].flags;
      }
      if f.Inherited? && f.text in valid[n].flags {
        var k :| 0 <= k < |valid[n].flags| && valid[n].flags[k] == f.text;
        assert own[k] == f;
      }
    }
  }

  ghost predicate FlaggedAt(p: Policy, valid: seq<Snapshot>, median: real, f: SourceFlag, i: nat)
    requires median > 0.0
  {
    && i < |valid| && f.CrossSourceDeviation? && f.source == valid[i].source
    && TooFarOff(p, ValueOf(valid[i]), median) && f.deviation == Round6(DeviationFrom(ValueOf(valid[i]), median))
  }

  lemma {:induction false} DeviationsExactly(p: Policy, valid: seq<Snapshot>, median: real, f: SourceFlag)
    requires median > 0.0
    ensures f in DeviationFlags(p, valid, median) <==> exists i: nat :: FlaggedAt(p, valid, median, f, i)
  {
    hide DeviationFrom, Round6, TooFarOff, Deviates, ValueOf;
    if valid != [] {
      var n := |valid| - 1;
      DeviationsExactly(p, valid[..n], median, f);
      DeviatesMeans(p, valid[n], median);
      if i: nat :| FlaggedAt(p, valid[..n], median, f, i) {
        assert FlaggedAt(p, valid, median, f, i);
      }
      if i: nat :| FlaggedAt(p, valid, median, f, i) {
        assert i < n ==> FlaggedAt(p, valid[..n], median, f, i);
      }
      if f == CrossSourceDeviation(valid[n].source, Round6(DeviationFrom(ValueOf(valid[n]), median))) && Deviates(p, valid[n], median) {
        assert FlaggedAt(p, valid, median, f, n);
      }
    }
  }

  /**
   * An aggregate is the median of the valid sources, with one observation each, and carries exactly
   * the flags its sources bring, one if sources are missing, and one per source too far from the median.
   */
  lemma AggregateSays(p: Policy, snapshots: seq<Snapshot>, f: SourceFlag)
    requires p.Valid() && AggregateOf(p, snapshots).Some?
    ensures var valid, a := ValidOnes(p, snapshots), AggregateOf(p, snapshots).value;
      && valid != [] && a.value == Median(ValuesOf(valid)) && a.sources == |valid|
      && Observes(valid, a.value, a.observations)
      && (f in a.flags <==>
            || (f.Inherited? && exists i :: 0 <= i < |valid| && f.text in valid[i].flags)
            || (f == ReducedSourceCount(|p.configured|, |valid|) && |valid| < |p.configured|)
            || exists i: nat :: FlaggedAt(p, valid, a.value, f, i))
  {
    var valid := ValidOnes(p, snapshots);
    hide ValidOnes, Observations, InheritedFlags, DeviationFlags, Median, PairwiseDeviation, FlaggedAt, Observes;
    var median := AggregateOf(p, snapshots).value.value;
    SourcesAreObserved(valid, median);
    InheritedExactly(valid, f);
    DeviationsExactly(p, valid, median, f);
  }

  // The median follows every change of unit, and mirrors.

  function At(a: real, b: real, x: real): real { a * x + b }

  function Line(a: real, b: real, values: seq<real>): seq<real> { Each((x: real) => At(a, b, x), values) }

  lemma AtKeepsOrder(a: real, b: real, x: real, y: real)
    requires x <= y
    ensures a > 0.0 ==> At(a, b, x) <= At(a, b, y)
    ensures a < 0.0 ==> At(a, b, y) <= At(a, b, x)
  {
    ProductNonNegative(y - x, if a > 0.0 then a else if a < 0.0 then -a else 0.0);
  }

  function Back(values: seq<real>): (r: seq<real>)
    ensures |r| == |values| && forall i :: 0 <= i < |values| ==> r[i] == values[|values| - 1 - i]
  {
    seq(|values|, i requires 0 <= i < |values| => values[|values| - 1 - i])
  }

  lemma {:induction false} BackPermutes(values: seq<real>)
    ensures multiset(Back(values)) == multiset(values)
  {
    if values == [] {
      assert Back(values) == values;
    } else {
      BackPermutes(values[1..]);
      assert Back(values) == Back(values[1..]) + [values[0]];
      assert values == [values[0]] + values[1..];
    }
  }

  lemma SortedOnce(a: seq<real>, b: seq<real>)
    requires multiset(a) == multiset(b) && Sorted(AtMost, b)
    ensures Sort(AtMost, a) == b
  {
    AtMostIsTotal();
    SortSorts(AtMost, a);
    SortPermutes(AtMost, a);
    SortedIsUnique(AtMost, b, Sort(AtMost, a));
  }

  /** Sorting the changed values is changing the sorted ones, turned round when the change turns them round. */
  lemma SortUnderChange(a: real, b: real, values: seq<real>)
    requires a != 0.0
    ensures Sort(AtMost, Line(a, b, values)) ==
      if a > 0.0 then Line(a, b, Sort(AtMost, values)) else Back(Line(a, b, Sort(AtMost, values)))
  {
    hide At, Sort;
    var sorted := Sort(AtMost, values);
    SortPermutes(AtMost, values);
    EachForgetsOrder((x: real) => At(a, b, x), values, sorted);
    AtMostIsTotal();
    SortSorts(AtMost, values);
    var moved := Line(a, b, sorted);
    forall i, j | 0 <= i < j < |sorted|
      ensures a > 0.0 ==> moved[i] <= moved[j]
      ensures a < 0.0 ==> moved[j] <= moved[i]
    {
      assert AtMost(sorted[i], sorted[j]);
      AtKeepsOrder(a, b, sorted[i], sorted[j]);
    }
    BackPermutes(moved);
    SortedOnce(Line(a, b, values), if a > 0.0 then moved else Back(moved));
  }

  /** The median of changed values is the changed median, for every change of unit, level and direction. */
  lemma MedianUnderAffineChange(a: real, b: real, values: seq<real>)
    requires a != 0.0 && values != []
    ensures |Line(a, b, values)| == |values| && Median(Line(a, b, values)) == At(a, b, Median(values))
  {
    hide At, Sort, Middle, Line, Back;
    SortUnderChange(a, b, values);
    SortPermutes(AtMost, values);
    var sorted := Sort(AtMost, values);
    MiddleUnderChange(a, b, sorted);
    assert |Line(a, b, values)| == |values| by { LineLength(a, b, values); }
  }

  lemma LineLength(a: real, b: real, values: seq<real>)
    ensures |Line(a, b, values)| == |values|
  {}

  lemma MiddleUnderChange(a: real, b: real, sorted: seq<real>)
    requires sorted != []
    ensures |Line(a, b, sorted)| == |sorted|
    ensures Middle(Line(a, b, sorted)) == Middle(Back(Line(a, b, sorted))) == At(a, b, Middle(sorted))
  {
    var half := |sorted| / 2;
    if |sorted| % 2 == 0 {
      HalfWay(a, b, sorted[half - 1], sorted[half]);
      hide At;
    }
  }

  lemma HalfWay(a: real, b: real, x: real, y: real)
    ensures (At(a, b, x) + At(a, b, y)) / 2.0 == At(a, b, (x + y) / 2.0) == (At(a, b, y) + At(a, b, x)) / 2.0
  {
    assert a * ((x + y) / 2.0) == (a * x + a * y) / 2.0;
  }
}
