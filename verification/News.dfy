/** The news digest: weighting every item per asset, ranking, and capping without starving an asset. */
module News {
  import opened Common
  import opened RealFacts
  import opened Folds
  import opened Sorting
  import TextOrder

  datatype NewsItem = NewsItem(newsId: string, source: string, publishedAt: string, text: string)

  datatype Weight = Weight(relevance: real, effective: real)

  datatype Weighted = Weighted(
    newsId: string,
    item: NewsItem,
    quality: real,
    decay: real,
    weights: map<string, Weight>,
    maxEffective: real)

  /**
   * The tables and the clock of one run. Keyword relevance, freshness and exponential decay are
   * whatever functions of the item they are.
   */
  datatype Desk = Desk(
    quality: map<string, real>,
    defaultQuality: real,
    halfLives: map<string, real>,
    relevance: (NewsItem, string) -> real,
    timely: NewsItem -> bool,
    decay: (NewsItem, real) -> real)

  const CAP: nat := 40
  const PRIMARY := ["BTC", "ETH", "GOLD", "WTI"]

  function Unit(x: real): (u: real)
    ensures 0.0 <= u <= 1.0
  {
    Clamp(x, 0.0, 1.0)
  }

  function QualityOf(desk: Desk, source: string): (quality: real)
    ensures 0.0 <= quality <= 1.0
  {
    Unit(if source in desk.quality then desk.quality[source] else desk.defaultQuality)
  }

  /** None when the half-life that applies is not positive. */
  function HalfLife(desk: Desk, eventType: Option<string>): Option<real> {
    var table := desk.halfLives;
    var hours :=
      if eventType.Some? && eventType.value in table then table[eventType.value]
      else if "default" in table then table["default"]
      else 12.0;
    if hours <= 0.0 then None else Some(hours)
  }

  // Weighting one item.

  function EffectiveWeight(quality: real, relevance: real, decay: real): (weight: real)
    ensures 0.0 <= weight <= 1.0
  {
    Unit(quality * relevance * decay)
  }

  function WeightOn(desk: Desk, item: NewsItem, halfLife: real, asset: string): Weight {
    var relevance := Unit(desk.relevance(item, asset));
    Weight(relevance, EffectiveWeight(QualityOf(desk, item.source), relevance, Unit(desk.decay(item, halfLife))))
  }

  /** The target assets the item has anything to do with, each with its own weight. */
  function WeightsFor(desk: Desk, item: NewsItem, halfLife: real, targets: seq<string>): map<string, Weight> {
    if targets == [] then map[]
    else
      var before, last := WeightsFor(desk, item, halfLife, targets[..|targets| - 1]), targets[|targets| - 1];
      if Unit(desk.relevance(item, last)) <= 0.0 then before
      else before[last := WeightOn(desk, item, halfLife, last)]
  }

  /** The greatest effective weight over the targets the item is relevant to; 0 without any. */
  function Strongest(desk: Desk, item: NewsItem, halfLife: real, targets: seq<string>): real {
    if targets == [] then 0.0
    else
      var before, last := Strongest(desk, item, halfLife, targets[..|targets| - 1]), targets[|targets| - 1];
      if Unit(desk.relevance(item, last)) <= 0.0 then before
      else MaxReal(before, WeightOn(desk, item, halfLife, last).effective)
  }

  function Weigh(desk: Desk, item: NewsItem, halfLife: real, targets: seq<string>): Weighted {
    Weighted(item.newsId, item, QualityOf(desk, item.source), Unit(desk.decay(item, halfLife)),
             WeightsFor(desk, item, halfLife, targets), Strongest(desk, item, halfLife, targets))
  }

  predicate Relevant(desk: Desk, item: NewsItem, targets: seq<string>) {
    exists i :: 0 <= i < |targets| && desk.relevance(item, targets[i]) > 0.0
  }

  predicate Eligible(desk: Desk, item: NewsItem, targets: seq<string>) {
    Relevant(desk, item, targets) && desk.timely(item)
  }

  function Weighed(desk: Desk, items: seq<NewsItem>, halfLife: real, targets: seq<string>): seq<Weighted> {
    Each((item: NewsItem) => Weigh(desk, item, halfLife, targets),
         Keep((item: NewsItem) => Eligible(desk, item, targets), items))
  }

  // Ranking and the cap.

  /** Stronger, or as strong with the smaller id. */
  predicate Outranks(a: Weighted, b: Weighted) {
    a.maxEffective > b.maxEffective || (a.maxEffective == b.maxEffective && TextOrder.Leq(a.newsId, b.newsId))
  }

  predicate Covers(w: Weighted, asset: string) { asset in w.weights }

  /** The best-ranked item about the asset. */
  function Representative(ranked: seq<Weighted>, asset: string): Option<Weighted> {
    if ranked == [] then None
    else if Covers(ranked[0], asset) then Some(ranked[0])
    else Representative(ranked[1..], asset)
  }

  function Representatives(ranked: seq<Weighted>, assets: seq<string>): set<string> {
    if assets == [] then {}
    else
      var last := Representative(ranked, assets[|assets| - 1]);
      Representatives(ranked, assets[..|assets| - 1]) + if last.Some? then {last.value.newsId} else {}
  }

  function Fill(ranked: seq<Weighted>, selected: set<string>, cap: nat): set<string> {
    if ranked == [] || |selected| >= cap then selected else Fill(ranked[1..], selected + {ranked[0].newsId}, cap)
  }

  function Chosen(ranked: seq<Weighted>, cap: nat): set<string> { Fill(ranked, Representatives(ranked, PRIMARY), cap) }

  function KeepChosen(ranked: seq<Weighted>, chosen: set<string>): seq<Weighted> {
    Keep((w: Weighted) => w.newsId in chosen, ranked)
  }

  function Select(ranked: seq<Weighted>, cap: nat): seq<Weighted> {
    if |ranked| <= cap then ranked
    else
      var kept := KeepChosen(ranked, Chosen(ranked, cap));
      if |kept| <= cap then kept else kept[..cap]
  }

  /** The digest; None when the half-life that applies is not positive. */
  function Digest(desk: Desk, items: seq<NewsItem>, targets: seq<string>,
                  eventType: Option<string>): Option<seq<Weighted>> {
    if targets == [] || items == [] then Some([])
    else
      var halfLife := HalfLife(desk, eventType);
      if halfLife.None? then None
      else Some(Select(Sort(Outranks, Weighed(desk, items, halfLife.value, targets)), CAP))
  }

  // The loops.

  method WeighItem(desk: Desk, item: NewsItem, halfLife: real, targets: seq<string>) returns (w: Weighted)
    ensures w == Weigh(desk, item, halfLife, targets)
  {
    var weights: map<string, Weight> := map[];
    var strongest := 0.0;
    for i := 0 to |targets|
      invariant weights == WeightsFor(desk, item, halfLife, targets[..i])
      invariant strongest == Strongest(desk, item, halfLife, targets[..i])
    {
      assert targets[..i + 1][..i] == targets[..i];
      var relevance := Unit(desk.relevance(item, targets[i]));
      if relevance > 0.0 {
        var weight := WeightOn(desk, item, halfLife, targets[i]);
        weights := weights[targets[i] := weight];
        strongest := MaxReal(strongest, weight.effective);
      }
    }
    assert targets[..|targets|] == targets;
    w := Weighted(item.newsId, item, QualityOf(desk, item.source), Unit(desk.decay(item, halfLife)), weights, strongest);
  }

  method SelectItems(ranked: seq<Weighted>, cap: nat) returns (out: seq<Weighted>)
    ensures out == Select(ranked, cap)
  {
    if |ranked| <= cap {
      return ranked;
    }
    var selected: set<string> := {};
    for i := 0 to |PRIMARY|
      invariant selected == Representatives(ranked, PRIMARY[..i])
    {
      assert PRIMARY[..i + 1][..i] == PRIMARY[..i];
      var representative := Representative(ranked, PRIMARY[i]);
      if representative.Some? {
        selected := selected + {representative.value.newsId};
      }
    }
    assert PRIMARY[..|PRIMARY|] == PRIMARY;
    var k := 0;
    while k < |ranked| && |selected| < cap
      invariant k <= |ranked| && Fill(ranked[k..], selected, cap) == Chosen(ranked, cap)
    {
      selected := selected + {ranked[k].newsId};
      k := k + 1;
    }
    out := KeepChosen(ranked, selected);
    if |out| > cap {
      out := out[..cap];
    }
  }

  method BuildDigest(desk: Desk, items: seq<NewsItem>, targets: seq<string>, eventType: Option<string>)
    returns (digest: Option<seq<Weighted>>)
    ensures digest == Digest(desk, items, targets, eventType)
  {
    if targets == [] || items == [] {
      return Some([]);
    }
    var halfLife := HalfLife(desk, eventType);
    if halfLife.None? {
      return None;
    }
    var weighted: seq<Weighted> := [];
    for i := 0 to |items|
      invariant weighted == Weighed(desk, items[..i], halfLife.value, targets)
    {
      WeighedSnoc(desk, items[..i], items[i], halfLife.value, targets);
      assert items[..i + 1] == items[..i] + [items[i]];
      if Relevant(desk, items[i], targets) && desk.timely(items[i]) {
        var w := WeighItem(desk, items[i], halfLife.value, targets);
        weighted := weighted + [w];
      }
    }
    assert items[..|items|] == items;
    var out := SelectItems(Sort(Outranks, weighted), CAP);
    digest := Some(out);
  }

  lemma WeighedSnoc(desk: Desk, items: seq<NewsItem>, item: NewsItem, halfLife: real, targets: seq<string>)
    ensures Weighed(desk, items + [item], halfLife, targets)
         == Weighed(desk, items, halfLife, targets)
            + if Eligible(desk, item, targets) then [Weigh(desk, item, halfLife, targets)] else []
  {
    KeepConcat((i: NewsItem) => Eligible(desk, i, targets), items, [item]);
  }

  // Weights.

  /**
   * An effective weight is exactly quality times relevance times decay: the operands are clamped to
   * [0, 1] first, so the final clamp never acts and the product can be recomputed from what is
   * published.
   */
  lemma EffectiveIsExactProduct(quality: real, relevance: real, decay: real)
    requires 0.0 <= quality <= 1.0 && 0.0 <= relevance <= 1.0 && 0.0 <= decay <= 1.0
    ensures EffectiveWeight(quality, relevance, decay) == quality * relevance * decay
    ensures 0.0 <= EffectiveWeight(quality, relevance, decay) <= relevance
  {
    Shrinks(relevance, quality);
    Shrinks(quality * relevance, decay);
    UnitKeeps(quality * relevance * decay);
  }

  lemma Shrinks(p: real, factor: real)
    requires p >= 0.0 && 0.0 <= factor <= 1.0
    ensures 0.0 <= p * factor <= p
  {
    ProductNonNegative(p, factor);
    ProductMonotone(factor, 1.0, p);
  }

  lemma UnitKeeps(x: real)
    requires 0.0 <= x <= 1.0
    ensures Unit(x) == x
  {}

  /** An item carries exactly the targets it is relevant to, and ranks by the greatest of their weights. */
  lemma {:induction false} RankedByStrongestWeight(desk: Desk, item: NewsItem, halfLife: real, targets: seq<string>)
    ensures var w := Weigh(desk, item, halfLife, targets);
      && (forall asset :: asset in w.weights <==> asset in targets && desk.relevance(item, asset) > 0.0)
      && (forall asset :: asset in w.weights ==>
            w.weights[asset] == WeightOn(desk, item, halfLife, asset) && w.weights[asset].effective <= w.maxEffective)
      && (w.weights == map[] ==> w.maxEffective == 0.0)
      && (w.weights != map[] ==> exists asset :: asset in w.weights && w.weights[asset].effective == w.maxEffective)
  {
    hide EffectiveWeight;
    if targets != [] {
      var front, last := targets[..|targets| - 1], targets[|targets| - 1];
      RankedByStrongestWeight(desk, item, halfLife, front);
      assert targets == front + [last];
      var v, w := Weigh(desk, item, halfLife, front), Weigh(desk, item, halfLife, targets);
      assert last in w.weights ==> w.weights[last] == WeightOn(desk, item, halfLife, last);
      if v.weights != map[] {
        var asset :| asset in v.weights && v.weights[asset].effective == v.maxEffective;
        assert asset in w.weights && w.weights[asset].effective == v.maxEffective;
      }
    }
  }

  function Cut(x: real): real { if x < 0.0 then 0.0 else if x > 1.0 then 1.0 else x }

  /** A weight is source quality times relevance times decay, each cut to the unit range; an unlisted source has the default quality. */
  lemma WeightExactly(desk: Desk, item: NewsItem, halfLife: real, asset: string)
    ensures var w := WeightOn(desk, item, halfLife, asset);
      var quality := Cut(if item.source in desk.quality then desk.quality[item.source] else desk.defaultQuality);
      && QualityOf(desk, item.source) == quality
      && w.relevance == Cut(desk.relevance(item, asset))
      && w.effective == quality * w.relevance * Cut(desk.decay(item, halfLife))
  {
    hide EffectiveWeight, Unit, Cut;
    UnitIsCut(if item.source in desk.quality then desk.quality[item.source] else desk.defaultQuality);
    UnitIsCut(desk.relevance(item, asset));
    UnitIsCut(desk.decay(item, halfLife));
    EffectiveIsExactProduct(QualityOf(desk, item.source), Unit(desk.relevance(item, asset)), Unit(desk.decay(item, halfLife)));
  }

  lemma UnitIsCut(x: real)
    ensures Unit(x) == Cut(x) && 0.0 <= Unit(x) <= 1.0
  {}

  /** The half-life is that of the event type, else the default one, else twelve hours; it must be positive. */
  lemma HalfLifeExactly(desk: Desk, eventType: Option<string>, hours: real)
    ensures HalfLife(desk, eventType) == Some(hours) <==>
      && hours > 0.0
      && var own := eventType.Some? && eventType.value in desk.halfLives;
         && (own ==> hours == desk.halfLives[eventType.value])
         && (!own && "default" in desk.halfLives ==> hours == desk.halfLives["default"])
         && (!own && "default" !in desk.halfLives ==> hours == 12.0)
  {}
}

/** What the ranked and capped digest guarantees. */
module DigestLaws {
  import opened Common
  import opened Folds
  import opened News
  import opened Sorting
  import TextOrder

  function IdOf(w: Weighted): string { w.newsId }

  ghost predicate DistinctIds(ranked: seq<Weighted>) { DistinctBy(IdOf, ranked) }

  function Ids(ranked: seq<Weighted>): set<string> { set w | w in ranked :: w.newsId }

  lemma IdsCons(ranked: seq<Weighted>)
    requires ranked != []
    ensures Ids(ranked) == {ranked[0].newsId} + Ids(ranked[1..])
  {
    assert ranked == [ranked[0]] + ranked[1..];
  }

  lemma IntersectCons(id: string, rest: set<string>, chosen: set<string>)
    requires id !in rest
    ensures |chosen * ({id} + rest)| == |chosen * rest| + if id in chosen then 1 else 0
  {
    if id in chosen {
      assert chosen * ({id} + rest) == chosen * rest + {id};
    } else {
      assert chosen * ({id} + rest) == chosen * rest;
    }
  }

  lemma FirstIdIsNew(ranked: seq<Weighted>)
    requires ranked != [] && DistinctIds(ranked)
    ensures ranked[0].newsId !in Ids(ranked[1..]) && DistinctIds(ranked[1..])
  {
    var rest := ranked[1..];
    forall k | 0 <= k < |rest| ensures rest[k].newsId != ranked[0].newsId {
      assert IdOf(ranked[0]) != IdOf(ranked[k + 1]);
    }
  }

  lemma KeepChosenCons(ranked: seq<Weighted>, chosen: set<string>)
    requires ranked != []
    ensures KeepChosen(ranked, chosen)
         == (if ranked[0].newsId in chosen then [ranked[0]] else []) + KeepChosen(ranked[1..], chosen)
  {}

  /** Keeping the items with chosen ids keeps as many as there are chosen ids. */
  lemma {:induction false} KeptCount(ranked: seq<Weighted>, chosen: set<string>)
    requires DistinctIds(ranked)
    ensures |KeepChosen(ranked, chosen)| == |chosen * Ids(ranked)|
  {
    if ranked == [] {
      assert chosen * Ids(ranked) == {};
    } else {
      FirstIdIsNew(ranked);
      IdsCons(ranked);
      KeepChosenCons(ranked, chosen);
      hide KeepChosen, Ids, DistinctIds;
      KeptCount(ranked[1..], chosen);
      IntersectCons(ranked[0].newsId, Ids(ranked[1..]), chosen);
    }
  }

  lemma {:induction false} DistinctCount(ranked: seq<Weighted>)
    requires DistinctIds(ranked)
    ensures |Ids(ranked)| == |ranked|
  {
    KeptCount(ranked, Ids(ranked));
    assert Ids(ranked) * Ids(ranked) == Ids(ranked);
    forall k | 0 <= k < |ranked| ensures ranked[k].newsId in Ids(ranked) {}
    KeepAll((w: Weighted) => w.newsId in Ids(ranked), ranked);
  }

  lemma IdsOfPrefix(ranked: seq<Weighted>, n: nat)
    requires n < |ranked|
    ensures Ids(ranked[..n + 1]) == {ranked[0].newsId} + Ids(ranked[1..][..n])
  {
    IdsCons(ranked[..n + 1]);
    assert ranked[..n + 1][1..] == ranked[1..][..n];
  }

  lemma OneMore(s: set<string>, id: string)
    ensures |s + {id}| <= |s| + 1
  {
    assert id in s ==> s + {id} == s;
  }

  /**
   * Filling adds the ids of the best-ranked items, one at a time, until the cap is reached; so with
   * enough items it ends at the cap, or where it started if that was beyond it.
   */
  lemma {:induction false} FillLaws(ranked: seq<Weighted>, selected: set<string>, cap: nat) returns (k: nat)
    ensures k <= |ranked| && Fill(ranked, selected, cap) == selected + Ids(ranked[..k])
    ensures k < |ranked| ==> |Fill(ranked, selected, cap)| >= cap
    ensures |Fill(ranked, selected, cap)| <= if |selected| < cap then cap else |selected|
  {
    if ranked == [] || |selected| >= cap {
      k := 0;
      assert Ids(ranked[..0]) == {};
    } else {
      hide Ids;
      var id := ranked[0].newsId;
      OneMore(selected, id);
      var l := FillLaws(ranked[1..], selected + {id}, cap);
      k := l + 1;
      IdsOfPrefix(ranked, l);
      assert (selected + {id}) + Ids(ranked[1..][..l]) == selected + ({id} + Ids(ranked[1..][..l]));
    }
  }

  lemma {:induction false} RepresentativeIsBest(ranked: seq<Weighted>, asset: string) returns (k: nat)
    ensures Representative(ranked, asset).None? <==> forall i :: 0 <= i < |ranked| ==> !Covers(ranked[i], asset)
    ensures Representative(ranked, asset).Some? ==>
      && k < |ranked| && Representative(ranked, asset) == Some(ranked[k]) && Covers(ranked[k], asset)
      && forall i :: 0 <= i < k ==> !Covers(ranked[i], asset)
  {
    k := 0;
    if ranked != [] && !Covers(ranked[0], asset) {
      var l := RepresentativeIsBest(ranked[1..], asset);
      k := l + 1;
      assert forall i :: 0 < i < |ranked| ==> ranked[i] == ranked[1..][i - 1];
    }
  }

  ghost predicate Represents(ranked: seq<Weighted>, w: Weighted) {
    exists asset :: asset in PRIMARY && Representative(ranked, asset) == Some(w)
  }

  ghost predicate IdRepresents(ranked: seq<Weighted>, assets: seq<string>, id: string) {
    exists asset :: asset in assets && Representative(ranked, asset).Some? && Representative(ranked, asset).value.newsId == id
  }

  /** The representatives are one item for each asset that any ranked item covers. */
  lemma {:induction false} RepresentativesLaws(ranked: seq<Weighted>, assets: seq<string>)
    ensures |Representatives(ranked, assets)| <= |assets| && Representatives(ranked, assets) <= Ids(ranked)
    ensures forall id :: id in Representatives(ranked, assets) <==> IdRepresents(ranked, assets, id)
  {
    if assets != [] {
      var front, last := assets[..|assets| - 1], assets[|assets| - 1];
      RepresentativesLaws(ranked, front);
      var _ := RepresentativeIsBest(ranked, last);
      assert assets == front + [last];
      forall id ensures IdRepresents(ranked, assets, id) <==>
          IdRepresents(ranked, front, id)
          || (Representative(ranked, last).Some? && Representative(ranked, last).value.newsId == id)
      {
        if IdRepresents(ranked, front, id) {
          var asset :| asset in front && Representative(ranked, asset).Some? && Representative(ranked, asset).value.newsId == id;
          assert asset in assets;
        }
        assert last in assets;
      }
    }
  }

  /** `a` is `b` with some elements left out. */
  predicate Subsequence<T(==)>(a: seq<T>, b: seq<T>) {
    a == [] || (b != [] && ((a[0] == b[0] && Subsequence(a[1..], b[1..])) || Subsequence(a, b[1..])))
  }

  lemma {:induction false} KeepIsSubsequence<T>(p: T -> bool, s: seq<T>, n: nat)
    requires n <= |Keep(p, s)|
    ensures Subsequence(Keep(p, s)[..n], s)
  {
    if s != [] && n > 0 {
      if p(s[0]) {
        KeepIsSubsequence(p, s[1..], n - 1);
        assert Keep(p, s)[..n][1..] == Keep(p, s[1..])[..n - 1];
      } else {
        KeepIsSubsequence(p, s[1..], n);
        assert Keep(p, s) == Keep(p, s[1..]);
      }
    }
  }

  lemma {:induction false} WholeIsSubsequence<T>(s: seq<T>)
    ensures Subsequence(s, s)
  {
    if s != [] {
      WholeIsSubsequence(s[1..]);
    }
  }

  /** Cutting what is kept is keeping from a cut. */
  lemma {:induction false} KeepPrefix<T>(p: T -> bool, s: seq<T>, n: nat) returns (m: nat)
    requires n <= |Keep(p, s)|
    ensures m <= |s| && Keep(p, s)[..n] == Keep(p, s[..m])
  {
    if n == 0 {
      m := 0;
    } else {
      var rest := if p(s[0]) then n - 1 else n;
      var l := KeepPrefix(p, s[1..], rest);
      m := l + 1;
      assert s[..m][1..] == s[1..][..l] && s[..m][0] == s[0];
    }
  }

  lemma AtOnePlace(ranked: seq<Weighted>, i: nat, j: nat)
    requires DistinctIds(ranked) && i < |ranked| && j < |ranked| && ranked[i].newsId == ranked[j].newsId
    ensures i == j
  {
    var key := IdOf;
    assert key(ranked[i]) == key(ranked[j]);
  }

  /** What gets chosen beyond the cap: the representatives and the ids of the best-ranked items. */
  lemma ChosenLaws(ranked: seq<Weighted>, cap: nat) returns (k: nat)
    requires DistinctIds(ranked) && |ranked| > cap
    ensures k <= |ranked| && Chosen(ranked, cap) == Representatives(ranked, PRIMARY) + Ids(ranked[..k])
    ensures |KeepChosen(ranked, Chosen(ranked, cap))| >= cap
    ensures cap >= |PRIMARY| ==> |KeepChosen(ranked, Chosen(ranked, cap))| == cap
  {
    hide Representatives, Fill, KeepChosen, Ids;
    var representatives, chosen := Representatives(ranked, PRIMARY), Chosen(ranked, cap);
    k := FillLaws(ranked, representatives, cap);
    RepresentativesLaws(ranked, PRIMARY);
    PrefixIds(ranked, k);
    KeptCount(ranked, chosen);
    assert chosen * Ids(ranked) == chosen;
    if k == |ranked| {
      assert ranked[..k] == ranked;
      DistinctCount(ranked);
      assert chosen == Ids(ranked);
    }
  }

  lemma PrefixIds(ranked: seq<Weighted>, k: nat)
    requires k <= |ranked|
    ensures Ids(ranked[..k]) <= Ids(ranked)
  {
    forall id | id in Ids(ranked[..k]) ensures id in Ids(ranked) {
      var w :| w in ranked[..k] && w.newsId == id;
      assert w in ranked;
    }
  }

  /** Select as one cut: everything chosen among the first `m` ranked items. */
  lemma SelectIsCut(ranked: seq<Weighted>, cap: nat) returns (m: nat)
    requires DistinctIds(ranked) && |ranked| > cap
    ensures m <= |ranked| && Select(ranked, cap) == KeepChosen(ranked[..m], Chosen(ranked, cap)) && |Select(ranked, cap)| == cap
    ensures cap >= |PRIMARY| ==> Select(ranked, cap) == KeepChosen(ranked, Chosen(ranked, cap))
    ensures Subsequence(Select(ranked, cap), ranked)
  {
    var _ := ChosenLaws(ranked, cap);
    var chosen := Chosen(ranked, cap);
    var p := (w: Weighted) => w.newsId in chosen;
    var kept := KeepChosen(ranked, chosen);
    assert kept == Keep(p, ranked);
    m := KeepPrefix(p, ranked, cap);
    KeepIsSubsequence(p, ranked, cap);
    assert |kept| == cap ==> kept[..cap] == kept;
  }

  lemma KeepChosenMembers(ranked: seq<Weighted>, chosen: set<string>, w: Weighted)
    ensures w in KeepChosen(ranked, chosen) <==> w in ranked && w.newsId in chosen
  {
    KeepKept((v: Weighted) => v.newsId in chosen, ranked);
  }

  lemma CoverageSurvives(ranked: seq<Weighted>, cap: nat, asset: string)
    requires DistinctIds(ranked) && cap >= |PRIMARY| && asset in PRIMARY && Representative(ranked, asset).Some?
    ensures Representative(ranked, asset).value in Select(ranked, cap)
  {
    var k := RepresentativeIsBest(ranked, asset);
    if |ranked| > cap {
      var _ := SelectIsCut(ranked, cap);
      var _ := ChosenLaws(ranked, cap);
      RepresentativesLaws(ranked, PRIMARY);
      assert IdRepresents(ranked, PRIMARY, ranked[k].newsId);
      KeepChosenMembers(ranked, Chosen(ranked, cap), ranked[k]);
    }
  }

  lemma TakenInRankOrder(ranked: seq<Weighted>, i: nat, j: nat, k: nat)
    requires DistinctIds(ranked) && i < j < |ranked| && k <= |ranked|
    ensures ranked[j].newsId in Ids(ranked[..k]) ==> ranked[i].newsId in Ids(ranked[..k])
  {
    if ranked[j].newsId in Ids(ranked[..k]) {
      var w :| w in ranked[..k] && w.newsId == ranked[j].newsId;
      var n :| 0 <= n < k && ranked[..k][n] == w;
      AtOnePlace(ranked, n, j);
      assert ranked[..k][i] == ranked[i];
    }
  }

  lemma OnlyRepresentativesJump(ranked: seq<Weighted>, cap: nat, i: nat, j: nat)
    requires DistinctIds(ranked) && i < j < |ranked|
    requires ranked[i] !in Select(ranked, cap) && ranked[j] in Select(ranked, cap)
    ensures Represents(ranked, ranked[j])
  {
    assert |ranked| > cap;
    var m := SelectIsCut(ranked, cap);
    var k := ChosenLaws(ranked, cap);
    var chosen := Chosen(ranked, cap);
    KeepChosenMembers(ranked[..m], chosen, ranked[i]);
    KeepChosenMembers(ranked[..m], chosen, ranked[j]);
    hide Select, Chosen, KeepChosen;
    var l :| 0 <= l < m && ranked[..m][l] == ranked[j];
    AtOnePlace(ranked, l, j);
    assert ranked[..m][i] == ranked[i];
    TakenInRankOrder(ranked, i, j, k);
    RepresentativesLaws(ranked, PRIMARY);
    assert IdRepresents(ranked, PRIMARY, ranked[j].newsId);
    var asset :| asset in PRIMARY && Representative(ranked, asset).Some? && Representative(ranked, asset).value.newsId == ranked[j].newsId;
    var n := RepresentativeIsBest(ranked, asset);
    AtOnePlace(ranked, n, j);
  }

  /**
   * The capped digest of a ranking with distinct ids: a subsequence of the ranking, as long as the
   * cap allows; with room for the four primary assets it holds the best-ranked item about each of
   * them that any item covers; and an item is passed over for a lower-ranked one only when the
   * latter represents a primary asset.
   */
  lemma CappedDigest(ranked: seq<Weighted>, cap: nat)
    requires DistinctIds(ranked)
    ensures var out := Select(ranked, cap);
      && |out| == (if |ranked| <= cap then |ranked| else cap)
      && Subsequence(out, ranked)
      && (cap >= |PRIMARY| ==> forall asset :: asset in PRIMARY && Representative(ranked, asset).Some? ==>
            Representative(ranked, asset).value in out)
      && (forall i, j :: 0 <= i < j < |ranked| && ranked[i] !in out && ranked[j] in out ==> Represents(ranked, ranked[j]))
  {
    if |ranked| <= cap {
      WholeIsSubsequence(ranked);
    } else {
      var _ := SelectIsCut(ranked, cap);
    }
    forall asset | cap >= |PRIMARY| && asset in PRIMARY && Representative(ranked, asset).Some?
      ensures Representative(ranked, asset).value in Select(ranked, cap)
    {
      CoverageSurvives(ranked, cap, asset);
    }
    forall i, j | 0 <= i < j < |ranked| && ranked[i] !in Select(ranked, cap) && ranked[j] in Select(ranked, cap)
      ensures Represents(ranked, ranked[j])
    {
      OnlyRepresentativesJump(ranked, cap, i, j);
    }
  }

  /** Whether a digest says anything about the asset. */
  ghost predicate Mentions(digest: seq<Weighted>, asset: string) {
    exists i :: 0 <= i < |digest| && Covers(digest[i], asset)
  }

  /**
   * When the cap spares a primary asset, whether or not ids are distinct: exactly when fewer chosen
   * items than the cap rank before the first item about it. Otherwise the digest says nothing of it.
   */
  lemma CoverageExactlyWhen(ranked: seq<Weighted>, cap: nat, asset: string, k: nat)
    requires asset in PRIMARY && k < |ranked| && Covers(ranked[k], asset)
    requires forall i :: 0 <= i < k ==> !Covers(ranked[i], asset)
    ensures var spared := |KeepChosen(ranked[..k], Chosen(ranked, cap))| < cap;
      (ranked[k] in Select(ranked, cap) <==> spared) && (Mentions(Select(ranked, cap), asset) <==> spared)
  {
    var chosen, out := Chosen(ranked, cap), Select(ranked, cap);
    var before, after := ranked[..k], ranked[k + 1..];
    assert ranked == before + [ranked[k]] + after;
    FirstIsChosen(ranked, cap, asset, k);
    KeepChosenAround(before, ranked[k], after, chosen);
    KeepChosenIsShorter(before, chosen);
    forall w | w in KeepChosen(before, chosen) ensures !Covers(w, asset) {
      KeepChosenMembers(before, chosen, w);
    }
    hide Covers, Chosen, KeepChosen;
    var front := KeepChosen(before, chosen);
    if |ranked| <= cap {
      assert out[k] == ranked[k];
    } else if |front| < cap {
      assert out[|front|] == ranked[k];
    } else {
      assert forall i :: 0 <= i < |out| ==> out[i] == front[i];
    }
  }

  lemma FirstIsChosen(ranked: seq<Weighted>, cap: nat, asset: string, k: nat)
    requires asset in PRIMARY && k < |ranked| && Covers(ranked[k], asset)
    requires forall i :: 0 <= i < k ==> !Covers(ranked[i], asset)
    ensures ranked[k].newsId in Chosen(ranked, cap)
  {
    hide Representatives, Fill, Representative;
    var l := RepresentativeIsBest(ranked, asset);
    assert k == l;
    RepresentativesLaws(ranked, PRIMARY);
    assert IdRepresents(ranked, PRIMARY, ranked[k].newsId);
    var _ := FillLaws(ranked, Representatives(ranked, PRIMARY), cap);
  }

  lemma KeepChosenAround(before: seq<Weighted>, w: Weighted, after: seq<Weighted>, chosen: set<string>)
    requires w.newsId in chosen
    ensures KeepChosen(before + [w] + after, chosen) == KeepChosen(before, chosen) + [w] + KeepChosen(after, chosen)
  {
    var p := (v: Weighted) => v.newsId in chosen;
    KeepConcat(p, before + [w], after);
    KeepConcat(p, before, [w]);
    KeepAll(p, [w]);
  }

  lemma KeepChosenIsShorter(ranked: seq<Weighted>, chosen: set<string>)
    ensures |KeepChosen(ranked, chosen)| <= |ranked|
  {
    KeepKept((w: Weighted) => w.newsId in chosen, ranked);
  }

  /**
   * The cap does starve an asset when ids repeat: forty items of one id, ranked before the only item
   * about gold, are all selected, and the cut drops the latter from its place behind them.
   */
  lemma RepeatedIdsStarveCoverage(crypto: Weighted, gold: Weighted)
    requires Covers(crypto, "BTC") && !Covers(crypto, "GOLD") && Covers(gold, "GOLD")
    ensures var ranked := seq(CAP, _ => crypto) + [gold];
      Representative(ranked, "GOLD") == Some(gold) && !Mentions(Select(ranked, CAP), "GOLD")
  {
    hide Covers, Chosen, Representative, KeepChosen, Select;
    var front := seq(CAP, _ => crypto);
    var ranked := front + [gold];
    var k := RepresentativeIsBest(ranked, "GOLD");
    assert Covers(ranked[CAP], "GOLD") && ranked[CAP] == gold;
    assert k == CAP && ranked[..CAP] == front;
    assert Covers(ranked[0], "BTC");
    FirstIsChosen(ranked, CAP, PRIMARY[0], 0);
    KeepChosenAll(front, Chosen(ranked, CAP));
    assert "GOLD" == PRIMARY[2];
    CoverageExactlyWhen(ranked, CAP, "GOLD", CAP);
  }

  lemma KeepChosenAll(ranked: seq<Weighted>, chosen: set<string>)
    requires forall k :: 0 <= k < |ranked| ==> ranked[k].newsId in chosen
    ensures KeepChosen(ranked, chosen) == ranked
  {
    KeepAll((w: Weighted) => w.newsId in chosen, ranked);
  }

  // Order of arrival.

  function ItemId(item: NewsItem): string { item.newsId }

  lemma OutranksIsTotal()
    ensures TotalPreorder(Outranks)
  {
    forall a, b ensures Outranks(a, b) || Outranks(b, a) {
      TextOrder.Total(a.newsId, b.newsId);
    }
    forall a, b, c | Outranks(a, b) && Outranks(b, c) ensures Outranks(a, c) {
      if a.maxEffective == b.maxEffective == c.maxEffective {
        TextOrder.Transitive(a.newsId, b.newsId, c.newsId);
      }
    }
  }

  lemma {:induction false} KeepStaysDistinct(p: NewsItem -> bool, items: seq<NewsItem>)
    requires DistinctBy(ItemId, items)
    ensures DistinctBy(ItemId, Keep(p, items))
  {
    if items != [] {
      KeepStaysDistinct(p, items[1..]);
      KeepKept(p, items[1..]);
      var rest := Keep(p, items[1..]);
      forall k | 0 <= k < |rest| ensures ItemId(rest[k]) != ItemId(items[0]) {
        assert rest[k] in items[1..];
        var l :| 0 <= l < |items[1..]| && items[1..][l] == rest[k];
        assert ItemId(items[0]) != ItemId(items[l + 1]);
      }
    }
  }

  lemma WeighedIsDistinct(desk: Desk, items: seq<NewsItem>, halfLife: real, targets: seq<string>)
    requires DistinctBy(ItemId, items)
    ensures DistinctIds(Weighed(desk, items, halfLife, targets))
  {
    var p := (item: NewsItem) => Eligible(desk, item, targets);
    KeepStaysDistinct(p, items);
    var kept := Keep(p, items);
    forall i, j | 0 <= i < j < |kept| ensures kept[i].newsId != kept[j].newsId {
      assert ItemId(kept[i]) != ItemId(kept[j]);
    }
  }

  lemma DistinctIdsRank(ranked: seq<Weighted>)
    requires DistinctIds(ranked)
    ensures DistinctKeys(Outranks, ranked)
  {
    forall a, b | a in ranked && b in ranked && Outranks(a, b) && Outranks(b, a) ensures a == b {
      TextOrder.Antisymmetric(a.newsId, b.newsId);
      var i :| 0 <= i < |ranked| && ranked[i] == a;
      var j :| 0 <= j < |ranked| && ranked[j] == b;
      AtOnePlace(ranked, i, j);
    }
  }

  /**
   * The digest of a run: it does not depend on the order the items arrived in, and it is the capped
   * selection of a ranking, so it has all the properties of one.
   */
  lemma DigestForgetsOrder(desk: Desk, a: seq<NewsItem>, b: seq<NewsItem>, targets: seq<string>,
                           eventType: Option<string>)
    requires multiset(a) == multiset(b) && DistinctBy(ItemId, a)
    ensures Digest(desk, a, targets, eventType) == Digest(desk, b, targets, eventType)
  {
    assert |a| == |multiset(a)| && |b| == |multiset(b)|;
    var halfLife := HalfLife(desk, eventType);
    if targets != [] && a != [] && halfLife.Some? {
      var x, y := Weighed(desk, a, halfLife.value, targets), Weighed(desk, b, halfLife.value, targets);
      KeepForgetsOrder((item: NewsItem) => Eligible(desk, item, targets), a, b);
      EachForgetsOrder((item: NewsItem) => Weigh(desk, item, halfLife.value, targets),
                       Keep((item: NewsItem) => Eligible(desk, item, targets), a),
                       Keep((item: NewsItem) => Eligible(desk, item, targets), b));
      assert multiset(x) == multiset(y);
      WeighedIsDistinct(desk, a, halfLife.value, targets);
      DistinctIdsRank(x);
      OutranksIsTotal();
      SortForgetsOrder(Outranks, x, y);
    }
  }

  /** The ranking a digest is cut from. */
  function Ranking(desk: Desk, items: seq<NewsItem>, targets: seq<string>, halfLife: real): seq<Weighted> {
    Sort(Outranks, Weighed(desk, items, halfLife, targets))
  }

  lemma RankingLaws(desk: Desk, items: seq<NewsItem>, targets: seq<string>, halfLife: real)
    requires DistinctBy(ItemId, items)
    ensures var ranked := Ranking(desk, items, targets, halfLife);
      && DistinctIds(ranked) && Sorted(Outranks, ranked)
      && |ranked| == CountOf((item: NewsItem) => Eligible(desk, item, targets), items)
      && forall w :: w in ranked <==> exists item :: item in items && Eligible(desk, item, targets) && w == Weigh(desk, item, halfLife, targets)
  {
    var weighed, ranked := Weighed(desk, items, halfLife, targets), Ranking(desk, items, targets, halfLife);
    WeighedIsDistinct(desk, items, halfLife, targets);
    SortPermutes(Outranks, weighed);
    OutranksIsTotal();
    SortSorts(Outranks, weighed);
    DistinctUnderPermutation(IdOf, weighed, ranked);
    KeepKept((item: NewsItem) => Eligible(desk, item, targets), items);
    forall w ensures w in ranked <==>
        exists item :: item in items && Eligible(desk, item, targets) && w == Weigh(desk, item, halfLife, targets)
    {
      assert w in ranked <==> w in multiset(ranked);
      assert w in weighed <==> w in multiset(weighed);
      WeighedMembers(desk, items, halfLife, targets, w);
    }
  }

  lemma WeighedMembers(desk: Desk, items: seq<NewsItem>, halfLife: real, targets: seq<string>, w: Weighted)
    ensures w in Weighed(desk, items, halfLife, targets) <==>
      exists item :: item in items && Eligible(desk, item, targets) && w == Weigh(desk, item, halfLife, targets)
  {
    hide Weigh, Eligible;
    var p := (item: NewsItem) => Eligible(desk, item, targets);
    var kept, weighed := Keep(p, items), Weighed(desk, items, halfLife, targets);
    KeepKept(p, items);
    if w in weighed {
      var i :| 0 <= i < |weighed| && weighed[i] == w;
      assert kept[i] in kept;
    }
    if item :| item in items && Eligible(desk, item, targets) && w == Weigh(desk, item, halfLife, targets) {
      assert item in kept;
      var i :| 0 <= i < |kept| && kept[i] == item;
      assert weighed[i] == w;
    }
  }

  /** A relevant and fresh item about a primary asset that is a target. */
  predicate SpeaksOf(desk: Desk, item: NewsItem, targets: seq<string>, asset: string) {
    Eligible(desk, item, targets) && asset in PRIMARY && asset in targets && desk.relevance(item, asset) > 0.0
  }

  /**
   * The digest of a run whose items have distinct ids: as many as are relevant and fresh, up to
   * forty; in ranking order; and about every primary asset that some relevant and fresh item is about.
   */
  lemma DigestIsCapped(desk: Desk, items: seq<NewsItem>, targets: seq<string>, eventType: Option<string>)
    requires DistinctBy(ItemId, items) && Digest(desk, items, targets, eventType).Some?
    ensures var digest := Digest(desk, items, targets, eventType).value;
      var eligible := CountOf((item: NewsItem) => Eligible(desk, item, targets), items);
      && |digest| == (if eligible <= CAP then eligible else CAP)
      && Sorted(Outranks, digest)
      && forall item, asset :: item in items && SpeaksOf(desk, item, targets, asset) ==> Mentions(digest, asset)
  {
    var digest := Digest(desk, items, targets, eventType).value;
    if targets == [] || items == [] {
      NothingEligible(desk, items, targets);
    } else {
      var halfLife := HalfLife(desk, eventType).value;
      var ranked := Ranking(desk, items, targets, halfLife);
      RankingLaws(desk, items, targets, halfLife);
      CappedDigest(ranked, CAP);
      OutranksIsTotal();
      SubsequenceSorted(Outranks, digest, ranked);
      forall item, asset | item in items && SpeaksOf(desk, item, targets, asset) ensures Mentions(digest, asset)
      {
        RankedByStrongestWeight(desk, item, halfLife, targets);
        RepresentedIsMentioned(ranked, digest, Weigh(desk, item, halfLife, targets), asset);
      }
    }
  }

  /** A fresh item about a target asset. */
  predicate IsNews(desk: Desk, item: NewsItem, targets: seq<string>, asset: string) {
    asset in targets && desk.relevance(item, asset) > 0.0 && desk.timely(item)
  }

  /** Fresh, and about some target. */
  predicate Newsworthy(desk: Desk, item: NewsItem, targets: seq<string>) {
    desk.timely(item) && exists asset :: asset in targets && desk.relevance(item, asset) > 0.0
  }

  lemma EligibleMeans(desk: Desk, item: NewsItem, targets: seq<string>)
    ensures Eligible(desk, item, targets) <==> Newsworthy(desk, item, targets)
  {
    if Relevant(desk, item, targets) {
      var i :| 0 <= i < |targets| && desk.relevance(item, targets[i]) > 0.0;
      assert targets[i] in targets;
    }
    if asset :| asset in targets && desk.relevance(item, asset) > 0.0 {
      var i :| 0 <= i < |targets| && targets[i] == asset;
    }
  }

  lemma {:induction false} EligibleCount(desk: Desk, items: seq<NewsItem>, targets: seq<string>)
    ensures CountOf((item: NewsItem) => Eligible(desk, item, targets), items)
         == CountOf((item: NewsItem) => Newsworthy(desk, item, targets), items)
  {
    hide Eligible, Newsworthy;
    if items != [] {
      EligibleCount(desk, items[1..], targets);
      EligibleMeans(desk, items[0], targets);
    }
  }

  /** The entry is one of the run's fresh and relevant items, with a weight for each target it is about, and ranked by the greatest. */
  ghost predicate WeighedFrom(desk: Desk, items: seq<NewsItem>, targets: seq<string>, halfLife: real, w: Weighted) {
    && w.item in items && w.newsId == w.item.newsId && Newsworthy(desk, w.item, targets)
    && (forall asset :: asset in w.weights <==> asset in targets && desk.relevance(w.item, asset) > 0.0)
    && (forall asset :: asset in w.weights ==>
          w.weights[asset] == WeightOn(desk, w.item, halfLife, asset) && w.weights[asset].effective <= w.maxEffective)
    && exists asset :: asset in w.weights && w.weights[asset].effective == w.maxEffective
  }

  lemma WeighedItem(desk: Desk, items: seq<NewsItem>, targets: seq<string>, halfLife: real, item: NewsItem)
    requires item in items && Eligible(desk, item, targets)
    ensures WeighedFrom(desk, items, targets, halfLife, Weigh(desk, item, halfLife, targets))
  {
    EligibleMeans(desk, item, targets);
    RankedByStrongestWeight(desk, item, halfLife, targets);
    var asset :| asset in targets && desk.relevance(item, asset) > 0.0;
    assert asset in Weigh(desk, item, halfLife, targets).weights;
    hide WeightsFor, Strongest, WeightOn;
  }

  /**
   * The digest in full, for distinct ids: as many entries as there are newsworthy items, up to forty,
   * each of such an item, the stronger first and among equal ones the smaller id; and bitcoin, ether, gold and oil are
   * each covered if they are targets some relevant and fresh item is about.
   */
  lemma DigestExactly(desk: Desk, items: seq<NewsItem>, targets: seq<string>, eventType: Option<string>, halfLife: real)
    requires DistinctBy(ItemId, items) && targets != [] && items != [] && HalfLife(desk, eventType) == Some(halfLife)
    ensures Digest(desk, items, targets, eventType).Some?
    ensures var digest := Digest(desk, items, targets, eventType).value;
      var newsworthy := CountOf((item: NewsItem) => Newsworthy(desk, item, targets), items);
      && |digest| == (if newsworthy < 40 then newsworthy else 40)
      && (forall i, j :: 0 <= i < j < |digest| ==>
            || digest[i].maxEffective > digest[j].maxEffective
            || (digest[i].maxEffective == digest[j].maxEffective && TextOrder.Leq(digest[i].newsId, digest[j].newsId)))
      && (forall i :: 0 <= i < |digest| ==> WeighedFrom(desk, items, targets, halfLife, digest[i]))
      && forall item, asset :: item in items && asset in ["BTC", "ETH", "GOLD", "WTI"] && IsNews(desk, item, targets, asset) ==>
           Mentions(digest, asset)
  {
    DigestIsCapped(desk, items, targets, eventType);
    EligibleCount(desk, items, targets);
    var digest := Digest(desk, items, targets, eventType).value;
    forall i, j | 0 <= i < j < |digest|
      ensures digest[i].maxEffective > digest[j].maxEffective
        || (digest[i].maxEffective == digest[j].maxEffective && TextOrder.Leq(digest[i].newsId, digest[j].newsId))
    {
      assert Outranks(digest[i], digest[j]);
    }
    forall item, asset | item in items && asset in ["BTC", "ETH", "GOLD", "WTI"] && IsNews(desk, item, targets, asset)
      ensures Mentions(digest, asset)
    {
      var i :| 0 <= i < |targets| && targets[i] == asset;
      assert Relevant(desk, item, targets);
      assert SpeaksOf(desk, item, targets, asset);
    }
    DigestIsWeighed(desk, items, targets, eventType, halfLife);
  }

  lemma DigestIsWeighed(desk: Desk, items: seq<NewsItem>, targets: seq<string>, eventType: Option<string>, halfLife: real)
    requires DistinctBy(ItemId, items) && targets != [] && items != [] && HalfLife(desk, eventType) == Some(halfLife)
    ensures var digest := Digest(desk, items, targets, eventType);
      digest.Some? && forall i :: 0 <= i < |digest.value| ==> WeighedFrom(desk, items, targets, halfLife, digest.value[i])
  {
    var ranked := Ranking(desk, items, targets, halfLife);
    RankingLaws(desk, items, targets, halfLife);
    CappedDigest(ranked, CAP);
    OutranksIsTotal();
    hide Ranking, Select, Weigh, Eligible, Outranks, Representative, Represents, WeighedFrom;
    SubsequenceSorted(Outranks, Select(ranked, CAP), ranked);
    DigestCuts(desk, items, targets, eventType, halfLife);
    var digest := Select(ranked, CAP);
    forall i | 0 <= i < |digest| ensures WeighedFrom(desk, items, targets, halfLife, digest[i]) {
      assert digest[i] in ranked;
      var item :| item in items && Eligible(desk, item, targets) && digest[i] == Weigh(desk, item, halfLife, targets);
      WeighedItem(desk, items, targets, halfLife, item);
    }
  }

  lemma DigestCuts(desk: Desk, items: seq<NewsItem>, targets: seq<string>, eventType: Option<string>, halfLife: real)
    requires targets != [] && items != [] && HalfLife(desk, eventType) == Some(halfLife)
    ensures Digest(desk, items, targets, eventType) == Some(Select(Ranking(desk, items, targets, halfLife), CAP))
  {
    hide Select, Weighed;
  }

  /**
   * The same of a whole digest. Forty copies of an item about bitcoin and one weaker item about gold,
   * all relevant and fresh: the digest is silent about gold.
   */
  lemma RepeatedIdsStarveDigest(desk: Desk, crypto: NewsItem, gold: NewsItem, targets: seq<string>,
                                eventType: Option<string>, halfLife: real)
    requires HalfLife(desk, eventType) == Some(halfLife)
    requires SpeaksOf(desk, crypto, targets, "BTC") && SpeaksOf(desk, gold, targets, "GOLD") && desk.relevance(crypto, "GOLD") <= 0.0
    requires Strongest(desk, crypto, halfLife, targets) > Strongest(desk, gold, halfLife, targets)
    ensures var items := seq(CAP, _ => crypto) + [gold];
      var digest := Digest(desk, items, targets, eventType);
      && digest == Some(seq(CAP, _ => Weigh(desk, crypto, halfLife, targets)))
      && !Mentions(digest.value, "GOLD")
  {
    var items := seq(CAP, _ => crypto) + [gold];
    var c, g := Weigh(desk, crypto, halfLife, targets), Weigh(desk, gold, halfLife, targets);
    WeighedCovers(desk, crypto, halfLife, targets, "BTC", "GOLD");
    WeighedCovers(desk, gold, halfLife, targets, "GOLD", "BTC");
    assert Outranks(c, g);
    WeighedCopies(desk, crypto, gold, halfLife, targets, CAP);
    OutranksIsTotal();
    hide Weigh, Strongest, Outranks, Covers, SpeaksOf, Weighed, Mentions, Select, Representative, HalfLife;
    AlreadyRanked(c, g, CAP);
    RepeatedIdsStarveCoverage(c, g);
    SelectsFront(c, g);
  }

  /** A desk where an item is about the asset its text names, and bitcoin matters twice as much as the rest. */
  function PlainDesk(): Desk {
    Desk(map[], 1.0, map[], (item: NewsItem, asset: string) => if item.text != asset then 0.0 else if asset == "BTC" then 1.0 else 0.5,
         (item: NewsItem) => true, (item: NewsItem, halfLife: real) => 1.0)
  }

  /** Such desks and items do exist: a digest silent about a primary asset it had news of. */
  lemma StarvedDigestExists() returns (crypto: NewsItem, gold: NewsItem)
    ensures var desk, targets, items := PlainDesk(), ["BTC", "GOLD"], seq(CAP, _ => crypto) + [gold];
      && SpeaksOf(desk, gold, targets, "GOLD")
      && Digest(desk, items, targets, None).Some? && !Mentions(Digest(desk, items, targets, None).value, "GOLD")
  {
    crypto, gold := NewsItem("a", "wire", "", "BTC"), NewsItem("b", "wire", "", "GOLD");
    var desk, targets := PlainDesk(), ["BTC", "GOLD"];
    assert "BTC"[0] != "GOLD"[0];
    PlainItem(crypto);
    PlainItem(gold);
    hide PlainDesk, Strongest, SpeaksOf, Digest, Mentions, Weigh;
    RepeatedIdsStarveDigest(desk, crypto, gold, targets, None, 12.0);
  }

  lemma PlainItem(item: NewsItem)
    requires item.text == "BTC" || item.text == "GOLD"
    ensures var desk, targets := PlainDesk(), ["BTC", "GOLD"];
      && HalfLife(desk, None) == Some(12.0)
      && SpeaksOf(desk, item, targets, item.text)
      && (item.text == "BTC" ==> desk.relevance(item, "GOLD") <= 0.0)
      && Strongest(desk, item, 12.0, targets) == if item.text == "BTC" then 1.0 else 0.5
  {
    var desk, targets := PlainDesk(), ["BTC", "GOLD"];
    TwoTargets(desk, item, 12.0);
    PlainWeight(item, "BTC");
    PlainWeight(item, "GOLD");
    PlainRelevance(item);
    assert targets[0] == "BTC" && targets[1] == "GOLD" && PRIMARY[0] == "BTC" && PRIMARY[2] == "GOLD";
    hide Strongest, WeightOn;
  }

  lemma PlainRelevance(item: NewsItem)
    requires item.text == "BTC" || item.text == "GOLD"
    ensures PlainDesk().relevance(item, "BTC") == (if item.text == "BTC" then 1.0 else 0.0)
    ensures PlainDesk().relevance(item, "GOLD") == (if item.text == "BTC" then 0.0 else 0.5)
  {
    assert "BTC"[0] != "GOLD"[0];
  }

  lemma PlainWeight(item: NewsItem, asset: string)
    ensures WeightOn(PlainDesk(), item, 12.0, asset).effective == PlainDesk().relevance(item, asset)
  {
    EffectiveIsExactProduct(1.0, Unit(PlainDesk().relevance(item, asset)), 1.0);
  }

  lemma TwoTargets(desk: Desk, item: NewsItem, halfLife: real)
    ensures Strongest(desk, item, halfLife, ["BTC", "GOLD"]) == MaxReal(
      if desk.relevance(item, "BTC") <= 0.0 then 0.0 else WeightOn(desk, item, halfLife, "BTC").effective,
      if desk.relevance(item, "GOLD") <= 0.0 then 0.0 else WeightOn(desk, item, halfLife, "GOLD").effective)
  {
    hide WeightOn;
    var one, two := ["BTC"], ["BTC", "GOLD"];
    WeightIsUnit(desk, item, halfLife, "BTC");
    WeightIsUnit(desk, item, halfLife, "GOLD");
    assert one[..0] == [] && two[..1] == one;
    assert Strongest(desk, item, halfLife, []) == 0.0;
    NextTarget(desk, item, halfLife, one);
    NextTarget(desk, item, halfLife, two);
  }

  lemma NextTarget(desk: Desk, item: NewsItem, halfLife: real, targets: seq<string>)
    requires targets != []
    ensures var before, last := Strongest(desk, item, halfLife, targets[..|targets| - 1]), targets[|targets| - 1];
      Strongest(desk, item, halfLife, targets)
        == if desk.relevance(item, last) <= 0.0 then before else MaxReal(before, WeightOn(desk, item, halfLife, last).effective)
  {
    hide WeightOn;
  }

  lemma WeightIsUnit(desk: Desk, item: NewsItem, halfLife: real, asset: string)
    ensures 0.0 <= WeightOn(desk, item, halfLife, asset).effective <= 1.0
  {}

  lemma WeighedCovers(desk: Desk, item: NewsItem, halfLife: real, targets: seq<string>, asset: string, other: string)
    ensures asset in targets && desk.relevance(item, asset) > 0.0 ==> Covers(Weigh(desk, item, halfLife, targets), asset)
    ensures desk.relevance(item, other) <= 0.0 ==> !Covers(Weigh(desk, item, halfLife, targets), other)
  {
    RankedByStrongestWeight(desk, item, halfLife, targets);
  }

  lemma WeighedCopies(desk: Desk, item: NewsItem, last: NewsItem, halfLife: real, targets: seq<string>, n: nat)
    requires Eligible(desk, item, targets) && Eligible(desk, last, targets)
    ensures Weighed(desk, seq(n, _ => item) + [last], halfLife, targets)
         == seq(n, _ => Weigh(desk, item, halfLife, targets)) + [Weigh(desk, last, halfLife, targets)]
  {
    hide Weigh, Eligible;
    KeepAll((i: NewsItem) => Eligible(desk, i, targets), seq(n, _ => item) + [last]);
  }

  /** Copies of a stronger item before a weaker one are ranked as they stand. */
  lemma {:induction false} AlreadyRanked(c: Weighted, g: Weighted, n: nat)
    requires Outranks(c, g) && TotalPreorder(Outranks)
    ensures Sort(Outranks, seq(n, _ => c) + [g]) == seq(n, _ => c) + [g]
  {
    hide Outranks;
    var s := seq(n, _ => c) + [g];
    if n == 0 {
      assert s == [g] && Sort(Outranks, []) == [];
    } else {
      AlreadyRanked(c, g, n - 1);
      assert s[0] == c && s[1..] == seq(n - 1, _ => c) + [g];
      assert s == [c] + s[1..];
      assert Outranks(c, c);
    }
  }

  lemma SelectsFront(c: Weighted, g: Weighted)
    requires Covers(c, "BTC")
    ensures Select(seq(CAP, _ => c) + [g], CAP) == seq(CAP, _ => c)
  {
    hide Covers, Chosen, KeepChosen;
    var front := seq(CAP, _ => c);
    var ranked := front + [g];
    assert Covers(ranked[0], "BTC");
    FirstIsChosen(ranked, CAP, PRIMARY[0], 0);
    KeepChosenAll(front, Chosen(ranked, CAP));
    KeepChosenAfter(front, g, Chosen(ranked, CAP));
  }

  lemma KeepChosenAfter(front: seq<Weighted>, g: Weighted, chosen: set<string>)
    ensures KeepChosen(front + [g], chosen) == KeepChosen(front, chosen) + if g.newsId in chosen then [g] else []
  {
    KeepConcat((w: Weighted) => w.newsId in chosen, front, [g]);
  }

  lemma NothingEligible(desk: Desk, items: seq<NewsItem>, targets: seq<string>)
    requires targets == [] || items == []
    ensures CountOf((item: NewsItem) => Eligible(desk, item, targets), items) == 0
  {
    var p := (item: NewsItem) => Eligible(desk, item, targets);
    KeepKept(p, items);
    if Keep(p, items) != [] {
      assert p(Keep(p, items)[0]);
    }
  }

  lemma RepresentedIsMentioned(ranked: seq<Weighted>, digest: seq<Weighted>, w: Weighted, asset: string)
    requires w in ranked && Covers(w, asset)
    requires Representative(ranked, asset).Some? ==> Representative(ranked, asset).value in digest
    ensures Mentions(digest, asset)
  {
    hide Covers;
    var k := RepresentativeIsBest(ranked, asset);
    var i :| 0 <= i < |ranked| && ranked[i] == w;
    assert Covers(ranked[i], asset);
    var j :| 0 <= j < |digest| && digest[j] == ranked[k];
    assert Covers(digest[j], asset);
  }

  lemma {:induction false} SubsequenceSorted<T(!new)>(leq: (T, T) -> bool, a: seq<T>, b: seq<T>)
    requires Subsequence(a, b) && Sorted(leq, b)
    ensures Sorted(leq, a) && forall x :: x in a ==> x in b
    decreases |b|
  {
    if a != [] {
      if a[0] == b[0] && Subsequence(a[1..], b[1..]) {
        SubsequenceSorted(leq, a[1..], b[1..]);
        forall j | 0 < j < |a| ensures leq(a[0], a[j]) {
          assert a[1..][j - 1] in b[1..];
        }
        assert b == [b[0]] + b[1..] && a == [a[0]] + a[1..];
      } else {
        SubsequenceSorted(leq, a, b[1..]);
        assert b == [b[0]] + b[1..];
      }
    }
  }
}
