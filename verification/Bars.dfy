/** Folding hourly candles into six-hour bars. */
module SixHourBars {
  import opened Common
  import opened Folds
  import opened Sorting

  const SIX_HOURS := 21600
  const TARGET_BARS: nat := 130

  datatype Candle = Candle(time: int, close: real, high: real, low: real, open: real, volume: real)

  /** One row of the response: too short, holding something that is no number, or seven numbers. */
  datatype Row = Short | NotNumeric | Numbers(candle: Candle)

  datatype Bar = Bar(time: int, close: real, high: real, low: real, volume: real)

  datatype Fault = ShortCandle | NonNumericCandle | InvalidCandle | TooFewBars(got: nat)

  datatype Parsed = Candles(candles: seq<Candle>) | BadRow(fault: Fault)

  datatype Folded = Bars(bars: seq<Bar>) | Refused(fault: Fault)

  predicate ValidCandle(c: Candle) {
    c.time > 0 && c.close > 0.0 && c.high > 0.0 && c.low > 0.0 && c.open > 0.0 && c.volume >= 0.0
  }

  function FaultOf(row: Row): Option<Fault> {
    match row
    case Short => Some(ShortCandle)
    case NotNumeric => Some(NonNumericCandle)
    case Numbers(c) => if ValidCandle(c) then None else Some(InvalidCandle)
  }

  /** The first bad row decides. */
  function ParseAll(rows: seq<Row>): Parsed {
    if rows == [] then Candles([])
    else
      var before, last := ParseAll(rows[..|rows| - 1]), rows[|rows| - 1];
      if before.BadRow? then before
      else if FaultOf(last).Some? then BadRow(FaultOf(last).value)
      else Candles(before.candles + [last.candle])
  }

  predicate ByTime(a: Candle, b: Candle) { a.time <= b.time }

  // Buckets.

  function BucketOf(c: Candle): int { c.time / SIX_HOURS * SIX_HOURS }

  datatype Bucket = Bucket(time: int, candles: seq<Candle>)

  /** A candle of the same bucket as the last one joins it; any other opens a new bucket. */
  function Extend(groups: seq<Bucket>, c: Candle): seq<Bucket> {
    var n := |groups| - 1;
    if n >= 0 && groups[n].time == BucketOf(c) then groups[..n] + [Bucket(groups[n].time, groups[n].candles + [c])]
    else groups + [Bucket(BucketOf(c), [c])]
  }

  /** Candles in time order, split where the six-hour boundary changes. */
  function Group(hourly: seq<Candle>): seq<Bucket> {
    if hourly == [] then [] else Extend(Group(hourly[..|hourly| - 1]), hourly[|hourly| - 1])
  }

  function HighOf(candles: seq<Candle>): real
    requires candles != []
  {
    var last := candles[|candles| - 1].high;
    if |candles| == 1 then last else MaxReal(HighOf(candles[..|candles| - 1]), last)
  }

  function LowOf(candles: seq<Candle>): real
    requires candles != []
  {
    var last := candles[|candles| - 1].low;
    if |candles| == 1 then last else MinReal(LowOf(candles[..|candles| - 1]), last)
  }

  function VolumeOf(c: Candle): real { c.volume }

  function ToBar(b: Bucket): Bar
    requires b.candles != []
  {
    Bar(b.time, b.candles[|b.candles| - 1].close, HighOf(b.candles), LowOf(b.candles), SumOf(VolumeOf, b.candles))
  }

  /** Every bar, before the cut to the target length. */
  function AllBars(hourly: seq<Candle>): (bars: seq<Bar>)
    ensures |bars| == |Group(hourly)| && Filled(Group(hourly))
    ensures forall i :: 0 <= i < |bars| ==> bars[i] == ToBar(Group(hourly)[i])
  {
    GroupsAreFilled(hourly);
    var groups := Group(hourly);
    seq(|groups|, i requires 0 <= i < |groups| => ToBar(groups[i]))
  }

  function Fold(rows: seq<Row>): Folded {
    var parsed := ParseAll(rows);
    if parsed.BadRow? then Refused(parsed.fault)
    else
      var bars := AllBars(Sort(ByTime, parsed.candles));
      if |bars| < TARGET_BARS then Refused(TooFewBars(|bars|)) else Bars(bars[|bars| - TARGET_BARS..])
  }

  ghost predicate Filled(groups: seq<Bucket>) {
    forall i :: 0 <= i < |groups| ==> groups[i].candles != []
  }

  lemma ExtendFills(groups: seq<Bucket>, c: Candle)
    requires Filled(groups)
    ensures Filled(Extend(groups, c))
  {}

  lemma {:induction false} GroupsAreFilled(hourly: seq<Candle>)
    ensures Filled(Group(hourly))
  {
    hide Extend, Filled;
    if hourly == [] {
      assert Filled([]) by { NothingIsFilled(); }
    } else {
      GroupsAreFilled(hourly[..|hourly| - 1]);
      ExtendFills(Group(hourly[..|hourly| - 1]), hourly[|hourly| - 1]);
    }
  }

  lemma NothingIsFilled()
    ensures Filled([])
  {}

  // The loops.

  method ParseRows(rows: seq<Row>) returns (parsed: Parsed)
    ensures parsed == ParseAll(rows)
  {
    var candles: seq<Candle> := [];
    for i := 0 to |rows|
      invariant ParseAll(rows[..i]) == Candles(candles)
    {
      assert rows[..i + 1][..i] == rows[..i];
      var fault := FaultOf(rows[i]);
      if fault.Some? {
        BadRowSticks(rows, i + 1);
        return BadRow(fault.value);
      }
      candles := candles + [rows[i].candle];
    }
    assert rows[..|rows|] == rows;
    parsed := Candles(candles);
  }

  lemma {:induction false} BadRowSticks(rows: seq<Row>, n: nat)
    requires n <= |rows| && ParseAll(rows[..n]).BadRow?
    ensures ParseAll(rows) == ParseAll(rows[..n])
    decreases |rows|
  {
    if n == |rows| {
      assert rows[..n] == rows;
    } else {
      assert rows[..|rows| - 1][..n] == rows[..n];
      BadRowSticks(rows[..|rows| - 1], n);
    }
  }

  predicate AtMost(a: int, b: int) { a <= b }

  /** The dictionary of buckets together with its keys in insertion order. */
  ghost predicate Holds(keys: seq<int>, buckets: map<int, seq<Candle>>, groups: seq<Bucket>) {
    && |keys| == |groups|
    && (forall i :: 0 <= i < |keys| ==> keys[i] == groups[i].time)
    && (forall t :: t in buckets <==> t in keys)
    && (forall i :: 0 <= i < |keys| ==> buckets[keys[i]] == groups[i].candles)
  }

  lemma HoldsStep(keys: seq<int>, buckets: map<int, seq<Candle>>, groups: seq<Bucket>, c: Candle)
    requires Holds(keys, buckets, groups) && Ascending(TimesOf(groups))
    requires groups != [] ==> groups[|groups| - 1].time <= BucketOf(c)
    ensures var t := BucketOf(c);
      if t in buckets then Holds(keys, buckets[t := buckets[t] + [c]], Extend(groups, c))
      else Holds(keys + [t], buckets[t := [c]], Extend(groups, c))
  {
    var t, n := BucketOf(c), |groups| - 1;
    assert TimesOf(groups) == keys;
    if t in buckets {
      var i :| 0 <= i < |keys| && keys[i] == t;
      assert i == n && keys[n] == t;
      assert forall k :: 0 <= k < n ==> keys[k] != t;
    } else {
      assert n >= 0 ==> keys[n] != t;
    }
  }

  method FillBuckets(hourly: seq<Candle>) returns (keys: seq<int>, buckets: map<int, seq<Candle>>)
    requires InTimeOrder(hourly)
    ensures Holds(keys, buckets, Group(hourly))
  {
    hide Holds, Extend, BucketOf;
    keys, buckets := [], map[];
    HoldsNothing();
    for i := 0 to |hourly|
      invariant Holds(keys, buckets, Group(hourly[..i]))
    {
      assert hourly[..i + 1][..i] == hourly[..i];
      LastBucketIsBehind(hourly, i);
      HoldsStep(keys, buckets, Group(hourly[..i]), hourly[i]);
      var t := BucketOf(hourly[i]);
      if t in buckets {
        buckets := buckets[t := buckets[t] + [hourly[i]]];
      } else {
        keys, buckets := keys + [t], buckets[t := [hourly[i]]];
      }
    }
    assert hourly[..|hourly|] == hourly;
  }

  lemma HoldsNothing()
    ensures Holds([], map[], [])
  {}

  method SixHour(rows: seq<Row>) returns (folded: Folded)
    ensures folded == Fold(rows)
  {
    hide AllBars, Sort, Make, Holds, InTimeOrder;
    var parsed := ParseRows(rows);
    if parsed.BadRow? {
      return Refused(parsed.fault);
    }
    var hourly := Sort(ByTime, parsed.candles);
    SortedInTime(parsed.candles);
    var keys, buckets := FillBuckets(hourly);
    BucketsMakeBars(hourly, keys, buckets);
    var bars := MakeBars(Sort(AtMost, keys), buckets, AllBars(hourly));
    if |bars| < TARGET_BARS {
      return Refused(TooFewBars(|bars|));
    }
    folded := Bars(bars[|bars| - TARGET_BARS..]);
  }

  lemma HeldBucket(hourly: seq<Candle>, keys: seq<int>, buckets: map<int, seq<Candle>>, i: nat)
    requires Holds(keys, buckets, Group(hourly)) && i < |keys|
    ensures |keys| == |AllBars(hourly)| && keys[i] in buckets && buckets[keys[i]] != []
    ensures AllBars(hourly)[i] == ToBar(Bucket(keys[i], buckets[keys[i]]))
  {
    hide Group, ToBar, AllBars;
    assert Bucket(keys[i], buckets[keys[i]]) == Group(hourly)[i];
  }

  lemma HeldKeys(hourly: seq<Candle>, keys: seq<int>, buckets: map<int, seq<Candle>>)
    requires InTimeOrder(hourly) && Holds(keys, buckets, Group(hourly))
    ensures |keys| == |AllBars(hourly)| && Sort(AtMost, keys) == keys
  {
    hide Group, AllBars;
    KeysAscend(hourly);
    assert TimesOf(Group(hourly)) == keys;
    SortedKeys(keys);
  }

  /** The buckets of these times make exactly these bars. */
  ghost predicate Make(bars: seq<Bar>, times: seq<int>, buckets: map<int, seq<Candle>>) {
    && |bars| == |times|
    && forall i :: 0 <= i < |times| ==>
         times[i] in buckets && buckets[times[i]] != [] && bars[i] == ToBar(Bucket(times[i], buckets[times[i]]))
  }

  lemma BucketsMakeBars(hourly: seq<Candle>, keys: seq<int>, buckets: map<int, seq<Candle>>)
    requires InTimeOrder(hourly) && Holds(keys, buckets, Group(hourly))
    ensures Make(AllBars(hourly), Sort(AtMost, keys), buckets)
  {
    HeldKeys(hourly, keys, buckets);
    hide Holds, AllBars, Sort, ToBar, InTimeOrder;
    forall i | 0 <= i < |keys|
      ensures keys[i] in buckets && buckets[keys[i]] != []
      ensures AllBars(hourly)[i] == ToBar(Bucket(keys[i], buckets[keys[i]]))
    {
      HeldBucket(hourly, keys, buckets, i);
    }
  }

  method MakeBars(times: seq<int>, buckets: map<int, seq<Candle>>, ghost all: seq<Bar>) returns (bars: seq<Bar>)
    requires Make(all, times, buckets)
    ensures bars == all
  {
    bars := [];
    for i := 0 to |times|
      invariant bars == all[..i]
    {
      bars := bars + [ToBar(Bucket(times[i], buckets[times[i]]))];
    }
  }

  // Time order.

  ghost predicate InTimeOrder(hourly: seq<Candle>) {
    forall i, j :: 0 <= i < j < |hourly| ==> hourly[i].time <= hourly[j].time
  }

  lemma ByTimeIsTotal()
    ensures TotalPreorder(ByTime)
  {}

  lemma SortedInTime(candles: seq<Candle>)
    ensures InTimeOrder(Sort(ByTime, candles)) && multiset(Sort(ByTime, candles)) == multiset(candles)
  {
    ByTimeIsTotal();
    SortSorts(ByTime, candles);
    SortPermutes(ByTime, candles);
    var sorted := Sort(ByTime, candles);
    forall i, j | 0 <= i < j < |sorted| ensures sorted[i].time <= sorted[j].time {
      assert ByTime(sorted[i], sorted[j]);
    }
  }

  lemma BucketsFollowTime(a: Candle, b: Candle)
    requires a.time <= b.time
    ensures BucketOf(a) <= BucketOf(b)
  {}

  ghost predicate Ascending(keys: seq<int>) {
    forall i, j :: 0 <= i < j < |keys| ==> keys[i] < keys[j]
  }

  function TimesOf(groups: seq<Bucket>): (times: seq<int>)
    ensures |times| == |groups|
    ensures forall i :: 0 <= i < |groups| ==> times[i] == groups[i].time
  {
    seq(|groups|, i requires 0 <= i < |groups| => groups[i].time)
  }

  lemma ExtendAscends(groups: seq<Bucket>, c: Candle)
    requires Ascending(TimesOf(groups))
    requires groups != [] ==> groups[|groups| - 1].time <= BucketOf(c)
    ensures Ascending(TimesOf(Extend(groups, c)))
    ensures Extend(groups, c) != [] && Extend(groups, c)[|Extend(groups, c)| - 1].time == BucketOf(c)
  {
    hide BucketOf;
    var n, times, extended := |groups| - 1, TimesOf(groups), TimesOf(Extend(groups, c));
    if n >= 0 && groups[n].time == BucketOf(c) {
      assert extended == times;
    } else {
      assert extended == times + [BucketOf(c)];
      assert n >= 0 ==> times[n] < BucketOf(c);
    }
  }

  /** Bucket times ascend strictly, and the last is the bucket of the last candle. */
  lemma {:induction false} KeysAscend(hourly: seq<Candle>)
    requires InTimeOrder(hourly)
    ensures Ascending(TimesOf(Group(hourly)))
    ensures hourly != [] ==>
      Group(hourly) != [] && Group(hourly)[|Group(hourly)| - 1].time == BucketOf(hourly[|hourly| - 1])
  {
    hide Extend, Ascending, BucketOf;
    if hourly == [] {
      NothingAscends();
    } else {
      var front, last := hourly[..|hourly| - 1], hourly[|hourly| - 1];
      KeysAscend(front);
      if front != [] {
        BucketsFollowTime(front[|front| - 1], last);
      }
      ExtendAscends(Group(front), last);
    }
  }

  lemma NothingAscends()
    ensures Ascending(TimesOf([]))
  {}

  lemma LastBucketIsBehind(hourly: seq<Candle>, i: nat)
    requires InTimeOrder(hourly) && i < |hourly|
    ensures var groups := Group(hourly[..i]);
      && Ascending(TimesOf(groups))
      && (groups != [] ==> groups[|groups| - 1].time <= BucketOf(hourly[i]))
  {
    hide Extend, BucketOf;
    KeysAscend(hourly[..i]);
    if i > 0 {
      BucketsFollowTime(hourly[..i][i - 1], hourly[i]);
    }
  }

  lemma SortedKeys(keys: seq<int>)
    requires Ascending(keys)
    ensures Sort(AtMost, keys) == keys
  {
    SortPermutes(AtMost, keys);
    SortSorts(AtMost, keys);
    SortedIsUnique(AtMost, Sort(AtMost, keys), keys);
  }
}

/** What the bars say about the candles. */
module BarLaws {
  import opened Common
  import opened Folds
  import opened RealFacts
  import opened Sorting
  import opened SixHourBars

  function Flatten(groups: seq<Bucket>): seq<Candle> {
    if groups == [] then [] else Flatten(groups[..|groups| - 1]) + groups[|groups| - 1].candles
  }

  ghost predicate InBucket(b: Bucket) {
    b.time % SIX_HOURS == 0 && forall k :: 0 <= k < |b.candles| ==> b.time <= b.candles[k].time < b.time + SIX_HOURS
  }

  ghost predicate AllInBucket(groups: seq<Bucket>) {
    forall i :: 0 <= i < |groups| ==> InBucket(groups[i])
  }

  lemma NewBucket(c: Candle)
    ensures InBucket(Bucket(BucketOf(c), [c]))
  {}

  lemma JoinBucket(b: Bucket, c: Candle)
    requires InBucket(b) && b.time == BucketOf(c)
    ensures InBucket(Bucket(b.time, b.candles + [c]))
  {}

  lemma ExtendPartitions(groups: seq<Bucket>, c: Candle)
    requires AllInBucket(groups)
    ensures AllInBucket(Extend(groups, c)) && Flatten(Extend(groups, c)) == Flatten(groups) + [c]
  {
    hide InBucket, BucketOf;
    var n := |groups| - 1;
    if n >= 0 && groups[n].time == BucketOf(c) {
      JoinBucket(groups[n], c);
      assert Extend(groups, c)[..n] == groups[..n];
      assert Flatten(groups[..n]) + (groups[n].candles + [c]) == Flatten(groups[..n]) + groups[n].candles + [c];
    } else {
      NewBucket(c);
      assert Extend(groups, c)[..n + 1] == groups;
    }
  }

  /**
   * The buckets partition the candles: laid end to end they are the candles in time order, none
   * lost, none doubled, and every candle lies in the six hours its bucket is named after.
   */
  lemma {:induction false} BucketsPartition(hourly: seq<Candle>)
    ensures AllInBucket(Group(hourly)) && Flatten(Group(hourly)) == hourly
  {
    hide Extend;
    if hourly != [] {
      var front, last := hourly[..|hourly| - 1], hourly[|hourly| - 1];
      BucketsPartition(front);
      ExtendPartitions(Group(front), last);
      assert hourly == front + [last];
    }
  }

  function BarVolume(b: Bar): real { b.volume }

  function BarsOf(groups: seq<Bucket>): (bars: seq<Bar>)
    requires Filled(groups)
    ensures |bars| == |groups|
  {
    seq(|groups|, i requires 0 <= i < |groups| => ToBar(groups[i]))
  }

  lemma {:induction false} VolumeOfGroups(groups: seq<Bucket>)
    requires Filled(groups)
    ensures SumOf(BarVolume, BarsOf(groups)) == SumOf(VolumeOf, Flatten(groups))
  {
    if groups != [] {
      var front, last := groups[..|groups| - 1], groups[|groups| - 1];
      VolumeOfGroups(front);
      SumOfConcat(VolumeOf, Flatten(front), last.candles);
      assert BarsOf(groups) == BarsOf(front) + [ToBar(last)];
      SumOfConcat(BarVolume, BarsOf(front), [ToBar(last)]);
    }
  }

  /** No volume is lost or invented by folding. */
  lemma VolumeIsConserved(hourly: seq<Candle>)
    ensures SumOf(BarVolume, AllBars(hourly)) == SumOf(VolumeOf, hourly)
  {
    GroupsAreFilled(hourly);
    BucketsPartition(hourly);
    VolumeOfGroups(Group(hourly));
    assert AllBars(hourly) == BarsOf(Group(hourly));
  }

  predicate Coherent(c: Candle) { c.low <= c.close <= c.high }

  /** A bar's high and low are the greatest and the least among its candles. */
  lemma {:induction false} ExtremesAreAttained(candles: seq<Candle>)
    requires candles != []
    ensures forall k :: 0 <= k < |candles| ==> LowOf(candles) <= candles[k].low && candles[k].high <= HighOf(candles)
    ensures (exists k :: 0 <= k < |candles| && candles[k].low == LowOf(candles))
    ensures (exists k :: 0 <= k < |candles| && candles[k].high == HighOf(candles))
  {
    var n := |candles| - 1;
    if n > 0 {
      var front := candles[..n];
      ExtremesAreAttained(front);
      var k :| 0 <= k < n && front[k].low == LowOf(front);
      var l :| 0 <= l < n && front[l].high == HighOf(front);
      assert candles[k].low == LowOf(front) && candles[l].high == HighOf(front);
      assert LowOf(candles) == LowOf(front) || LowOf(candles) == candles[n].low;
      assert HighOf(candles) == HighOf(front) || HighOf(candles) == candles[n].high;
      assert forall m :: 0 <= m < n ==> candles[m] == front[m];
    } else {
      assert candles[0].low == LowOf(candles) && candles[0].high == HighOf(candles);
    }
  }

  lemma {:induction false} GroupMembers(groups: seq<Bucket>, i: nat, k: nat)
    requires i < |groups| && k < |groups[i].candles|
    ensures groups[i].candles[k] in Flatten(groups)
  {
    if i < |groups| - 1 {
      GroupMembers(groups[..|groups| - 1], i, k);
    }
  }

  /**
   * Bars carry strictly increasing multiples of six hours; each has the greatest high, the least low
   * and the last close of its candles, and so is coherent whenever they are.
   */
  lemma BarsAreCoherent(hourly: seq<Candle>, i: nat)
    requires InTimeOrder(hourly) && i < |AllBars(hourly)|
    ensures var bar, candles := AllBars(hourly)[i], Group(hourly)[i].candles;
      && bar.time % SIX_HOURS == 0 && (i > 0 ==> AllBars(hourly)[i - 1].time < bar.time)
      && (forall k :: 0 <= k < |candles| ==>
            && bar.low <= candles[k].low && candles[k].high <= bar.high
            && bar.time <= candles[k].time < bar.time + SIX_HOURS)
      && (exists k :: 0 <= k < |candles| && candles[k].low == bar.low)
      && (exists k :: 0 <= k < |candles| && candles[k].high == bar.high)
      && candles != [] && bar.close == candles[|candles| - 1].close
      && ((forall c :: c in hourly ==> Coherent(c)) ==> bar.low <= bar.close <= bar.high)
  {
    hide Group, ToBar, BucketOf, InBucket, Coherent, AllBars;
    BucketsPartition(hourly);
    KeysAscend(hourly);
    var groups := Group(hourly);
    assert AllBars(hourly)[i] == ToBar(groups[i]);
    BucketIsCoherent(groups[i]);
    GroupMembers(groups, i, |groups[i].candles| - 1);
    if i > 0 {
      assert AllBars(hourly)[i - 1] == ToBar(groups[i - 1]);
      BarTime(groups[i - 1]);
      assert TimesOf(groups)[i - 1] < TimesOf(groups)[i];
    }
  }

  lemma BarTime(b: Bucket)
    requires b.candles != []
    ensures ToBar(b).time == b.time
  {}

  lemma BucketIsCoherent(b: Bucket)
    requires InBucket(b) && b.candles != []
    ensures var bar := ToBar(b);
      && bar.time == b.time && bar.time % SIX_HOURS == 0
      && (forall k :: 0 <= k < |b.candles| ==>
            && bar.low <= b.candles[k].low && b.candles[k].high <= bar.high
            && bar.time <= b.candles[k].time < bar.time + SIX_HOURS)
      && (exists k :: 0 <= k < |b.candles| && b.candles[k].low == bar.low)
      && (exists k :: 0 <= k < |b.candles| && b.candles[k].high == bar.high)
      && bar.close == b.candles[|b.candles| - 1].close
      && (Coherent(b.candles[|b.candles| - 1]) ==> bar.low <= bar.close <= bar.high)
  {
    hide HighOf, LowOf;
    ExtremesAreAttained(b.candles);
  }

  /** The six-hour slots the rows fall into. */
  function Slots(rows: seq<Row>): set<int> {
    set row | row in rows && row.Numbers? :: BucketOf(row.candle)
  }

  function SlotsOf(candles: seq<Candle>): set<int> { set c | c in candles :: BucketOf(c) }

  lemma {:induction false} AscendingCount(keys: seq<int>)
    requires Ascending(keys)
    ensures |set t | t in keys| == |keys|
  {
    if keys == [] {
      assert (set t | t in keys) == {};
    } else {
      var front, last := keys[..|keys| - 1], keys[|keys| - 1];
      AscendingCount(front);
      assert (set t | t in keys) == (set t | t in front) + {last};
    }
  }

  /** Every bar is a slot of some candle, and every slot has its bar. */
  lemma TimesAreSlots(hourly: seq<Candle>)
    ensures (set t | t in TimesOf(Group(hourly))) == SlotsOf(hourly)
  {
    BucketsPartition(hourly);
    GroupsAreFilled(hourly);
    var groups := Group(hourly);
    var times := TimesOf(groups);
    forall t ensures t in times <==> t in SlotsOf(hourly) {
      if t in times {
        var i :| 0 <= i < |times| && times[i] == t;
        assert InBucket(groups[i]);
        GroupMembers(groups, i, 0);
        SlotOfMember(groups[i], 0);
      }
      if t in SlotsOf(hourly) {
        var c :| c in hourly && BucketOf(c) == t;
        var i, k := MemberOfGroup(groups, c);
        assert InBucket(groups[i]);
        SlotOfMember(groups[i], k);
        assert times[i] == t;
      }
    }
  }

  lemma SlotOfMember(b: Bucket, k: nat)
    requires InBucket(b) && k < |b.candles|
    ensures BucketOf(b.candles[k]) == b.time
  {
    var t, u := b.candles[k].time, b.time / SIX_HOURS;
    assert b.time == u * SIX_HOURS;
    assert u * SIX_HOURS <= t < (u + 1) * SIX_HOURS;
    assert t / SIX_HOURS == u;
  }

  lemma {:induction false} MemberOfGroup(groups: seq<Bucket>, c: Candle) returns (i: nat, k: nat)
    requires c in Flatten(groups)
    ensures i < |groups| && k < |groups[i].candles| && groups[i].candles[k] == c
  {
    var n := |groups| - 1;
    if c in groups[n].candles {
      i := n;
      k :| 0 <= k < |groups[n].candles| && groups[n].candles[k] == c;
    } else {
      i, k := MemberOfGroup(groups[..n], c);
    }
  }

  lemma SlotCount(hourly: seq<Candle>)
    requires InTimeOrder(hourly)
    ensures |AllBars(hourly)| == |SlotsOf(hourly)|
  {
    KeysAscend(hourly);
    TimesAreSlots(hourly);
    AscendingCount(TimesOf(Group(hourly)));
  }

  lemma ParsedSlots(rows: seq<Row>)
    requires ParseAll(rows).Candles?
    ensures SlotsOf(Sort(ByTime, ParseAll(rows).candles)) == Slots(rows)
  {
    ParsesExactly(rows);
    var candles := ParseAll(rows).candles;
    SortedInTime(candles);
    var hourly := Sort(ByTime, candles);
    forall c ensures c in hourly <==> Numbers(c) in rows {
      assert c in hourly <==> c in multiset(hourly);
      assert c in candles <==> c in multiset(candles);
      if c in candles {
        var i :| 0 <= i < |candles| && candles[i] == c;
        assert rows[i] == Numbers(c);
      }
      if Numbers(c) in rows {
        var i :| 0 <= i < |rows| && rows[i] == Numbers(c);
        assert candles[i] == c;
      }
    }
    forall t ensures t in SlotsOf(hourly) <==> t in Slots(rows) {
      if t in SlotsOf(hourly) {
        var c :| c in hourly && BucketOf(c) == t;
        assert Numbers(c) in rows;
      }
      if t in Slots(rows) {
        var row :| row in rows && row.Numbers? && BucketOf(row.candle) == t;
        assert row == Numbers(row.candle);
      }
    }
  }

  /** Coherent in itself and named after a multiple of six hours. */
  predicate Proper(bar: Bar) { bar.time % SIX_HOURS == 0 && bar.low <= bar.close <= bar.high }

  ghost predicate RowsCohere(rows: seq<Row>) {
    forall row :: row in rows && row.Numbers? ==> Coherent(row.candle)
  }

  /**
   * Bars come back exactly when every row is valid and the rows fall into at least 130 six-hour
   * slots. Then they are 130, one for each of the latest slots, in order; and if every candle's close
   * lies between its low and its high, so does every bar's.
   */
  lemma FoldSucceedsExactly(rows: seq<Row>)
    ensures Fold(rows).Bars? <==> (forall i :: 0 <= i < |rows| ==> FaultOf(rows[i]).None?) && |Slots(rows)| >= TARGET_BARS
    ensures Fold(rows).Bars? ==>
      var bars := Fold(rows).bars;
      && |bars| == TARGET_BARS
      && (forall i :: 0 <= i < |bars| ==> bars[i].time in Slots(rows) && bars[i].time % SIX_HOURS == 0)
      && (forall i, j :: 0 <= i < j < |bars| ==> bars[i].time < bars[j].time)
      && (forall t :: t in Slots(rows) ==> t >= bars[0].time ==> exists i :: 0 <= i < |bars| && bars[i].time == t)
      && (RowsCohere(rows) ==> forall i :: 0 <= i < |bars| ==> Proper(bars[i]))
  {
    hide AllBars, Slots, SlotsOf, ParseAll, Sort, FaultOf, InTimeOrder, Proper, RowsCohere, Coherent;
    ParsesExactly(rows);
    if ParseAll(rows).Candles? {
      var candles := ParseAll(rows).candles;
      var hourly := Sort(ByTime, candles);
      SortedInTime(candles);
      ParsedSlots(rows);
      SlotCount(hourly);
      var all := AllBars(hourly);
      if |all| >= TARGET_BARS {
        TimesOfBars(hourly);
        if RowsCohere(rows) {
          RowsCohereCandles(rows, candles, hourly);
        }
        NewestBars(hourly, |all| - TARGET_BARS);
      }
    }
  }

  lemma RowsCohereCandles(rows: seq<Row>, candles: seq<Candle>, hourly: seq<Candle>)
    requires |candles| == |rows| && forall i :: 0 <= i < |rows| ==> rows[i] == Numbers(candles[i])
    requires multiset(hourly) == multiset(candles) && RowsCohere(rows)
    ensures forall c :: c in hourly ==> Coherent(c)
  {
    forall c | c in hourly ensures Coherent(c) {
      assert c in multiset(candles);
      var i :| 0 <= i < |candles| && candles[i] == c;
      assert rows[i] in rows;
    }
  }

  lemma TimesOfBars(hourly: seq<Candle>)
    requires InTimeOrder(hourly)
    ensures var bars := AllBars(hourly);
      && (forall i, j :: 0 <= i < j < |bars| ==> bars[i].time < bars[j].time)
      && (forall t :: t in SlotsOf(hourly) <==> exists i :: 0 <= i < |bars| && bars[i].time == t)
  {
    KeysAscend(hourly);
    TimesAreSlots(hourly);
    hide Group, SlotsOf;
    var bars, times := AllBars(hourly), TimesOf(Group(hourly));
    assert forall i :: 0 <= i < |bars| ==> bars[i].time == times[i];
    forall t ensures t in SlotsOf(hourly) <==> exists i :: 0 <= i < |bars| && bars[i].time == t {
      assert t in SlotsOf(hourly) <==> t in times;
      if t in times {
        var i :| 0 <= i < |times| && times[i] == t;
        assert bars[i].time == t;
      }
    }
  }

  lemma NewestBars(hourly: seq<Candle>, n: nat)
    requires InTimeOrder(hourly) && n <= |AllBars(hourly)|
    ensures forall i :: n <= i < |AllBars(hourly)| ==>
      AllBars(hourly)[i].time % SIX_HOURS == 0
      && ((forall c :: c in hourly ==> Coherent(c)) ==> Proper(AllBars(hourly)[i]))
  {
    hide AllBars, Group;
    forall i | n <= i < |AllBars(hourly)|
      ensures AllBars(hourly)[i].time % SIX_HOURS == 0
      ensures (forall c :: c in hourly ==> Coherent(c)) ==> Proper(AllBars(hourly)[i])
    {
      BarsAreCoherent(hourly, i);
    }
  }

  /** The slots of the rows are the six-hour stretches, counted from time zero, that some row falls into. */
  lemma SlotsExactly(rows: seq<Row>, t: int)
    ensures t in Slots(rows) <==>
      t % 21600 == 0 && exists row :: row in rows && row.Numbers? && t <= row.candle.time < t + 21600
  {
    forall row | row in rows && row.Numbers? ensures BucketOf(row.candle) == t <==> t % 21600 == 0 && t <= row.candle.time < t + 21600 {
      StartOfSlot(row.candle.time, t);
    }
  }

  lemma StartOfSlot(time: int, t: int)
    ensures time / 21600 * 21600 == t <==> t % 21600 == 0 && t <= time < t + 21600
  {
    if t % 21600 == 0 && t <= time < t + 21600 {
      var q := t / 21600;
      assert q * 21600 == t;
    }
  }

  /** Why a row cannot be read, if it cannot: what it lacks comes before what its numbers are. */
  ghost predicate BadFor(row: Row, fault: Fault) {
    match row
    case Short => fault == ShortCandle
    case NotNumeric => fault == NonNumericCandle
    case Numbers(c) =>
      fault == InvalidCandle
      && (c.time <= 0 || c.close <= 0.0 || c.high <= 0.0 || c.low <= 0.0 || c.open <= 0.0 || c.volume < 0.0)
  }

  lemma BadMeans(row: Row, fault: Fault)
    ensures FaultOf(row) == Some(fault) <==> BadFor(row, fault)
  {}

  /** Row `i` is the first that cannot be read, for this reason. */
  ghost predicate FirstBad(rows: seq<Row>, i: nat, fault: Fault) {
    i < |rows| && FaultOf(rows[i]) == Some(fault) && forall j :: 0 <= j < i ==> FaultOf(rows[j]).None?
  }

  lemma {:induction false} FirstBadRow(rows: seq<Row>, fault: Fault)
    ensures ParseAll(rows) == BadRow(fault) <==> exists i: nat :: FirstBad(rows, i, fault)
  {
    hide FaultOf;
    if rows != [] {
      var n := |rows| - 1;
      var front := rows[..n];
      FirstBadRow(front, fault);
      ParsesExactly(front);
      forall i: nat ensures FirstBad(rows, i, fault) <==>
        FirstBad(front, i, fault) || (i == n && ParseAll(front).Candles? && FaultOf(rows[n]) == Some(fault))
      {
        assert forall j :: 0 <= j < n ==> front[j] == rows[j];
      }
      hide FirstBad;
      if ParseAll(front).Candles? && FaultOf(rows[n]) == Some(fault) {
        assert FirstBad(rows, n, fault);
      }
    }
  }

  /** The first row that cannot be read, for whatever reason, cannot be read for this one. */
  ghost predicate StopsAt(rows: seq<Row>, i: nat, fault: Fault) {
    i < |rows| && BadFor(rows[i], fault) && forall j, f :: 0 <= j < i ==> !BadFor(rows[j], f)
  }

  lemma NoneIsNoFault(o: Option<Fault>)
    ensures o.None? || exists f :: o == Some(f)
  {
    if o.Some? {
      assert o == Some(o.value);
    }
  }

  lemma StopsMeans(rows: seq<Row>, i: nat, fault: Fault)
    ensures StopsAt(rows, i, fault) <==> FirstBad(rows, i, fault)
  {
    forall j, f | 0 <= j < |rows| ensures FaultOf(rows[j]) == Some(f) <==> BadFor(rows[j], f) {
      BadMeans(rows[j], f);
    }
    hide BadFor, FaultOf;
    if FirstBad(rows, i, fault) {
      assert FaultOf(rows[i]) == Some(fault);
    }
    if StopsAt(rows, i, fault) {
      assert forall j, f :: 0 <= j < i ==> FaultOf(rows[j]) != Some(f);
      forall j | 0 <= j < i ensures FaultOf(rows[j]).None? {
        NoneIsNoFault(FaultOf(rows[j]));
      }
    }
  }

  /** A refusal names the first row that cannot be read, or else how many six-hour slots there are, short of 130. */
  lemma RefusesExactly(rows: seq<Row>, fault: Fault)
    ensures Fold(rows) == Refused(fault) <==>
      || (exists i: nat :: StopsAt(rows, i, fault))
      || ((forall i: nat, f :: !StopsAt(rows, i, f)) && |Slots(rows)| < 130 && fault == TooFewBars(|Slots(rows)|))
  {
    hide StopsAt, FirstBad, FaultOf, AllBars, Slots, SlotsOf, ParseAll, Sort;
    forall f ensures ParseAll(rows) == BadRow(f) <==> exists i: nat :: StopsAt(rows, i, f) {
      StopsExactly(rows, f);
    }
    forall i: nat, f ensures StopsAt(rows, i, f) ==> ParseAll(rows) == BadRow(f) {
      StopsExactly(rows, f);
    }
    if ParseAll(rows).Candles? {
      ReadSlots(rows);
    } else {
      var g := ParseAll(rows).fault;
      StopsExactly(rows, g);
      var i: nat :| StopsAt(rows, i, g);
    }
  }

  lemma StopsExactly(rows: seq<Row>, fault: Fault)
    ensures ParseAll(rows) == BadRow(fault) <==> exists i: nat :: StopsAt(rows, i, fault)
  {
    hide StopsAt, FirstBad, ParseAll;
    FirstBadRow(rows, fault);
    forall i: nat ensures StopsAt(rows, i, fault) <==> FirstBad(rows, i, fault) {
      StopsMeans(rows, i, fault);
    }
  }

  lemma ReadSlots(rows: seq<Row>)
    requires ParseAll(rows).Candles?
    ensures |AllBars(Sort(ByTime, ParseAll(rows).candles))| == |Slots(rows)|
  {
    SortedInTime(ParseAll(rows).candles);
    hide AllBars, Slots, SlotsOf, ParseAll, Sort;
    ParsedSlots(rows);
    SlotCount(Sort(ByTime, ParseAll(rows).candles));
  }

  lemma {:induction false} ParsesExactly(rows: seq<Row>)
    ensures ParseAll(rows).Candles? <==> forall i :: 0 <= i < |rows| ==> FaultOf(rows[i]).None?
    ensures ParseAll(rows).Candles? ==>
      |ParseAll(rows).candles| == |rows| && forall i :: 0 <= i < |rows| ==> rows[i] == Numbers(ParseAll(rows).candles[i])
  {
    if rows != [] {
      ParsesExactly(rows[..|rows| - 1]);
    }
  }

  /** With distinct timestamps the bars do not depend on the order of the candles. */
  lemma BarsForgetOrder(a: seq<Candle>, b: seq<Candle>)
    requires multiset(a) == multiset(b)
    requires forall x, y :: x in a && y in a && x.time == y.time ==> x == y
    ensures AllBars(Sort(ByTime, a)) == AllBars(Sort(ByTime, b))
  {
    ByTimeIsTotal();
    forall x, y | x in a && y in a && ByTime(x, y) && ByTime(y, x) ensures x == y {
      assert x.time == y.time;
    }
    SortForgetsOrder(ByTime, a, b);
  }
}
