/** Small stores whose contents are functions of the history of writes. */
module Stores {
  import opened Common
  import opened Folds
  import opened Sorting
  import TextOrder

  // The last good snapshot of each symbol.

  datatype Snapshot = Snapshot(symbol: Option<string>, source: string, asOf: string, body: string)

  /** Strictly older, by the text order of the timestamps. */
  predicate Older(a: string, b: string) { !TextOrder.Leq(b, a) }

  function Upserted(rows: map<string, Snapshot>, s: Snapshot): map<string, Snapshot>
    requires s.symbol.Some?
  {
    if s.symbol.value in rows && Older(s.asOf, rows[s.symbol.value].asOf) then rows else rows[s.symbol.value := s]
  }

  /** The rows after a history of upserts; those without a symbol raise and write nothing. */
  function LastGood(history: seq<Snapshot>): map<string, Snapshot> {
    if history == [] then map[]
    else
      var before, last := LastGood(history[..|history| - 1]), history[|history| - 1];
      if last.symbol.None? then before else Upserted(before, last)
  }

  class LastGoodStore {
    var rows: map<string, Snapshot>

    constructor ()
      ensures rows == LastGood([])
    {
      rows := map[];
    }

    /** The row now stored for the symbol; None when the snapshot names none. */
    method Upsert(s: Snapshot, ghost history: seq<Snapshot>) returns (row: Option<Snapshot>)
      requires rows == LastGood(history)
      modifies this
      ensures rows == LastGood(history + [s])
      ensures row.None? <==> s.symbol.None?
      ensures row.Some? ==> s.symbol.value in rows && row.value == rows[s.symbol.value]
    {
      assert (history + [s])[..|history|] == history;
      if s.symbol.None? {
        return None;
      }
      var key := s.symbol.value;
      if key in rows && Older(s.asOf, rows[key].asOf) {
        return Some(rows[key]);
      }
      rows := rows[key := s];
      row := Some(s);
    }
  }

  ghost predicate Newest(history: seq<Snapshot>, symbol: string, i: nat) {
    && i < |history| && history[i].symbol == Some(symbol)
    && forall j :: 0 <= j < |history| && history[j].symbol == Some(symbol) ==>
         if j <= i then TextOrder.Leq(history[j].asOf, history[i].asOf) else Older(history[j].asOf, history[i].asOf)
  }

  /** What is stored is the last write among those with the greatest timestamp. */
  lemma {:induction false} LastGoodIsNewest(history: seq<Snapshot>, symbol: string) returns (i: nat)
    ensures symbol in LastGood(history) <==> exists j :: 0 <= j < |history| && history[j].symbol == Some(symbol)
    ensures symbol in LastGood(history) ==> Newest(history, symbol, i) && LastGood(history)[symbol] == history[i]
  {
    i := 0;
    if history != [] {
      var n := |history| - 1;
      var front, last := history[..n], history[n];
      var k := LastGoodIsNewest(front, symbol);
      var held := symbol in LastGood(front);
      if last.symbol == Some(symbol) {
        assert history[n].symbol == Some(symbol);
        if held && Older(last.asOf, front[k].asOf) {
          i := k;
        } else {
          i := n;
          TextOrder.Total(last.asOf, last.asOf);
          if held {
            forall j | 0 <= j < n && history[j].symbol == Some(symbol) ensures TextOrder.Leq(history[j].asOf, last.asOf) {
              assert front[j] == history[j];
              if j <= k {
                TextOrder.Transitive(front[j].asOf, front[k].asOf, last.asOf);
              } else {
                TextOrder.Total(front[j].asOf, front[k].asOf);
                TextOrder.Transitive(front[j].asOf, front[k].asOf, last.asOf);
              }
            }
          } else {
            assert forall j :: 0 <= j < n ==> front[j] == history[j];
          }
        }
      } else {
        i := k;
        if held {
          assert history[k] == front[k];
        } else {
          assert forall j :: 0 <= j < n ==> front[j] == history[j];
        }
      }
    }
  }

  // Market capitalisation samples.

  datatype Sample = Sample(symbol: string, asOf: string, value: real, runId: string)

  predicate SameKey(a: Sample, b: Sample) { a.symbol == b.symbol && a.asOf == b.asOf }

  function Put(rows: seq<Sample>, s: Sample): seq<Sample> {
    if rows == [] then [s]
    else if SameKey(rows[0], s) then [s] + rows[1..]
    else [rows[0]] + Put(rows[1..], s)
  }

  lemma {:induction false} PutSkips(rows: seq<Sample>, s: Sample, k: nat)
    requires k <= |rows| && forall i :: 0 <= i < k ==> !SameKey(rows[i], s)
    ensures Put(rows, s) == rows[..k] + Put(rows[k..], s)
  {
    if k > 0 {
      PutSkips(rows[1..], s, k - 1);
      assert rows[1..][k - 1..] == rows[k..] && rows[..k] == [rows[0]] + rows[1..][..k - 1];
    }
  }

  class SampleStore {
    var rows: seq<Sample>

    constructor ()
      ensures rows == Samples([])
    {
      rows := [];
    }

    /** Overwrite the row of the same key, or add one. */
    method Upsert(s: Sample, ghost history: seq<Sample>)
      requires rows == Samples(history)
      modifies this
      ensures rows == Samples(history + [s])
    {
      assert (history + [s])[..|history|] == history;
      var k := 0;
      while k < |rows| && !SameKey(rows[k], s)
        invariant k <= |rows| && forall i :: 0 <= i < k ==> !SameKey(rows[i], s)
      {
        k := k + 1;
      }
      PutSkips(rows, s, k);
      if k < |rows| {
        rows := rows[..k] + [s] + rows[k + 1..];
      } else {
        rows := rows + [s];
      }
    }
  }

  function Samples(history: seq<Sample>): seq<Sample> {
    if history == [] then [] else Put(Samples(history[..|history| - 1]), history[|history| - 1])
  }

  predicate NewestFirst(a: Sample, b: Sample) { TextOrder.Leq(b.asOf, a.asOf) }

  function Reversed<T>(s: seq<T>): (r: seq<T>)
    ensures |r| == |s|
    ensures forall i :: 0 <= i < |s| ==> r[i] == s[|s| - 1 - i]
  {
    seq(|s|, i requires 0 <= i < |s| => s[|s| - 1 - i])
  }

  function Ranked(rows: seq<Sample>, symbol: string): seq<Sample> {
    Sort(NewestFirst, Keep((s: Sample) => s.symbol == symbol, rows))
  }

  function ListRecent(rows: seq<Sample>, symbol: string, limit: nat): seq<Sample> {
    var ranked := Ranked(rows, symbol);
    Reversed(if |ranked| <= limit then ranked else ranked[..limit])
  }

  ghost predicate UniqueKeys(rows: seq<Sample>) {
    forall i, j :: 0 <= i < j < |rows| ==> !SameKey(rows[i], rows[j])
  }

  lemma {:induction false} PutLaws(rows: seq<Sample>, s: Sample)
    requires UniqueKeys(rows)
    ensures UniqueKeys(Put(rows, s))
    ensures forall r :: r in Put(rows, s) <==> r == s || (r in rows && !SameKey(r, s))
  {
    if rows != [] {
      assert rows == [rows[0]] + rows[1..];
      if SameKey(rows[0], s) {
        forall r | r in rows[1..] ensures !SameKey(r, s) {
          var k :| 0 <= k < |rows[1..]| && rows[1..][k] == r;
          assert !SameKey(rows[0], rows[k + 1]);
        }
      } else {
        PutLaws(rows[1..], s);
        var rest := Put(rows[1..], s);
        forall k | 0 <= k < |rest| ensures !SameKey(rows[0], rest[k]) {
          assert rest[k] in rest;
          if rest[k] != s {
            var l :| 0 <= l < |rows[1..]| && rows[1..][l] == rest[k];
            assert !SameKey(rows[0], rows[l + 1]);
          }
        }
      }
    }
  }

  ghost predicate LastWrite(history: seq<Sample>, s: Sample) {
    exists i :: 0 <= i < |history| && history[i] == s && forall j :: i < j < |history| ==> !SameKey(history[j], s)
  }

  lemma LastWriteSnoc(front: seq<Sample>, last: Sample, s: Sample)
    ensures LastWrite(front + [last], s) <==> s == last || (LastWrite(front, s) && !SameKey(s, last))
  {
    var history, n := front + [last], |front|;
    if s == last {
      assert history[n] == s;
    }
    if LastWrite(front, s) && !SameKey(s, last) {
      var i :| 0 <= i < n && front[i] == s && forall j :: i < j < n ==> !SameKey(front[j], s);
      assert history[i] == s;
    }
    if LastWrite(history, s) && s != last {
      var i :| 0 <= i < |history| && history[i] == s && forall j :: i < j < |history| ==> !SameKey(history[j], s);
      assert front[i] == s;
      assert !SameKey(history[n], s);
      assert forall j :: i < j < n ==> history[j] == front[j];
    }
  }

  /** One row per key, and in it the last write of that key. */
  lemma {:induction false} SamplesAreLastWrites(history: seq<Sample>)
    ensures UniqueKeys(Samples(history))
    ensures forall s :: s in Samples(history) <==> LastWrite(history, s)
  {
    if history != [] {
      var front, last := history[..|history| - 1], history[|history| - 1];
      SamplesAreLastWrites(front);
      PutLaws(Samples(front), last);
      assert history == front + [last];
      forall s ensures s in Samples(history) <==> LastWrite(history, s) {
        LastWriteSnoc(front, last, s);
      }
    }
  }

  lemma NewestFirstIsTotal()
    ensures TotalPreorder(NewestFirst)
  {
    forall a, b ensures NewestFirst(a, b) || NewestFirst(b, a) {
      TextOrder.Total(a.asOf, b.asOf);
    }
    forall a, b, c | NewestFirst(a, b) && NewestFirst(b, c) ensures NewestFirst(a, c) {
      TextOrder.Transitive(c.asOf, b.asOf, a.asOf);
    }
  }

  lemma {:induction false} KeepUnique(p: Sample -> bool, rows: seq<Sample>)
    requires UniqueKeys(rows)
    ensures UniqueKeys(Keep(p, rows))
  {
    if rows != [] {
      KeepUnique(p, rows[1..]);
      KeepKept(p, rows[1..]);
      var rest := Keep(p, rows[1..]);
      forall k | 0 <= k < |rest| ensures !SameKey(rows[0], rest[k]) {
        assert rest[k] in rows[1..];
        var l :| 0 <= l < |rows[1..]| && rows[1..][l] == rest[k];
        assert !SameKey(rows[0], rows[l + 1]);
      }
    }
  }

  function KeyOf(s: Sample): (string, string) { (s.symbol, s.asOf) }

  ghost predicate StrictlyNewestFirst(ranked: seq<Sample>) {
    forall i, j :: 0 <= i < j < |ranked| ==> Older(ranked[j].asOf, ranked[i].asOf)
  }

  /** The rows of a symbol, newest first, each strictly newer than the next. */
  lemma RankedLaws(rows: seq<Sample>, symbol: string)
    requires UniqueKeys(rows)
    ensures var ranked := Ranked(rows, symbol);
      && (forall s :: s in ranked <==> s in rows && s.symbol == symbol)
      && StrictlyNewestFirst(ranked)
  {
    var p := (s: Sample) => s.symbol == symbol;
    var kept, ranked := Keep(p, rows), Ranked(rows, symbol);
    KeepKept(p, rows);
    KeepUnique(p, rows);
    SortPermutes(NewestFirst, kept);
    NewestFirstIsTotal();
    SortSorts(NewestFirst, kept);
    forall s ensures s in ranked <==> s in kept {
      assert s in ranked <==> s in multiset(ranked);
      assert s in kept <==> s in multiset(kept);
    }
    assert DistinctBy(KeyOf, kept) by {
      forall i, j | 0 <= i < j < |kept| ensures KeyOf(kept[i]) != KeyOf(kept[j]) {
        assert !SameKey(kept[i], kept[j]);
      }
    }
    DistinctUnderPermutation(KeyOf, kept, ranked);
    forall i, j | 0 <= i < j < |ranked| ensures Older(ranked[j].asOf, ranked[i].asOf) {
      assert NewestFirst(ranked[i], ranked[j]);
      assert KeyOf(ranked[i]) != KeyOf(ranked[j]);
      assert ranked[i] in ranked && ranked[j] in ranked;
      if TextOrder.Leq(ranked[i].asOf, ranked[j].asOf) {
        TextOrder.Antisymmetric(ranked[i].asOf, ranked[j].asOf);
      }
    }
  }

  /**
   * A bounded read of a symbol's history: the newest rows, as many as fit, oldest first, and every
   * row left out is older than every row listed.
   */
  lemma ListRecentLaws(rows: seq<Sample>, symbol: string, limit: nat)
    requires UniqueKeys(rows)
    ensures var listed := ListRecent(rows, symbol, limit);
      && |listed| == (if |Ranked(rows, symbol)| <= limit then |Ranked(rows, symbol)| else limit)
      && (forall i, j :: 0 <= i < j < |listed| ==> Older(listed[i].asOf, listed[j].asOf))
      && (forall i :: 0 <= i < |listed| ==> listed[i] in rows && listed[i].symbol == symbol)
      && (forall s, i :: s in rows && s.symbol == symbol && s !in listed && 0 <= i < |listed| ==> Older(s.asOf, listed[i].asOf))
  {
    RankedLaws(rows, symbol);
    var ranked := Ranked(rows, symbol);
    var n := if |ranked| <= limit then |ranked| else limit;
    assert ranked[..|ranked|] == ranked;
    hide Ranked, UniqueKeys, Older;
    TopReversed(ranked, n);
    forall i | 0 <= i < n ensures Reversed(ranked[..n])[i] in ranked {}
  }

  lemma TopReversed(ranked: seq<Sample>, n: nat)
    requires StrictlyNewestFirst(ranked) && n <= |ranked|
    ensures var listed := Reversed(ranked[..n]);
      && (forall i, j :: 0 <= i < j < n ==> Older(listed[i].asOf, listed[j].asOf))
      && forall s, i :: s in ranked && s !in listed && 0 <= i < n ==> Older(s.asOf, listed[i].asOf)
  {
    hide Older;
    var listed := Reversed(ranked[..n]);
    forall m | 0 <= m < n ensures ranked[m] in listed {
      assert listed[n - 1 - m] == ranked[m];
    }
    forall s, i | s in ranked && s !in listed && 0 <= i < n ensures Older(s.asOf, listed[i].asOf) {
      var k :| 0 <= k < |ranked| && ranked[k] == s;
      assert k >= n;
    }
  }

  // Paging through the runs.

  function ClampLimit(limit: int): (l: nat)
    ensures 1 <= l <= 200
  {
    if limit < 1 then 1 else if limit > 200 then 200 else limit
  }

  function Page<T>(all: seq<T>, limit: nat, offset: nat): (page: seq<T>)
  {
    if offset >= |all| then [] else if offset + limit >= |all| then all[offset..] else all[offset..offset + limit]
  }

  /** A full page is followed by another one, possibly empty. */
  function NextCursor<T>(page: seq<T>, limit: nat, cursor: nat): Option<nat> {
    if |page| == limit then Some(cursor + limit) else None
  }

  /**
   * A client that follows the cursors from 0 over an unchanging database sees every run exactly
   * once, in order, and stops after one request more than there are full pages.
   */
  method FollowCursors<T>(all: seq<T>, requested: int) returns (seen: seq<T>, requests: nat)
    ensures seen == all
    ensures requests == |all| / (if requested < 1 then 1 else if requested > 200 then 200 else requested) + 1
  {
    var limit := ClampLimit(requested);
    var cursor: nat := 0;
    seen, requests := [], 0;
    while true
      invariant cursor <= |all| && cursor == requests * limit && seen == all[..cursor]
      decreases |all| - cursor
    {
      var page := Page(all, limit, cursor);
      seen, requests := seen + page, requests + 1;
      var next := NextCursor(page, limit, cursor);
      if next.None? {
        LastPage(|all|, limit, requests - 1);
        return;
      }
      cursor := next.value;
    }
  }

  lemma LastPage(n: nat, limit: nat, full: nat)
    requires limit > 0 && full * limit <= n < full * limit + limit
    ensures n / limit == full
  {
    var q := n / limit;
    assert (full + 1 - q) * limit > 0 && (q + 1 - full) * limit > 0;
    PositiveFactor(full + 1 - q, limit);
    PositiveFactor(q + 1 - full, limit);
  }

  lemma PositiveFactor(x: int, limit: nat)
    requires x * limit > 0
    ensures x > 0
  {}
}

/** Rolling health of the providers, and the metrics computed from stored call records. */
module CallStatistics {
  import opened Common
  import opened Folds
  import opened Reasoning

  datatype Sample = Sample(provider: string, outcome: Outcome, latency: int)

  /** The last `window` elements, as a bounded deque keeps them. */
  function Last<T>(s: seq<T>, window: nat): (r: seq<T>)
    ensures |r| <= window
  {
    if |s| <= window then s else s[|s| - window..]
  }

  datatype Rolling = Rolling(outcomes: seq<Outcome>, latencies: seq<int>)

  /** The provider's own samples. */
  function SamplesOf(history: seq<Sample>, provider: string): seq<Sample> {
    if history == [] then []
    else
      var last := history[|history| - 1];
      SamplesOf(history[..|history| - 1], provider) + if last.provider == provider then [last] else []
  }

  function OutcomesIn(samples: seq<Sample>): (outcomes: seq<Outcome>)
    ensures |outcomes| == |samples|
  {
    Each((s: Sample) => s.outcome, samples)
  }

  /** Only successes have a latency. */
  function LatenciesIn(samples: seq<Sample>): (latencies: seq<int>)
    ensures |latencies| <= |samples|
  {
    if samples == [] then []
    else
      var last := samples[|samples| - 1];
      LatenciesIn(samples[..|samples| - 1]) + if last.outcome.Success? then [Max(0, last.latency)] else []
  }

  function Pushed<T>(deque: seq<T>, x: T, window: nat): seq<T> { Last(deque + [x], window) }

  lemma PushKeepsLast<T>(s: seq<T>, x: T, window: nat)
    ensures Pushed(Last(s, window), x, window) == Last(s + [x], window)
  {}

  function RollingOf(history: seq<Sample>, provider: string, window: nat): Rolling {
    var own := SamplesOf(history, provider);
    Rolling(Last(OutcomesIn(own), window), Last(LatenciesIn(own), window))
  }

  lemma RollingSnoc(history: seq<Sample>, s: Sample, provider: string, window: nat)
    ensures var before, after := RollingOf(history, provider, window), RollingOf(history + [s], provider, window);
      && after.outcomes == (if s.provider == provider then Pushed(before.outcomes, s.outcome, window) else before.outcomes)
      && after.latencies == (if s.provider == provider && s.outcome.Success?
                             then Pushed(before.latencies, Max(0, s.latency), window) else before.latencies)
  {
    var own, more := SamplesOf(history, provider), SamplesOf(history + [s], provider);
    assert (history + [s])[..|history|] == history;
    if s.provider == provider {
      assert more == own + [s];
      LatenciesConcat(own, [s]);
      OneLatency(s);
      OutcomesSnoc(own, s);
      hide SamplesOf, LatenciesIn, OutcomesIn, Last;
      PushKeepsLast(OutcomesIn(own), s.outcome, window);
      PushKeepsLast(LatenciesIn(own), Max(0, s.latency), window);
    } else {
      assert more == own;
    }
  }

  lemma OutcomesSnoc(samples: seq<Sample>, s: Sample)
    ensures OutcomesIn(samples + [s]) == OutcomesIn(samples) + [s.outcome]
  {}

  lemma {:induction false} LatenciesConcat(a: seq<Sample>, b: seq<Sample>)
    ensures LatenciesIn(a + b) == LatenciesIn(a) + LatenciesIn(b)
  {
    if b == [] {
      assert a + b == a;
    } else {
      LatenciesConcat(a, b[..|b| - 1]);
      assert (a + b)[..|a + b| - 1] == a + b[..|b| - 1];
    }
  }

  /** The latencies kept are those of the samples whose outcomes are kept. */
  predicate WindowsAgree(history: seq<Sample>, provider: string, window: nat) {
    RollingOf(history, provider, window).latencies == LatenciesIn(Last(SamplesOf(history, provider), window))
  }

  /**
   * When the two windows speak of the same calls: exactly when no success is older than the outcome
   * window, or the window holds nothing but successes.
   */
  lemma WindowsAgreeExactlyWhen(history: seq<Sample>, provider: string, window: nat)
    ensures var own := SamplesOf(history, provider);
      var recent := Last(own, window);
      var older := own[..|own| - |recent|];
      && RollingOf(history, provider, window).outcomes == OutcomesIn(recent)
      && (WindowsAgree(history, provider, window) <==> LatenciesIn(older) == [] || |LatenciesIn(recent)| == window)
  {
    var own := SamplesOf(history, provider);
    var recent := Last(own, window);
    var older := own[..|own| - |recent|];
    assert own == older + recent;
    LatenciesConcat(older, recent);
    LastOutcomes(own, window);
    hide LatenciesIn, OutcomesIn, SamplesOf, Last;
    LastOfConcat(LatenciesIn(older), LatenciesIn(recent), window);
  }

  lemma LastOutcomes(samples: seq<Sample>, window: nat)
    ensures Last(OutcomesIn(samples), window) == OutcomesIn(Last(samples, window))
  {}

  lemma LastOfConcat<T>(a: seq<T>, b: seq<T>, window: nat)
    requires |b| <= window
    ensures Last(a + b, window) == b <==> a == [] || |b| == window
  {
    if a == [] || |b| == window {
      assert Last(a + b, window) == b;
    } else {
      assert |Last(a + b, window)| > |b|;
    }
  }

  /**
   * One success followed by a window of errors: every outcome in view is an error, and yet the
   * latency of the forgotten success is still averaged.
   */
  lemma ForgottenSuccessKeepsLatency(provider: string, window: nat, latency: nat) returns (history: seq<Sample>)
    requires window > 0
    ensures |history| == window + 1
    ensures RollingOf(history, provider, window) == Rolling(seq(window, _ => Error), [latency])
    ensures !WindowsAgree(history, provider, window)
  {
    var errors := seq(window, _ => Sample(provider, Error, 0));
    var success := Sample(provider, Success, latency);
    history := [success] + errors;
    SuccessThenFailures(success, errors, provider);
    hide RollingOf, WindowsAgree, SamplesOf, LatenciesIn;
    assert OutcomesIn(errors) == seq(window, _ => Error);
  }

  lemma SuccessThenFailures(success: Sample, failures: seq<Sample>, provider: string)
    requires success.provider == provider && success.outcome.Success? && failures != []
    requires forall i :: 0 <= i < |failures| ==> failures[i].provider == provider && !failures[i].outcome.Success?
    ensures var history, window := [success] + failures, |failures|;
      && RollingOf(history, provider, window) == Rolling(OutcomesIn(failures), [Max(0, success.latency)])
      && !WindowsAgree(history, provider, window)
  {
    hide LatenciesIn, SamplesOf, OutcomesIn, Last;
    var history, window := [success] + failures, |failures|;
    AllOwn(history, provider);
    LastOfAll(success, failures);
    LastOutcomes(history, window);
    NoLatencies(failures);
    OneLatency(success);
    LatenciesConcat([success], failures);
    var latency := Max(0, success.latency);
    assert [latency] + [] == [latency];
    LastOfOne(latency, window);
  }

  lemma LastOfAll<T>(first: T, rest: seq<T>)
    ensures Last([first] + rest, |rest|) == rest
  {}

  lemma LastOfOne<T>(x: T, window: nat)
    requires window > 0
    ensures Last([x], window) == [x]
  {}

  lemma OneLatency(s: Sample)
    ensures LatenciesIn([s]) == if s.outcome.Success? then [Max(0, s.latency)] else []
  {
    assert [s][..0] == [];
  }

  lemma {:induction false} AllOwn(history: seq<Sample>, provider: string)
    requires forall i :: 0 <= i < |history| ==> history[i].provider == provider
    ensures SamplesOf(history, provider) == history
  {
    if history != [] {
      AllOwn(history[..|history| - 1], provider);
    }
  }

  lemma {:induction false} NoLatencies(samples: seq<Sample>)
    requires forall i :: 0 <= i < |samples| ==> !samples[i].outcome.Success?
    ensures LatenciesIn(samples) == []
  {
    if samples != [] {
      NoLatencies(samples[..|samples| - 1]);
    }
  }

  class HealthMonitor {
    const window: nat
    var byProvider: map<string, Rolling>

    constructor (window: nat)
      ensures this.window == window && byProvider == map[] && Tracks([])
    {
      this.window := window;
      byProvider := map[];
    }

    /** The provider's deques; empty ones are created on first use. */
    function Roll(provider: string): Rolling
      reads this
    {
      if provider in byProvider then byProvider[provider] else Rolling([], [])
    }

    /** Each provider's deques are the tails of its history, the latencies those of its successes only. */
    ghost predicate Tracks(history: seq<Sample>)
      reads this
    {
      forall p :: Roll(p) == RollingOf(history, p, window)
    }

    method Record(s: Sample, ghost history: seq<Sample>)
      requires Tracks(history)
      modifies this
      ensures Tracks(history + [s])
    {
      hide RollingOf;
      var roll := Roll(s.provider);
      var outcomes := Pushed(roll.outcomes, s.outcome, window);
      var latencies := if s.outcome.Success? then Pushed(roll.latencies, Max(0, s.latency), window) else roll.latencies;
      byProvider := byProvider[s.provider := Rolling(outcomes, latencies)];
      forall p ensures Roll(p) == RollingOf(history + [s], p, window) {
        RollingSnoc(history, s, p, window);
        assert old(Roll(p)) == RollingOf(history, p, window);
      }
    }
  }

  // Metrics.

  datatype Call = Call(provider: string, outcome: Outcome, retries: nat, inputTokens: nat, outputTokens: nat)

  /** Any count taken per call: 1 for the calls, retries, tokens of the successful ones and so on. */
  type Measure = Call -> nat

  function Total(f: Measure, calls: seq<Call>): nat {
    if calls == [] then 0 else f(calls[0]) + Total(f, calls[1..])
  }

  function CallsOf(calls: seq<Call>, provider: string): seq<Call> {
    Keep((c: Call) => c.provider == provider, calls)
  }

  function SumOverProviders(f: Measure, calls: seq<Call>, providers: seq<string>): nat {
    if providers == [] then 0 else Total(f, CallsOf(calls, providers[0])) + SumOverProviders(f, calls, providers[1..])
  }

  datatype Totals = Totals(calls: nat, successes: nat, retries: nat, inputTokens: nat, outputTokens: nat)

  /** Retries count for every call, tokens only for successful ones. */
  function TotalsOf(calls: seq<Call>): Totals {
    Totals(Total((c: Call) => 1, calls),
           Total((c: Call) => if c.outcome.Success? then 1 else 0, calls),
           Total((c: Call) => c.retries, calls),
           Total((c: Call) => if c.outcome.Success? then c.inputTokens else 0, calls),
           Total((c: Call) => if c.outcome.Success? then c.outputTokens else 0, calls))
  }

  /** Each call counts once, its retries always, and its tokens only if it succeeded. */
  lemma TotalsGrow(calls: seq<Call>, c: Call)
    ensures var before, after, won := TotalsOf(calls), TotalsOf([c] + calls), c.outcome.Success?;
      && after.calls == before.calls + 1 && after.retries == before.retries + c.retries
      && after.successes == before.successes + (if won then 1 else 0)
      && after.inputTokens == before.inputTokens + (if won then c.inputTokens else 0)
      && after.outputTokens == before.outputTokens + (if won then c.outputTokens else 0)
    ensures TotalsOf([]) == Totals(0, 0, 0, 0, 0)
  {
    assert ([c] + calls)[1..] == calls;
  }

  method CollectPerProvider(calls: seq<Call>, providers: seq<string>) returns (perProvider: map<string, Totals>)
    ensures perProvider == map p | p in providers :: TotalsOf(CallsOf(calls, p))
  {
    hide TotalsOf, CallsOf;
    perProvider := map[];
    for i := 0 to |providers|
      invariant perProvider == map p | p in providers[..i] :: TotalsOf(CallsOf(calls, p))
    {
      perProvider := perProvider[providers[i] := TotalsOf(CallsOf(calls, providers[i]))];
      assert providers[..i + 1] == providers[..i] + [providers[i]];
    }
    assert providers[..|providers|] == providers;
  }

  lemma CallsOfCons(calls: seq<Call>, provider: string)
    requires calls != []
    ensures CallsOf(calls, provider)
         == if calls[0].provider == provider then [calls[0]] + CallsOf(calls[1..], provider) else CallsOf(calls[1..], provider)
  {}

  lemma {:induction false} SumOverCons(f: Measure, calls: seq<Call>, providers: seq<string>)
    requires calls != [] && forall i, j :: 0 <= i < j < |providers| ==> providers[i] != providers[j]
    ensures SumOverProviders(f, calls, providers)
         == SumOverProviders(f, calls[1..], providers) + if calls[0].provider in providers then f(calls[0]) else 0
  {
    if providers != [] {
      var first, rest := providers[0], providers[1..];
      assert providers == [first] + rest;
      SumOverCons(f, calls, rest);
      CallsOfCons(calls, first);
      hide CallsOf;
      if calls[0].provider == first {
        assert ([calls[0]] + CallsOf(calls[1..], first))[1..] == CallsOf(calls[1..], first);
      }
    }
  }

  lemma {:induction false} SumOverNothing(f: Measure, providers: seq<string>)
    ensures SumOverProviders(f, [], providers) == 0
  {
    if providers != [] {
      SumOverNothing(f, providers[1..]);
    }
  }

  /** Splitting calls by provider loses nothing: whatever is counted adds up to the total. */
  lemma {:induction false} ProvidersAddUp(f: Measure, calls: seq<Call>, providers: seq<string>)
    requires forall i, j :: 0 <= i < j < |providers| ==> providers[i] != providers[j]
    requires forall i :: 0 <= i < |calls| ==> calls[i].provider in providers
    ensures SumOverProviders(f, calls, providers) == Total(f, calls)
  {
    if calls == [] {
      SumOverNothing(f, providers);
    } else {
      ProvidersAddUp(f, calls[1..], providers);
      SumOverCons(f, calls, providers);
    }
  }
}
