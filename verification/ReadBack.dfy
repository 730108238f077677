/**
 * The replay check as the harness makes it: against the stored records as the database returns them,
 * ordered by the text of their creation time and then by attempt index.
 */
module ReadBack {
  import opened Common
  import opened Folds
  import opened Sorting
  import opened MonotonicClock
  import opened Reasoning
  import opened Gateway
  import opened Failover
  import opened ReplayVerification
  import opened Sessions
  import opened Streaks
  import opened ReplayTheorem
  import TextOrder

  datatype Row = Row(record: CallRecord, createdAt: string)

  function RecordOfRow(row: Row): CallRecord { row.record }

  function RecordsIn(rows: seq<Row>): seq<CallRecord> { Each(RecordOfRow, rows) }

  predicate NotAfter(a: Row, b: Row) {
    if a.createdAt == b.createdAt then a.record.attemptIndex <= b.record.attemptIndex
    else TextOrder.Leq(a.createdAt, b.createdAt)
  }

  /** One of the orders in which the query can return the rows; ties come back in any order. */
  ghost predicate ReadsBack(rows: seq<Row>, back: seq<Row>) {
    multiset(back) == multiset(rows) && Sorted(NotAfter, back)
  }

  /** Creation times never decrease, and increase from one job to the next. */
  ghost predicate InStep(rows: seq<Row>) {
    forall i, j :: 0 <= i < j < |rows| ==>
      && TextOrder.Leq(rows[i].createdAt, rows[j].createdAt)
      && (rows[i].record.promptHash != rows[j].record.promptHash ==> rows[i].createdAt != rows[j].createdAt)
  }

  // What identifies and numbers the records of a session.

  ghost predicate SameKey(a: CallRecord, b: CallRecord) { a.provider == b.provider && a.promptHash == b.promptHash }

  ghost predicate Keyed(records: seq<CallRecord>) {
    forall i, j :: 0 <= i < j < |records| ==> !SameKey(records[i], records[j])
  }

  /** Position `m` holds the first attempt of the job that the record at `j` belongs to. */
  ghost predicate Starts(records: seq<CallRecord>, m: nat, j: nat) {
    m <= j < |records| && records[m].promptHash == records[j].promptHash && records[m].attemptIndex == 0
  }

  ghost predicate Started(records: seq<CallRecord>, i: int, j: nat) { exists m: nat :: i < m && Starts(records, m, j) }

  /** Jobs follow each other, each numbering its attempts upwards from 0. */
  ghost predicate Numbered(records: seq<CallRecord>) {
    && (forall j :: 0 <= j < |records| ==> Started(records, -1, j))
    && (forall i, j :: 0 <= i < j < |records| ==>
          if records[i].promptHash == records[j].promptHash then records[i].attemptIndex < records[j].attemptIndex
          else Started(records, i, j))
  }

  /** What starts a later job of `b` still does behind `a`. */
  lemma StartedLater(a: seq<CallRecord>, b: seq<CallRecord>, i: int, i': int, j: nat)
    requires i' <= |a| + i && Started(b, i, j)
    ensures Started(a + b, i', |a| + j)
  {
    var m: nat :| i < m && Starts(b, m, j);
    assert Starts(a + b, |a| + m, |a| + j);
  }

  lemma StartedWithin(a: seq<CallRecord>, b: seq<CallRecord>, j: nat)
    requires j < |a| && a[0].promptHash == a[j].promptHash && a[0].attemptIndex == 0
    ensures Started(a + b, -1, j)
  {
    assert Starts(a + b, 0, j);
  }

  /** A job and the later jobs, none of which shares its prompt. */
  lemma KeyedConcat(a: seq<CallRecord>, b: seq<CallRecord>, hash: string)
    requires DistinctProviders(a) && Keyed(b)
    requires (forall k :: 0 <= k < |a| ==> a[k].promptHash == hash) && forall k :: 0 <= k < |b| ==> b[k].promptHash != hash
    ensures Keyed(a + b)
  {}

  lemma NumberedConcat(a: seq<CallRecord>, b: seq<CallRecord>, hash: string)
    requires forall k :: 0 <= k < |a| ==> a[k].promptHash == hash && a[k].attemptIndex == k
    requires Numbered(b) && forall k :: 0 <= k < |b| ==> b[k].promptHash != hash
    ensures Numbered(a + b)
  {
    hide Started;
    var all := a + b;
    forall j | 0 <= j < |all| ensures Started(all, -1, j) {
      if j < |a| {
        StartedWithin(a, b, j);
      } else {
        StartedLater(a, b, -1, -1, j - |a|);
      }
    }
    forall i, j | 0 <= i < j < |all| && all[i].promptHash != all[j].promptHash ensures Started(all, i, j) {
      StartedLater(a, b, if i < |a| then -1 else i - |a|, i, j - |a|);
    }
  }

  lemma {:induction false} FlattenIsKeyed(traces: seq<seq<CallRecord>>, hashes: seq<string>)
    requires |hashes| == |traces| && forall i, j :: 0 <= i < j < |hashes| ==> hashes[i] != hashes[j]
    requires forall u :: 0 <= u < |traces| ==> DistinctProviders(traces[u])
    requires forall u, l :: 0 <= u < |traces| && 0 <= l < |traces[u]| ==>
      traces[u][l].promptHash == hashes[u] && traces[u][l].attemptIndex == l
    ensures Keyed(Flatten(traces)) && Numbered(Flatten(traces))
    ensures forall k :: 0 <= k < |Flatten(traces)| ==> Flatten(traces)[k].promptHash in hashes
  {
    hide Keyed, Numbered;
    if traces == [] {
      NothingIsKeyed();
    } else {
      FlattenIsKeyed(traces[1..], hashes[1..]);
      KeyedConcat(traces[0], Flatten(traces[1..]), hashes[0]);
      NumberedConcat(traces[0], Flatten(traces[1..]), hashes[0]);
    }
  }

  lemma NothingIsKeyed()
    ensures Keyed([]) && Numbered([])
  {}

  ghost predicate CountedUp(run: SessionRun) {
    forall t, k :: 0 <= t < |run.traces| && 0 <= k < |run.traces[t]| ==> run.traces[t][k].attemptIndex == k
  }

  lemma {:induction false} SessionCountsUp(s: Settings, tape: Tape, plan: Plan, n: nat, known: seq<Option<Json>>, st: Stage)
    requires s.Valid()
    ensures CountedUp(Session(s, tape, plan, n, known, st))
  {
    hide RunJob, ChainFor;
    if n > 0 && plan(known).Some? {
      var job := RunJob(s, tape, plan(known).value, st);
      FailoverTrace(s, tape, plan(known).value, st);
      SessionCountsUp(s, tape, plan, n - 1, known + [DataOf(job.answer)], job.after);
    }
  }

  /** In a session with different prompts, provider and prompt identify a record, and jobs number theirs. */
  lemma SessionIsKeyed(s: Settings, tape: Tape, plan: Plan, n: nat, st: Stage)
    requires s.Valid() && DistinctPrompts(Session(s, tape, plan, n, [], st).asked)
    ensures var records := Flatten(Session(s, tape, plan, n, [], st).traces); Keyed(records) && Numbered(records)
  {
    SessionIsWellKeyed(s, tape, plan, n, [], st);
    SessionCountsUp(s, tape, plan, n, [], st);
    hide Session, Keyed, Numbered;
    var run := Session(s, tape, plan, n, [], st);
    FlattenIsKeyed(run.traces, seq(|run.asked|, i requires 0 <= i < |run.asked| => run.asked[i].prompt.hash));
  }

  // The order of the rows.

  lemma NotAfterIsTotal()
    ensures TotalPreorder(NotAfter)
  {
    forall a, b ensures NotAfter(a, b) || NotAfter(b, a) {
      TextOrder.Total(a.createdAt, b.createdAt);
    }
    forall a, b, c | NotAfter(a, b) && NotAfter(b, c) ensures NotAfter(a, c) {
      if a.createdAt != b.createdAt && b.createdAt != c.createdAt {
        TextOrder.Transitive(a.createdAt, b.createdAt, c.createdAt);
        if a.createdAt == c.createdAt {
          TextOrder.Antisymmetric(a.createdAt, b.createdAt);
        }
      }
    }
  }

  ghost predicate Ascending(rows: seq<Row>) {
    forall i, j :: 0 <= i < j < |rows| ==> NotAfter(rows[i], rows[j]) && !NotAfter(rows[j], rows[i])
  }

  lemma AscendingExactlyWhen(rows: seq<Row>)
    requires Numbered(RecordsIn(rows))
    ensures Ascending(rows) <==> InStep(rows)
  {
    var records := RecordsIn(rows);
    if Ascending(rows) {
      forall i, j | 0 <= i < j < |rows|
        ensures TextOrder.Leq(rows[i].createdAt, rows[j].createdAt)
        ensures records[i].promptHash != records[j].promptHash ==> rows[i].createdAt != rows[j].createdAt
      {
        TextOrder.Total(rows[i].createdAt, rows[i].createdAt);
        if records[i].promptHash != records[j].promptHash {
          var m: nat :| i < m && Starts(records, m, j);
          StartIsLater(rows, i, m, j);
        }
      }
    }
    if InStep(rows) {
      forall i, j | 0 <= i < j < |rows| ensures NotAfter(rows[i], rows[j]) && !NotAfter(rows[j], rows[i]) {
        assert rows[i].record == records[i] && rows[j].record == records[j];
        if TextOrder.Leq(rows[j].createdAt, rows[i].createdAt) {
          TextOrder.Antisymmetric(rows[i].createdAt, rows[j].createdAt);
        }
      }
    }
  }

  lemma StartIsLater(rows: seq<Row>, i: nat, m: nat, j: nat)
    requires Ascending(rows) && i < m <= j < |rows| && rows[m].record.attemptIndex == 0
    ensures rows[i].createdAt != rows[j].createdAt
  {
    assert NotAfter(rows[i], rows[m]) && !NotAfter(rows[m], rows[i]);
    assert rows[i].createdAt != rows[m].createdAt;
    if m < j {
      assert NotAfter(rows[m], rows[j]);
    }
  }

  /** Swapping two tied rows of a sorted list leaves it sorted. */
  lemma SwapTied(rows: seq<Row>, i: nat, j: nat) returns (swapped: seq<Row>)
    requires Sorted(NotAfter, rows) && i < j < |rows| && NotAfter(rows[j], rows[i])
    ensures swapped == rows[i := rows[j]][j := rows[i]] && ReadsBack(rows, swapped)
  {
    NotAfterIsTotal();
    hide NotAfter;
    swapped := rows[i := rows[j]][j := rows[i]];
    forall a, b | 0 <= a < b < |rows| ensures NotAfter(swapped[a], swapped[b]) {
      var p, q := if a == i then j else if a == j then i else a, if b == i then j else if b == j then i else b;
      assert swapped[a] == rows[p] && swapped[b] == rows[q];
      if !(p < q) {
        assert i <= a < b <= j;
        assert NotAfter(rows[j], rows[i]);
        assert p == j || NotAfter(rows[p], rows[j]);
        assert q == i || NotAfter(rows[i], rows[q]);
      }
    }
  }

  /**
   * When the read-back order is the order of emission, whatever the database does with ties: exactly
   * when creation times never decrease and increase from one job to the next.
   */
  lemma ReadsBackAsEmittedExactlyWhen(rows: seq<Row>)
    requires Keyed(RecordsIn(rows)) && Numbered(RecordsIn(rows))
    ensures (forall back :: ReadsBack(rows, back) ==> back == rows) <==> InStep(rows)
  {
    NotAfterIsTotal();
    AscendingExactlyWhen(rows);
    hide NotAfter, InStep, Numbered;
    if Ascending(rows) {
      forall x, y | x in rows && y in rows && NotAfter(x, y) && NotAfter(y, x) ensures x == y {
        var i :| 0 <= i < |rows| && rows[i] == x;
        var j :| 0 <= j < |rows| && rows[j] == y;
        assert !(i < j) && !(j < i);
      }
      forall back | ReadsBack(rows, back) ensures back == rows {
        SortedIsUnique(NotAfter, rows, back);
      }
    } else {
      SortPermutes(NotAfter, rows);
      SortSorts(NotAfter, rows);
      var sorted := Sort(NotAfter, rows);
      assert ReadsBack(rows, sorted);
      if sorted == rows {
        var i, j :| 0 <= i < j < |rows| && NotAfter(rows[j], rows[i]);
        var swapped := SwapTied(rows, i, j);
        assert !SameKey(RecordsIn(rows)[i], RecordsIn(rows)[j]);
        assert swapped[i] != rows[i];
      }
    }
  }

  // The check.

  lemma SameRecordsSameRows(rows: seq<Row>, back: seq<Row>)
    requires Keyed(RecordsIn(rows)) && multiset(back) == multiset(rows)
    requires |back| == |rows| && forall k :: 0 <= k < |rows| ==> SameKey(back[k].record, rows[k].record)
    ensures back == rows
  {
    forall k | 0 <= k < |rows| ensures back[k] == rows[k] {
      assert back[k] in multiset(back);
      assert back[k] in rows;
      var m :| 0 <= m < |rows| && rows[m] == back[k];
      assert SameKey(RecordsIn(rows)[m], RecordsIn(rows)[k]) && SameKey(RecordsIn(rows)[k], RecordsIn(rows)[m]);
    }
  }

  /** What a replay from the rows in that order is compared with, and the result. */
  ghost predicate CheckPasses(s: Settings, tape: Tape, plan: Plan, n: nat, back: seq<Row>) {
    AllDiffs(RecordsIn(back), Flatten(Replay(s, tape, plan, n, RecordsIn(back)).traces)) == []
  }

  /**
   * For any arrangement of the stored rows, the check passes exactly when it is the order of emission
   * and every attempt comes back under its own outcome.
   */
  lemma CheckPassesExactlyWhen(s: Settings, live: Tape, st: Stage, plan: Plan, n: nat, tape: Tape, rows: seq<Row>,
                               back: seq<Row>)
    requires s.Valid() && s.codec.Lawful() && WithinDeadlines(s, tape)
    requires var run := Session(s, live, plan, n, [], st);
      DistinctPrompts(run.asked) && RecordsIn(rows) == Flatten(run.traces) && Replayable(s, tape, [], Flatten(run.traces))
    requires multiset(back) == multiset(rows)
    ensures var recorded := RecordsIn(rows);
      CheckPasses(s, tape, plan, n, back) <==>
        back == rows && forall k :: 0 <= k < |recorded| ==> OutcomeAt(s, recorded[..k], recorded[k]) == recorded[k].outcome
  {
    hide Session, Replay, AllDiffs, OutcomeAt, Replayable, Keyed, Numbered, SameShape;
    var recorded, stored := RecordsIn(rows), RecordsIn(back);
    SessionIsKeyed(s, live, plan, n, st);
    EachForgetsOrder(RecordOfRow, back, rows);
    RecordThenReplay(s, live, st, plan, n, tape, stored);
    var replayed := Flatten(Replay(s, tape, plan, n, stored).traces);
    hide Flatten, DistinctPrompts;
    ReproducedDiffs(s, recorded, replayed);
    if AllDiffs(stored, replayed) == [] {
      NoDiffMeansSameTrace(stored, replayed);
      ReproducedKeys(s, recorded, replayed);
      assert forall k :: 0 <= k < |rows| ==> SameReplay(stored[k], replayed[k]) && SameKey(recorded[k], replayed[k]);
      SameRecordsSameRows(rows, back);
    }
  }

  lemma ReproducedKeys(s: Settings, recorded: seq<CallRecord>, replayed: seq<CallRecord>)
    requires RecordsReproduced(s, [], recorded, replayed)
    ensures |replayed| == |recorded| && forall k :: 0 <= k < |recorded| ==> SameKey(recorded[k], replayed[k])
  {
    hide OutcomeAt;
    forall k | 0 <= k < |recorded| ensures SameKey(recorded[k], replayed[k]) {
      assert Reproduces(recorded[k], replayed[k], OutcomeAt(s, [] + recorded[..k], recorded[k]));
    }
  }

  /**
   * The check passes on the rows however the database returns them exactly when creation times are in
   * step with the jobs and every attempt comes back under its own outcome.
   */
  lemma EveryReadBackPassesExactlyWhen(s: Settings, live: Tape, st: Stage, plan: Plan, n: nat, tape: Tape, rows: seq<Row>)
    requires s.Valid() && s.codec.Lawful() && WithinDeadlines(s, tape)
    requires var run := Session(s, live, plan, n, [], st);
      DistinctPrompts(run.asked) && RecordsIn(rows) == Flatten(run.traces) && Replayable(s, tape, [], Flatten(run.traces))
    ensures var recorded := RecordsIn(rows);
      (forall back :: ReadsBack(rows, back) ==> CheckPasses(s, tape, plan, n, back)) <==>
        InStep(rows) && forall k :: 0 <= k < |recorded| ==> OutcomeAt(s, recorded[..k], recorded[k]) == recorded[k].outcome
  {
    hide Session, OutcomeAt, Replayable, Keyed, Numbered, CheckPasses, InStep;
    SessionIsKeyed(s, live, plan, n, st);
    ReadsBackAsEmittedExactlyWhen(rows);
    NotAfterIsTotal();
    SortPermutes(NotAfter, rows);
    SortSorts(NotAfter, rows);
    assert ReadsBack(rows, Sort(NotAfter, rows));
    forall back | ReadsBack(rows, back)
      ensures var recorded := RecordsIn(rows);
        CheckPasses(s, tape, plan, n, back) <==>
          back == rows && forall k :: 0 <= k < |recorded| ==> OutcomeAt(s, recorded[..k], recorded[k]) == recorded[k].outcome
    {
      CheckPassesExactlyWhen(s, live, st, plan, n, tape, rows, back);
    }
  }

  /**
   * With both clocks stopped, as the application wires them, and for sessions of any length: exactly
   * when creation times are in step with the jobs and nothing timed out with retries left.
   */
  lemma StoppedReadBackPassesExactlyWhen(s: Settings, live: Tape, plan: Plan, n: nat, world: World, tape: Tape,
                                         rows: seq<Row>)
    requires s.Valid() && s.codec.Lawful() && Stopped(live) && Stopped(tape)
    requires var run := Session(s, live, plan, n, [], Stage(map[], world));
      DistinctPrompts(run.asked) && RecordsIn(rows) == Flatten(run.traces)
    ensures var recorded := RecordsIn(rows);
      (forall back :: ReadsBack(rows, back) ==> CheckPasses(s, tape, plan, n, back)) <==>
        InStep(rows) && forall k :: 0 <= k < |recorded| ==> !TimedOutWithRetries(s, recorded[k])
  {
    hide Session, OutcomeAt, Replayable, CheckPasses, InStep, FaithfulAt, TimedOutWithRetries, NothingLost, ReadsBack;
    StoppedSessionLosesNothing(s, live, plan, n, world);
    var recorded := RecordsIn(rows);
    NothingLostIsReplayable(s, tape, recorded);
    StoppedIsWithinDeadlines(s, tape);
    EveryReadBackPassesExactlyWhen(s, live, Stage(map[], world), plan, n, tape, rows);
    forall k | 0 <= k < |recorded|
      ensures OutcomeAt(s, recorded[..k], recorded[k]) == recorded[k].outcome <==> !TimedOutWithRetries(s, recorded[k])
    {
      FaithfulAtMeans(s, recorded[..k], recorded[k]);
    }
  }

  // Creation times as text.

  /** A time on the full second is written without a fraction, and so sorts after all of its second. */
  lemma {:induction false} FullSecondSortsLast(second: string, fraction: string)
    ensures TextOrder.Leq(second + "." + fraction + "Z", second + "Z")
    ensures second + "." + fraction + "Z" != second + "Z"
  {
    var a, b := second + "." + fraction + "Z", second + "Z";
    if second == [] {
      assert a[0] == '.' && b[0] == 'Z';
    } else {
      FullSecondSortsLast(second[1..], fraction);
      assert a[1..] == second[1..] + "." + fraction + "Z" && b[1..] == second[1..] + "Z";
      assert a[0] == b[0];
    }
  }

  /** So a record of the full second followed by another of the same second is out of step. */
  lemma FullSecondIsOutOfStep(rows: seq<Row>, i: nat, j: nat, second: string, fraction: string)
    requires i < j < |rows|
    requires rows[i].createdAt == second + "Z" && rows[j].createdAt == second + "." + fraction + "Z"
    ensures !InStep(rows)
  {
    FullSecondSortsLast(second, fraction);
    if InStep(rows) {
      TextOrder.Antisymmetric(rows[i].createdAt, rows[j].createdAt);
    }
  }
}
