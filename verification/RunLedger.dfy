/** The tables a run and an event submission write. Rows are only ever appended. */
module Tables {
  import opened Common
  import TextOrder
  import opened Sorting

  datatype MacroEvent = MacroEvent(
    eventId: string,
    eventType: EventType,
    scheduledAt: string,
    consensus: real,
    actual: Option<real>)

  datatype EventRow = EventRow(event: MacroEvent, surprise: Option<real>, ingestedAt: int)

  /** What an ingestion adapter delivers; the snapshots and news are opaque documents here. */
  datatype Ingest = Ingest(snapshots: string, events: seq<MacroEvent>)

  datatype TriggerType = ScheduledRun | EventRun

  datatype RunRow = RunRow(runId: string, sequence: nat, trigger: TriggerType, degraded: bool)

  datatype InputRow = InputRow(runId: string, ingest: Ingest, ingestedAt: int)

  datatype OutputRow = OutputRow(runId: string, document: string, persistedAt: int)

  datatype CallRow = CallRow(runId: string, provider: string, outcome: string)

  datatype Entry =
    | RunStart(sequence: nat)
    | ReplayStart(sequence: nat)
    | RunFailure(error: string)
    | ProviderCall(provider: string, outcome: string)
    | DegradedRun
    | RunFinish(status: string, published: bool)
    | IdempotentNoop
    | EventAccepted(eventId: string)
    | EventDebounced(eventId: string, pending: nat)
    | EventFailed(eventId: string, eventIds: seq<string>, error: string)
    | EventTriggered(primary: string, eventIds: seq<string>, status: string)

  datatype LogRow = LogRow(entry: Entry, runId: Option<string>, createdAt: int)

  datatype Db = Db(
    runs: seq<RunRow>,
    inputs: seq<InputRow>,
    outputs: seq<OutputRow>,
    calls: seq<CallRow>,
    log: seq<LogRow>,
    events: seq<EventRow>)

  const EMPTY := Db([], [], [], [], [], [])

  predicate RunExists(db: Db, runId: string) {
    exists i :: 0 <= i < |db.runs| && db.runs[i].runId == runId
  }

  /** The largest sequence number stored, 0 when there is none. */
  function MaxSequence(runs: seq<RunRow>): nat {
    if runs == [] then 0
    else
      var before := MaxSequence(runs[..|runs| - 1]);
      var last := runs[|runs| - 1].sequence;
      if before < last then last else before
  }

  function NextSequence(db: Db): nat { MaxSequence(db.runs) + 1 }

  // Macro events.

  function FindEvent(rows: seq<EventRow>, eventId: string): Option<EventRow> {
    if rows == [] then None
    else if rows[0].event.eventId == eventId then Some(rows[0])
    else FindEvent(rows[1..], eventId)
  }

  predicate ByTime(a: EventRow, b: EventRow) {
    if a.event.scheduledAt == b.event.scheduledAt then TextOrder.Leq(a.event.eventId, b.event.eventId)
    else TextOrder.Leq(a.event.scheduledAt, b.event.scheduledAt)
  }

  lemma ByTimeIsTotal()
    ensures TotalPreorder(ByTime)
  {
    forall a, b ensures ByTime(a, b) || ByTime(b, a) {
      TextOrder.Total(a.event.eventId, b.event.eventId);
      TextOrder.Total(a.event.scheduledAt, b.event.scheduledAt);
    }
    forall a, b, c | ByTime(a, b) && ByTime(b, c) ensures ByTime(a, c) {
      TextOrder.Total(b.event.scheduledAt, b.event.scheduledAt);
      TextOrder.Transitive(a.event.scheduledAt, b.event.scheduledAt, c.event.scheduledAt);
      if a.event.scheduledAt == c.event.scheduledAt && a.event.scheduledAt != b.event.scheduledAt {
        TextOrder.Antisymmetric(a.event.scheduledAt, b.event.scheduledAt);
      }
      if a.event.scheduledAt == b.event.scheduledAt == c.event.scheduledAt {
        TextOrder.Transitive(a.event.eventId, b.event.eventId, c.event.eventId);
      }
    }
  }

  function ListEvents(db: Db): seq<EventRow> { Sort(ByTime, db.events) }

  // The event log.

  /** Ids of one log row's triggered batch; empty for every other kind of row. */
  function BatchOf(row: LogRow): seq<string> {
    if row.entry.EventTriggered? then row.entry.eventIds else []
  }

  /** All event ids of all triggered batches, oldest first. */
  function TriggeredIds(log: seq<LogRow>): seq<string> {
    if log == [] then [] else TriggeredIds(log[..|log| - 1]) + BatchOf(log[|log| - 1])
  }

  function LastTriggeredAt(log: seq<LogRow>): Option<int> {
    if log == [] then None
    else if log[|log| - 1].entry.EventTriggered? then Some(log[|log| - 1].createdAt)
    else LastTriggeredAt(log[..|log| - 1])
  }

  lemma TriggeredSnoc(log: seq<LogRow>, row: LogRow)
    ensures TriggeredIds(log + [row]) == TriggeredIds(log) + BatchOf(row)
    ensures LastTriggeredAt(log + [row])
         == if row.entry.EventTriggered? then Some(row.createdAt) else LastTriggeredAt(log)
  {
    assert (log + [row])[..|log|] == log;
  }

  lemma {:induction false} NothingTriggered(log: seq<LogRow>, more: seq<LogRow>)
    requires forall i :: 0 <= i < |more| ==> !more[i].entry.EventTriggered?
    ensures TriggeredIds(log + more) == TriggeredIds(log)
    ensures LastTriggeredAt(log + more) == LastTriggeredAt(log)
  {
    if more == [] {
      assert log + more == log;
    } else {
      NothingTriggered(log, more[..|more| - 1]);
      TriggeredSnoc(log + more[..|more| - 1], more[|more| - 1]);
      assert log + more == log + more[..|more| - 1] + [more[|more| - 1]];
    }
  }

  /** Number of rows of the given run whose entry satisfies `kind`. */
  function CountRows(log: seq<LogRow>, runId: string, kind: Entry -> bool): nat {
    if log == [] then 0
    else
      CountRows(log[..|log| - 1], runId, kind)
      + if log[|log| - 1].runId == Some(runId) && kind(log[|log| - 1].entry) then 1 else 0
  }

  lemma {:induction false} CountConcat(a: seq<LogRow>, b: seq<LogRow>, runId: string, kind: Entry -> bool)
    ensures CountRows(a + b, runId, kind) == CountRows(a, runId, kind) + CountRows(b, runId, kind)
  {
    if b == [] {
      assert a + b == a;
    } else {
      CountConcat(a, b[..|b| - 1], runId, kind);
      assert (a + b)[..|a + b| - 1] == a + b[..|b| - 1];
    }
  }

  lemma {:induction false} CountNone(log: seq<LogRow>, runId: string, kind: Entry -> bool)
    requires forall i :: 0 <= i < |log| ==> log[i].runId != Some(runId) || !kind(log[i].entry)
    ensures CountRows(log, runId, kind) == 0
  {
    if log != [] {
      CountNone(log[..|log| - 1], runId, kind);
    }
  }
}

/**
 * One run end to end: identity and overlap refusal by the scheduler, then all of the run's rows in
 * one database session, committed together or not at all.
 */
module RunLedger {
  import opened Common
  import opened MonotonicClock
  import opened Tables

  /** How the work of a run turns out: ingestion or the pipeline raises, or the pipeline completes. */
  datatype Work =
    | IngestRaises(error: string)
    | PipelineRaises(ingest: Ingest, error: string)
    | Completes(ingest: Ingest, document: string, degraded: bool, published: bool, calls: seq<CallRow>)

  datatype Context = Context(runId: string, sequence: nat, trigger: TriggerType)

  datatype RunResult =
    | Overlap
    | Raised(error: string)
    | Summary(runId: string, status: string, degraded: bool, published: bool, noop: bool)

  /** The database together with the position of the shared clock. */
  datatype Site = Site(db: Db, ticks: nat)

  function StatusOf(degraded: bool): string { if degraded then "degraded" else "published" }

  function CallEntries(runId: string, calls: seq<CallRow>, tape: Tape, ticks: nat): seq<LogRow> {
    if calls == [] then []
    else
      var last := calls[|calls| - 1];
      CallEntries(runId, calls[..|calls| - 1], tape, ticks)
      + [LogRow(ProviderCall(last.provider, last.outcome), Some(runId), tape(ticks + |calls| - 1))]
  }

  function StartRow(replay: bool, ctx: Context, at: int): LogRow {
    LogRow(if replay then ReplayStart(ctx.sequence) else RunStart(ctx.sequence), Some(ctx.runId), at)
  }

  /** The log rows of a completed run, in order, with the first one at clock position `ticks`. */
  function RunRows(replay: bool, ctx: Context, work: Work, tape: Tape, ticks: nat): seq<LogRow>
    requires work.Completes?
  {
    var afterCalls := ticks + 1 + |work.calls|;
    var degraded := if work.degraded then [LogRow(DegradedRun, Some(ctx.runId), tape(afterCalls))] else [];
    [StartRow(replay, ctx, tape(ticks))]
    + CallEntries(ctx.runId, work.calls, tape, ticks + 1)
    + degraded
    + [LogRow(RunFinish(StatusOf(work.degraded), work.published), Some(ctx.runId), tape(afterCalls + |degraded|))]
  }

  /** Execute one run: a no-op for a known id, nothing at all when the work raises, else every row. */
  function ExecuteRun(replay: bool, ctx: Context, ingest: Ingest, work: Work, tape: Tape, site: Site): (Site, RunResult)
    requires !work.IngestRaises?
  {
    var db, t := site.db, site.ticks;
    if RunExists(db, ctx.runId) then
      (Site(db.(log := db.log + [LogRow(IdempotentNoop, Some(ctx.runId), tape(t + 1))]), t + 2),
       Summary(ctx.runId, "exists", false, true, true))
    else
      match work
      case PipelineRaises(_, error) => (Site(db, t + 3), Raised(error))
      case Completes(_, document, degraded, published, calls) =>
        var rows := RunRows(replay, ctx, work, tape, t + 1);
        (Site(db.(
           runs := db.runs + [RunRow(ctx.runId, ctx.sequence, ctx.trigger, degraded)],
           inputs := db.inputs + [InputRow(ctx.runId, ingest, tape(t))],
           outputs := db.outputs + [OutputRow(ctx.runId, document, tape(t))],
           calls := db.calls + calls,
           log := db.log + rows),
         t + 1 + |rows|),
         Summary(ctx.runId, StatusOf(degraded), degraded, published, false))
  }

  /** Trigger a run; given events replace the ingested ones. */
  function TriggerRun(replay: bool, busy: bool, runId: string, trigger: TriggerType, events: Option<seq<MacroEvent>>,
                   work: Work, tape: Tape, site: Site): (Site, RunResult)
  {
    if busy then (site, Overlap)
    else
      var ctx := Context(runId, NextSequence(site.db), trigger);
      var started := site.(ticks := site.ticks + 1);
      if work.IngestRaises? then (started, Raised(work.error))
      else
        var ingest := if events.Some? then work.ingest.(events := events.value) else work.ingest;
        ExecuteRun(replay, ctx, ingest, work, tape, started)
  }

  // The stateful services.

  class Database {
    var tables: Db

    constructor ()
      ensures tables == EMPTY
    {
      tables := EMPTY;
    }
  }

  class RunService {
    const database: Database
    const clock: Clock
    const replay: bool
    var sink: seq<CallRow>

    constructor (database: Database, clock: Clock, replay: bool)
      ensures this.database == database && this.clock == clock && this.replay == replay
    {
      this.database, this.clock, this.replay := database, clock, replay;
      sink := [];
    }

    method Execute(ctx: Context, ingest: Ingest, work: Work) returns (r: RunResult)
      requires !work.IngestRaises?
      modifies this, database, clock
      ensures (Site(database.tables, clock.ticks), r)
           == old(ExecuteRun(replay, ctx, ingest, work, clock.tape, Site(database.tables, clock.ticks)))
    {
      hide RunExists, RunRows;
      var now := clock.Now();
      sink := [];
      // The session works on a draft: leaving without the final assignment is the rollback.
      var draft := database.tables;
      if RunExists(draft, ctx.runId) {
        var t := clock.Now();
        draft := draft.(log := draft.log + [LogRow(IdempotentNoop, Some(ctx.runId), t)]);
        database.tables := draft;
        return Summary(ctx.runId, "exists", false, true, true);
      }
      var began := clock.Now();
      draft := draft.(log := draft.log + [StartRow(replay, ctx, began)]);
      if work.PipelineRaises? {
        var failed := clock.Now();
        draft := draft.(log := draft.log + [LogRow(RunFailure(work.error), Some(ctx.runId), failed)]);
        return Raised(work.error);
      }
      draft := draft.(runs := draft.runs + [RunRow(ctx.runId, ctx.sequence, ctx.trigger, work.degraded)]);
      draft := draft.(inputs := draft.inputs + [InputRow(ctx.runId, ingest, now)]);
      draft := draft.(outputs := draft.outputs + [OutputRow(ctx.runId, work.document, now)]);
      sink := work.calls;
      var rows := LogOutcome(ctx, work, began);
      draft := draft.(log := database.tables.log + rows, calls := draft.calls + sink);
      database.tables := draft;
      r := Summary(ctx.runId, StatusOf(work.degraded), work.degraded, work.published, false);
    }

    /** The log rows that follow the start row, stamped as they are written. */
    method LogOutcome(ctx: Context, work: Work, began: int) returns (rows: seq<LogRow>)
      requires work.Completes? && sink == work.calls && clock.ticks > 0 && began == clock.tape(clock.ticks - 1)
      modifies clock
      ensures rows == RunRows(replay, ctx, work, clock.tape, old(clock.ticks) - 1)
      ensures clock.ticks == old(clock.ticks) - 1 + |rows|
    {
      var calls := LogCalls(ctx.runId);
      rows := [StartRow(replay, ctx, began)] + calls;
      var degraded: seq<LogRow> := [];
      if work.degraded {
        var t := clock.Now();
        degraded := [LogRow(DegradedRun, Some(ctx.runId), t)];
      }
      rows := rows + degraded;
      var ended := clock.Now();
      rows := rows + [LogRow(RunFinish(StatusOf(work.degraded), work.published), Some(ctx.runId), ended)];
    }

    method LogCalls(runId: string) returns (rows: seq<LogRow>)
      modifies clock
      ensures rows == CallEntries(runId, sink, clock.tape, old(clock.ticks)) && |rows| == |sink|
      ensures clock.ticks == old(clock.ticks) + |sink|
    {
      rows := [];
      for i := 0 to |sink|
        invariant clock.ticks == old(clock.ticks) + i && |rows| == i
        invariant rows == CallEntries(runId, sink[..i], clock.tape, old(clock.ticks))
      {
        var t := clock.Now();
        rows := rows + [LogRow(ProviderCall(sink[i].provider, sink[i].outcome), Some(runId), t)];
        assert sink[..i + 1][..i] == sink[..i];
      }
      assert sink[..|sink|] == sink;
    }
  }

  class Scheduler {
    const service: RunService
    const clock: Clock
    /** Held by a run in flight; a second trigger is refused, never queued. */
    var busy: bool

    constructor (service: RunService, clock: Clock)
      ensures this.service == service && this.clock == clock && !busy
    {
      this.service, this.clock := service, clock;
      busy := false;
    }

    method Trigger(runId: string, trigger: TriggerType, events: Option<seq<MacroEvent>>,
                   work: Work) returns (r: RunResult)
      requires service.clock == clock
      modifies this, service, service.database, clock
      ensures busy == old(busy)
      ensures (Site(service.database.tables, clock.ticks), r)
           == old(TriggerRun(service.replay, busy, runId, trigger, events, work, clock.tape,
                                    Site(service.database.tables, clock.ticks)))
    {
      if busy {
        return Overlap;
      }
      busy := true;
      var ctx := Context(runId, NextSequence(service.database.tables), trigger);
      var now := clock.Now();
      if work.IngestRaises? {
        busy := false;
        return Raised(work.error);
      }
      var ingest := if events.Some? then work.ingest.(events := events.value) else work.ingest;
      r := service.Execute(ctx, ingest, work);
      busy := false;
    }
  }

  // What the ledger keeps.

  predicate IsStart(e: Entry) { e.RunStart? || e.ReplayStart? }

  predicate IsFinish(e: Entry) { e.RunFinish? }

  /**
   * The n-th committed run has sequence n; run ids are unique; every run has its one input row and
   * one output row, in the same position; and the log holds one start and one finish row for every
   * run and none for any other id.
   */
  ghost predicate Ledger(db: Db) {
    && |db.inputs| == |db.outputs| == |db.runs|
    && (forall i :: 0 <= i < |db.runs| ==> db.runs[i].sequence == i + 1)
    && (forall i, j :: 0 <= i < j < |db.runs| ==> db.runs[i].runId != db.runs[j].runId)
    && (forall i :: 0 <= i < |db.runs| ==> db.inputs[i].runId == db.runs[i].runId && db.outputs[i].runId == db.runs[i].runId)
    && (forall id :: CountRows(db.log, id, IsStart) == if RunExists(db, id) then 1 else 0)
    && (forall id :: CountRows(db.log, id, IsFinish) == if RunExists(db, id) then 1 else 0)
  }

  lemma {:induction false} SequencesCountUp(runs: seq<RunRow>)
    requires forall i :: 0 <= i < |runs| ==> runs[i].sequence == i + 1
    ensures MaxSequence(runs) == |runs|
  {
    if runs != [] {
      SequencesCountUp(runs[..|runs| - 1]);
    }
  }

  /** Log rows that are no run's start or finish leave the ledger intact. */
  lemma LedgerIgnores(db: Db, rows: seq<LogRow>)
    requires Ledger(db)
    requires forall i :: 0 <= i < |rows| ==> !IsStart(rows[i].entry) && !IsFinish(rows[i].entry)
    ensures Ledger(db.(log := db.log + rows))
  {
    var db' := db.(log := db.log + rows);
    forall id
      ensures CountRows(db'.log, id, IsStart) == CountRows(db.log, id, IsStart)
      ensures CountRows(db'.log, id, IsFinish) == CountRows(db.log, id, IsFinish)
    {
      CountConcat(db.log, rows, id, IsStart);
      CountConcat(db.log, rows, id, IsFinish);
      CountNone(rows, id, IsStart);
      CountNone(rows, id, IsFinish);
    }
    assert forall id :: RunExists(db', id) == RunExists(db, id);
  }

  lemma {:induction false} CallEntriesAreCalls(runId: string, calls: seq<CallRow>, tape: Tape, ticks: nat)
    ensures |CallEntries(runId, calls, tape, ticks)| == |calls|
    ensures forall i :: 0 <= i < |calls| ==>
      CallEntries(runId, calls, tape, ticks)[i].entry.ProviderCall? && CallEntries(runId, calls, tape, ticks)[i].runId == Some(runId)
  {
    if calls != [] {
      CallEntriesAreCalls(runId, calls[..|calls| - 1], tape, ticks);
    }
  }

  /** A completed run logs exactly one start and one finish row, both under its own id. */
  lemma RunRowsCount(replay: bool, ctx: Context, work: Work, tape: Tape, ticks: nat, id: string)
    requires work.Completes?
    ensures CountRows(RunRows(replay, ctx, work, tape, ticks), id, IsStart) == if id == ctx.runId then 1 else 0
    ensures CountRows(RunRows(replay, ctx, work, tape, ticks), id, IsFinish) == if id == ctx.runId then 1 else 0
    ensures forall i :: 0 <= i < |RunRows(replay, ctx, work, tape, ticks)| ==>
      !RunRows(replay, ctx, work, tape, ticks)[i].entry.EventTriggered?
  {
    hide CountRows, CallEntries;
    var afterCalls := ticks + 1 + |work.calls|;
    var calls := CallEntries(ctx.runId, work.calls, tape, ticks + 1);
    var degraded := if work.degraded then [LogRow(DegradedRun, Some(ctx.runId), tape(afterCalls))] else [];
    var finish := LogRow(RunFinish(StatusOf(work.degraded), work.published), Some(ctx.runId), tape(afterCalls + |degraded|));
    CallEntriesAreCalls(ctx.runId, work.calls, tape, ticks + 1);
    CountRun(ctx.runId, StartRow(replay, ctx, tape(ticks)), calls, degraded, finish, id);
  }

  lemma CountRun(runId: string, start: LogRow, calls: seq<LogRow>, degraded: seq<LogRow>, finish: LogRow, id: string)
    requires start.runId == finish.runId == Some(runId) && IsStart(start.entry) && IsFinish(finish.entry)
    requires forall i :: 0 <= i < |calls| ==> calls[i].entry.ProviderCall?
    requires forall i :: 0 <= i < |degraded| ==> degraded[i].entry.DegradedRun?
    ensures CountRows([start] + calls + degraded + [finish], id, IsStart) == if id == runId then 1 else 0
    ensures CountRows([start] + calls + degraded + [finish], id, IsFinish) == if id == runId then 1 else 0
  {
    CountParts([start], calls, degraded, [finish], id, IsStart);
    CountParts([start], calls, degraded, [finish], id, IsFinish);
    CountOne(start, id, IsStart);
    CountOne(start, id, IsFinish);
    CountOne(finish, id, IsStart);
    CountOne(finish, id, IsFinish);
    CountNone(calls, id, IsStart);
    CountNone(calls, id, IsFinish);
    CountNone(degraded, id, IsStart);
    CountNone(degraded, id, IsFinish);
  }

  lemma CountOne(row: LogRow, id: string, kind: Entry -> bool)
    ensures CountRows([row], id, kind) == if row.runId == Some(id) && kind(row.entry) then 1 else 0
  {
    assert [row][..0] == [];
  }

  lemma CountParts(a: seq<LogRow>, b: seq<LogRow>, c: seq<LogRow>, d: seq<LogRow>, id: string, kind: Entry -> bool)
    ensures CountRows(a + b + c + d, id, kind)
         == CountRows(a, id, kind) + CountRows(b, id, kind) + CountRows(c, id, kind) + CountRows(d, id, kind)
  {
    CountConcat(a + b + c, d, id, kind);
    CountConcat(a + b, c, id, kind);
    CountConcat(a, b, id, kind);
  }

  /** Every trigger keeps the ledger, however the run turns out. */
  lemma TriggerKeepsLedger(replay: bool, busy: bool, runId: string, trigger: TriggerType,
                           events: Option<seq<MacroEvent>>,
                           work: Work, tape: Tape, site: Site)
    requires Ledger(site.db)
    ensures Ledger(TriggerRun(replay, busy, runId, trigger, events, work, tape, site).0.db)
  {
    if !busy && !work.IngestRaises? {
      var ctx := Context(runId, NextSequence(site.db), trigger);
      var ingest := if events.Some? then work.ingest.(events := events.value) else work.ingest;
      if RunExists(site.db, runId) {
        LedgerIgnores(site.db, [LogRow(IdempotentNoop, Some(runId), tape(site.ticks + 2))]);
      } else if work.Completes? {
        CommittedRunKeepsLedger(replay, ctx, ingest, work, tape, site.(ticks := site.ticks + 1));
      }
    }
  }

  lemma CommittedRunKeepsLedger(replay: bool, ctx: Context, ingest: Ingest, work: Work, tape: Tape, site: Site)
    requires Ledger(site.db) && !RunExists(site.db, ctx.runId) && work.Completes? && ctx.sequence == NextSequence(site.db)
    ensures Ledger(ExecuteRun(replay, ctx, ingest, work, tape, site).0.db)
  {
    var rows := RunRows(replay, ctx, work, tape, site.ticks + 1);
    SequencesCountUp(site.db.runs);
    forall id
      ensures CountRows(rows, id, IsStart) == if id == ctx.runId then 1 else 0
      ensures CountRows(rows, id, IsFinish) == if id == ctx.runId then 1 else 0
    {
      RunRowsCount(replay, ctx, work, tape, site.ticks + 1, id);
    }
    var now := tape(site.ticks);
    CommitKeepsLedger(site.db, ExecuteRun(replay, ctx, ingest, work, tape, site).0.db,
                      RunRow(ctx.runId, ctx.sequence, ctx.trigger, work.degraded),
                      InputRow(ctx.runId, ingest, now), OutputRow(ctx.runId, work.document, now), rows);
  }

  lemma CommitKeepsLedger(db: Db, db': Db, run: RunRow, input: InputRow, output: OutputRow, rows: seq<LogRow>)
    requires Ledger(db) && !RunExists(db, run.runId)
    requires run.sequence == |db.runs| + 1 && input.runId == output.runId == run.runId
    requires db'.runs == db.runs + [run] && db'.inputs == db.inputs + [input] && db'.outputs == db.outputs + [output]
    requires db'.log == db.log + rows
    requires forall id :: CountRows(rows, id, IsStart) == if id == run.runId then 1 else 0
    requires forall id :: CountRows(rows, id, IsFinish) == if id == run.runId then 1 else 0
    ensures Ledger(db')
  {
    forall id
      ensures RunExists(db', id) <==> RunExists(db, id) || id == run.runId
    {
      if RunExists(db, id) {
        var i :| 0 <= i < |db.runs| && db.runs[i].runId == id;
        assert db'.runs[i].runId == id;
      }
      assert db'.runs[|db.runs|].runId == run.runId;
    }
    forall id
      ensures CountRows(db'.log, id, IsStart) == if RunExists(db', id) then 1 else 0
      ensures CountRows(db'.log, id, IsFinish) == if RunExists(db', id) then 1 else 0
    {
      CountConcat(db.log, rows, id, IsStart);
      CountConcat(db.log, rows, id, IsFinish);
    }
  }

  /**
   * A run that is refused or raises leaves the database as it was, and says so; re-running a stored
   * id adds a single no-op row and nothing else.
   */
  lemma OnlyCommittedRunsLeaveRows(replay: bool, busy: bool, runId: string, trigger: TriggerType,
                                   events: Option<seq<MacroEvent>>,
                                   work: Work, tape: Tape, site: Site)
    ensures var (site', r) := TriggerRun(replay, busy, runId, trigger, events, work, tape, site);
      && (r.Summary? && !r.noop <==> |site'.db.runs| == |site.db.runs| + 1)
      && (!r.Summary? <==> site'.db == site.db)
      && (r.Summary? && r.noop ==>
            && RunExists(site.db, runId)
            && |site'.db.log| == |site.db.log| + 1
            && site'.db == site.db.(log := site'.db.log)
            && site.db.log <= site'.db.log)
  {
    var (site', r) := TriggerRun(replay, busy, runId, trigger, events, work, tape, site);
    if r.Summary? && !r.noop {
      assert |site'.db.runs| == |site.db.runs| + 1;
    } else if r.Summary? {
      assert |site'.db.log| == |site.db.log| + 1;
    }
  }
}
