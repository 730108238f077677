/**
 * Debounce of macro events over the database alone: what is pending and how long the cool-down
 * lasts are recomputed from the stored events and the triggered rows on every submission.
 */
module EventTriggers {
  import opened Common
  import opened MonotonicClock
  import opened Tables
  import opened RunLedger
  import opened Sorting
  import TextOrder

  datatype TriggerResult = TriggerResult(
    eventId: string,
    accepted: bool,
    surprise: Option<real>,
    debounced: bool,
    runId: Option<string>,
    runStatus: Option<string>)

  function Surprise(event: MacroEvent): Option<real> {
    if event.actual.Some? then Some(event.actual.value - event.consensus) else None
  }

  /** Stored complete events that no triggered batch names, in chronological order. */
  function KeepPending(rows: seq<EventRow>, triggered: seq<string>): seq<MacroEvent> {
    if rows == [] then []
    else
      (if rows[0].event.actual.Some? && rows[0].event.eventId !in triggered then [rows[0].event] else [])
      + KeepPending(rows[1..], triggered)
  }

  function Pending(db: Db): seq<MacroEvent> { KeepPending(ListEvents(db), TriggeredIds(db.log)) }

  function Ids(events: seq<MacroEvent>): (ids: seq<string>)
    ensures |ids| == |events|
  {
    if events == [] then [] else [events[0].eventId] + Ids(events[1..])
  }

  function Logged(db: Db, entry: Entry, runId: Option<string>, at: int): Db {
    db.(log := db.log + [LogRow(entry, runId, at)])
  }

  /** Store a new event and record that it was accepted. */
  function Accept(db: Db, event: MacroEvent, now: int, at: int): Db {
    Logged(db.(events := db.events + [EventRow(event, Surprise(event), now)]), EventAccepted(event.eventId), None, at)
  }

  /** Run the whole pending batch, and record how that went. */
  function RunBatch(submitted: MacroEvent, busy: bool, replay: bool, runId: string, work: Work, tape: Tape, site: Site)
    : (Site, TriggerResult)
  {
    var pending := Pending(site.db);
    if pending == [] then (site, TriggerResult(submitted.eventId, true, None, false, None, None))
    else
      var (ran, r) := TriggerRun(replay, busy, runId, EventRun, Some(pending), work, tape, site);
      var at := tape(ran.ticks);
      var done := ran.ticks + 1;
      match r
      case Overlap =>
        (Site(Logged(ran.db, EventDebounced(submitted.eventId, |pending|), None, at), done),
         TriggerResult(submitted.eventId, true, None, true, None, None))
      case Raised(error) =>
        (Site(Logged(ran.db, EventFailed(submitted.eventId, Ids(pending), error), None, at), done),
         TriggerResult(submitted.eventId, true, Surprise(submitted), false, None, Some("failed")))
      case Summary(id, status, _, _, _) =>
        (Site(Logged(ran.db, EventTriggered(pending[0].eventId, Ids(pending), status), Some(id), at), done),
         TriggerResult(submitted.eventId, true, Surprise(submitted), false, Some(id), Some(status)))
  }

  predicate InCoolDown(db: Db, now: int, cooldown: nat) {
    LastTriggeredAt(db.log).Some? && now < LastTriggeredAt(db.log).value + cooldown
  }

  function SubmitEvent(cooldown: nat, event: MacroEvent, busy: bool, replay: bool, runId: string, work: Work,
                       tape: Tape, site: Site)
    : (Site, TriggerResult)
  {
    var now := tape(site.ticks);
    var stored := FindEvent(site.db.events, event.eventId);
    if stored.Some? then
      (site.(ticks := site.ticks + 1),
       TriggerResult(event.eventId, true, stored.value.surprise, false, None, None))
    else
      var accepted := Site(Accept(site.db, event, now, tape(site.ticks + 1)), site.ticks + 2);
      if event.actual.None? then (accepted, TriggerResult(event.eventId, true, None, false, None, None))
      else if InCoolDown(accepted.db, now, cooldown) then
        (Site(Logged(accepted.db, EventDebounced(event.eventId, |Pending(accepted.db)|), None, tape(accepted.ticks)), accepted.ticks + 1),
         TriggerResult(event.eventId, true, Surprise(event), true, None, None))
      else RunBatch(event, busy, replay, runId, work, tape, accepted)
  }

  class EventTrigger {
    const database: Database
    const scheduler: Scheduler
    const clock: Clock
    const cooldown: nat

    constructor (database: Database, scheduler: Scheduler, clock: Clock, cooldownMinutes: nat)
      ensures this.database == database && this.scheduler == scheduler && this.clock == clock
      ensures cooldown == 60000 * cooldownMinutes
    {
      this.database, this.scheduler, this.clock := database, scheduler, clock;
      cooldown := 60000 * cooldownMinutes;
    }

    ghost predicate Wired()
      reads this, scheduler, scheduler.service
    {
      && scheduler.clock == clock && scheduler.service.clock == clock
      && scheduler.service.database == database
    }

    method Record(entry: Entry, runId: Option<string>)
      modifies database, clock
      ensures database.tables == old(Logged(database.tables, entry, runId, clock.tape(clock.ticks)))
      ensures clock.ticks == old(clock.ticks) + 1
    {
      var t := clock.Now();
      database.tables := Logged(database.tables, entry, runId, t);
    }

    method AddIfAbsent(event: MacroEvent, now: int) returns (row: EventRow, created: bool)
      modifies database
      ensures created <==> FindEvent(old(database.tables).events, event.eventId).None?
      ensures !created ==> database.tables == old(database.tables) && Some(row) == FindEvent(old(database.tables).events, event.eventId)
      ensures created ==>
        && row == EventRow(event, Surprise(event), now)
        && database.tables == old(database.tables).(events := old(database.tables).events + [row])
    {
      var existing := FindEvent(database.tables.events, event.eventId);
      if existing.Some? {
        return existing.value, false;
      }
      row := EventRow(event, Surprise(event), now);
      database.tables := database.tables.(events := database.tables.events + [row]);
      created := true;
    }

    method Submit(event: MacroEvent, runId: string, work: Work) returns (r: TriggerResult)
      requires Wired()
      modifies database, clock, scheduler, scheduler.service
      ensures Wired() && scheduler.busy == old(scheduler.busy)
      ensures (Site(database.tables, clock.ticks), r)
           == old(SubmitEvent(cooldown, event, scheduler.busy, scheduler.service.replay, runId, work, clock.tape,
                              Site(database.tables, clock.ticks)))
    {
      hide RunBatch, Pending, Surprise, LastTriggeredAt, FindEvent;
      var now := clock.Now();
      var row, created := AddIfAbsent(event, now);
      if !created {
        return TriggerResult(event.eventId, true, row.surprise, false, None, None);
      }
      Record(EventAccepted(event.eventId), None);
      if event.actual.None? {
        return TriggerResult(event.eventId, true, None, false, None, None);
      }
      var pending := Pending(database.tables);
      var last := LastTriggeredAt(database.tables.log);
      if last.Some? && now < last.value + cooldown {
        Record(EventDebounced(event.eventId, |pending|), None);
        return TriggerResult(event.eventId, true, Surprise(event), true, None, None);
      }
      r := ExecutePending(event, pending, runId, work);
    }

    method ExecutePending(submitted: MacroEvent, pending: seq<MacroEvent>, runId: string,
                          work: Work) returns (r: TriggerResult)
      requires Wired() && pending == Pending(database.tables)
      modifies database, clock, scheduler, scheduler.service
      ensures Wired() && scheduler.busy == old(scheduler.busy)
      ensures (Site(database.tables, clock.ticks), r)
           == old(RunBatch(submitted, scheduler.busy, scheduler.service.replay, runId, work, clock.tape,
                           Site(database.tables, clock.ticks)))
    {
      hide TriggerRun, Pending, Surprise;
      if pending == [] {
        return TriggerResult(submitted.eventId, true, None, false, None, None);
      }
      var ran := scheduler.Trigger(runId, EventRun, Some(pending), work);
      match ran {
        case Overlap =>
          Record(EventDebounced(submitted.eventId, |pending|), None);
          r := TriggerResult(submitted.eventId, true, None, true, None, None);
        case Raised(error) =>
          Record(EventFailed(submitted.eventId, Ids(pending), error), None);
          r := TriggerResult(submitted.eventId, true, Surprise(submitted), false, None, Some("failed"));
        case Summary(id, status, _, _, _) =>
          Record(EventTriggered(pending[0].eventId, Ids(pending), status), Some(id));
          r := TriggerResult(submitted.eventId, true, Surprise(submitted), false, Some(id), Some(status));
      }
    }
  }
}

/**
 * Every history of submissions, scheduled runs, overlaps, failures and crashes.
 *
 * A crash stops a submission after any of its commits; restarting loses nothing, because nothing is
 * kept outside the database.
 */
module DebounceHistory {
  import opened Common
  import opened MonotonicClock
  import opened Tables
  import opened RunLedger
  import opened EventTriggers
  import opened Sorting
  import TextOrder

  datatype Step =
    | Submit(event: MacroEvent, busy: bool, runId: string, work: Work)
    | OtherRun(busy: bool, runId: string, trigger: TriggerType, work: Work)
    | CrashAfterInsert(event: MacroEvent)
    | CrashAfterAccept(event: MacroEvent)
    | CrashAfterRun(event: MacroEvent, busy: bool, runId: string, work: Work)

  function Inserted(event: MacroEvent, tape: Tape, site: Site): Site {
    if FindEvent(site.db.events, event.eventId).Some? then site.(ticks := site.ticks + 1)
    else Site(site.db.(events := site.db.events + [EventRow(event, Surprise(event), tape(site.ticks))]), site.ticks + 1)
  }

  function Accepted(event: MacroEvent, tape: Tape, site: Site): Site {
    if FindEvent(site.db.events, event.eventId).Some? then site.(ticks := site.ticks + 1)
    else Site(Accept(site.db, event, tape(site.ticks), tape(site.ticks + 1)), site.ticks + 2)
  }

  /** The run of a submission committed, but its triggered row was never written. */
  function RanUnmarked(cooldown: nat, event: MacroEvent, busy: bool, runId: string, work: Work, tape: Tape,
                       site: Site): Site {
    var accepted := Accepted(event, tape, site);
    if FindEvent(site.db.events, event.eventId).Some? || event.actual.None? || InCoolDown(accepted.db, tape(site.ticks), cooldown)
    then accepted
    else TriggerRun(false, busy, runId, EventRun, Some(Pending(accepted.db)), work, tape, accepted).0
  }

  function Take(cooldown: nat, step: Step, tape: Tape, site: Site): Site {
    match step
    case Submit(event, busy, runId, work) => SubmitEvent(cooldown, event, busy, false, runId, work, tape, site).0
    case OtherRun(busy, runId, trigger, work) => TriggerRun(false, busy, runId, trigger, None, work, tape, site).0
    case CrashAfterInsert(event) => Inserted(event, tape, site)
    case CrashAfterAccept(event) => Accepted(event, tape, site)
    case CrashAfterRun(event, busy, runId, work) => RanUnmarked(cooldown, event, busy, runId, work, tape, site)
  }

  function Run(cooldown: nat, steps: seq<Step>, tape: Tape): Site {
    if steps == [] then Site(EMPTY, 0)
    else Take(cooldown, steps[|steps| - 1], tape, Run(cooldown, steps[..|steps| - 1], tape))
  }

  // The invariant.

  ghost predicate UniqueEvents(rows: seq<EventRow>) {
    forall i, j :: 0 <= i < j < |rows| ==> rows[i].event.eventId != rows[j].event.eventId
  }

  ghost predicate NoRepeats(ids: seq<string>) {
    forall i, j :: 0 <= i < j < |ids| ==> ids[i] != ids[j]
  }

  predicate Complete(rows: seq<EventRow>, id: string) {
    exists i :: 0 <= i < |rows| && rows[i].event.eventId == id && rows[i].event.actual.Some?
  }

  /** Triggered rows are at least a cool-down apart, oldest to newest. */
  predicate Spaced(log: seq<LogRow>, cooldown: nat) {
    log == [] || (Spaced(log[..|log| - 1], cooldown) && FarFrom(log[..|log| - 1], log[|log| - 1], cooldown))
  }

  predicate FarFrom(log: seq<LogRow>, row: LogRow, cooldown: nat) {
    row.entry.EventTriggered? && LastTriggeredAt(log).Some? ==> row.createdAt >= LastTriggeredAt(log).value + cooldown
  }

  ghost predicate Debounced(db: Db, cooldown: nat) {
    && UniqueEvents(db.events)
    && NoRepeats(TriggeredIds(db.log))
    && (forall id :: id in TriggeredIds(db.log) ==> Complete(db.events, id))
    && Spaced(db.log, cooldown)
  }

  // The pending events.

  lemma {:induction false} FindEventFinds(rows: seq<EventRow>, id: string)
    ensures FindEvent(rows, id).None? <==> forall i :: 0 <= i < |rows| ==> rows[i].event.eventId != id
    ensures FindEvent(rows, id).Some? ==> FindEvent(rows, id).value in rows && FindEvent(rows, id).value.event.eventId == id
  {
    if rows != [] && rows[0].event.eventId != id {
      FindEventFinds(rows[1..], id);
    }
  }

  /** Being pending: stored, complete, and named by no triggered row. */
  lemma {:induction false} KeepPendingMembers(rows: seq<EventRow>, triggered: seq<string>, id: string)
    ensures id in Ids(KeepPending(rows, triggered)) <==> Complete(rows, id) && id !in triggered
  {
    if rows != [] {
      var rest := rows[1..];
      KeepPendingMembers(rest, triggered, id);
      CompleteCons(rows, id);
      var here := rows[0].event.actual.Some? && rows[0].event.eventId !in triggered;
      if here {
        assert KeepPending(rows, triggered) == [rows[0].event] + KeepPending(rest, triggered);
        IdsCons(rows[0].event, KeepPending(rest, triggered));
      } else {
        assert KeepPending(rows, triggered) == KeepPending(rest, triggered);
      }
    }
  }

  lemma CompleteCons(rows: seq<EventRow>, id: string)
    requires rows != []
    ensures Complete(rows, id) <==> (rows[0].event.eventId == id && rows[0].event.actual.Some?) || Complete(rows[1..], id)
  {
    if Complete(rows[1..], id) {
      var i :| 0 <= i < |rows[1..]| && rows[1..][i].event.eventId == id && rows[1..][i].event.actual.Some?;
      assert rows[i + 1].event.eventId == id;
    }
    if Complete(rows, id) {
      var i :| 0 <= i < |rows| && rows[i].event.eventId == id && rows[i].event.actual.Some?;
      assert i > 0 ==> rows[1..][i - 1].event.eventId == id;
    }
  }

  lemma IdsCons(event: MacroEvent, rest: seq<MacroEvent>)
    ensures Ids([event] + rest) == [event.eventId] + Ids(rest)
  {
    assert ([event] + rest)[1..] == rest;
  }

  lemma {:induction false} KeepPendingNoRepeats(rows: seq<EventRow>, triggered: seq<string>)
    requires UniqueEvents(rows)
    ensures NoRepeats(Ids(KeepPending(rows, triggered)))
  {
    if rows != [] {
      var rest := rows[1..];
      KeepPendingNoRepeats(rest, triggered);
      if rows[0].event.actual.Some? && rows[0].event.eventId !in triggered {
        IdsCons(rows[0].event, KeepPending(rest, triggered));
        KeepPendingMembers(rest, triggered, rows[0].event.eventId);
        assert !Complete(rest, rows[0].event.eventId);
      } else {
        assert KeepPending(rows, triggered) == KeepPending(rest, triggered);
      }
    }
  }

  predicate EarlierEvent(a: MacroEvent, b: MacroEvent) { ByTime(EventRow(a, None, 0), EventRow(b, None, 0)) }

  lemma {:induction false} KeepPendingSorted(rows: seq<EventRow>, triggered: seq<string>)
    requires Sorted(ByTime, rows)
    ensures Sorted(EarlierEvent, KeepPending(rows, triggered))
    ensures forall e :: e in KeepPending(rows, triggered) ==> exists i :: 0 <= i < |rows| && rows[i].event == e
  {
    if rows != [] {
      var rest := rows[1..];
      KeepPendingSorted(rest, triggered);
      forall e | e in KeepPending(rest, triggered)
        ensures EarlierEvent(rows[0].event, e)
        ensures exists i :: 0 <= i < |rows| && rows[i].event == e
      {
        var i :| 0 <= i < |rest| && rest[i].event == e;
        assert rows[i + 1].event == e && ByTime(rows[0], rows[i + 1]);
      }
    }
  }

  lemma UniqueUnderSort(rows: seq<EventRow>)
    requires UniqueEvents(rows)
    ensures UniqueEvents(Sort(ByTime, rows))
  {
    SortPermutes(ByTime, rows);
    DistinctUnderPermutation((row: EventRow) => row.event.eventId, rows, Sort(ByTime, rows));
  }

  lemma CompleteUnderSort(rows: seq<EventRow>, id: string)
    ensures Complete(Sort(ByTime, rows), id) <==> Complete(rows, id)
  {
    var sorted := Sort(ByTime, rows);
    SortPermutes(ByTime, rows);
    if Complete(sorted, id) {
      var i :| 0 <= i < |sorted| && sorted[i].event.eventId == id && sorted[i].event.actual.Some?;
      assert sorted[i] in multiset(rows);
    }
    if Complete(rows, id) {
      var i :| 0 <= i < |rows| && rows[i].event.eventId == id && rows[i].event.actual.Some?;
      assert rows[i] in multiset(sorted);
    }
  }

  /**
   * The complete events are exactly the triggered and the pending ones, and no event is both or
   * twice in either; the pending ones are in chronological order, ties by id.
   */
  ghost predicate Partition(db: Db) {
    var triggered, pending := TriggeredIds(db.log), Ids(Pending(db));
    && (forall id :: Complete(db.events, id) <==> id in triggered || id in pending)
    && (forall id :: !(id in triggered && id in pending))
    && NoRepeats(triggered) && NoRepeats(pending)
    && Sorted(EarlierEvent, Pending(db))
  }

  lemma DebouncedPartitions(db: Db, cooldown: nat)
    requires Debounced(db, cooldown)
    ensures Partition(db)
  {
    var rows, triggered := ListEvents(db), TriggeredIds(db.log);
    UniqueUnderSort(db.events);
    ByTimeIsTotal();
    SortSorts(ByTime, db.events);
    KeepPendingNoRepeats(rows, triggered);
    KeepPendingSorted(rows, triggered);
    forall id ensures id in Ids(Pending(db)) <==> Complete(db.events, id) && id !in triggered {
      KeepPendingMembers(rows, triggered, id);
      CompleteUnderSort(db.events, id);
    }
  }

  // Steps.

  lemma {:induction false} SpacedConcat(log: seq<LogRow>, more: seq<LogRow>, cooldown: nat)
    requires Spaced(log, cooldown) && forall i :: 0 <= i < |more| ==> !more[i].entry.EventTriggered?
    ensures Spaced(log + more, cooldown)
  {
    if more == [] {
      assert log + more == log;
    } else {
      SpacedConcat(log, more[..|more| - 1], cooldown);
      assert (log + more)[..|log + more| - 1] == log + more[..|more| - 1];
    }
  }

  /** Rows other than triggered ones change nothing that the debounce looks at. */
  lemma OtherRowsKeep(db: Db, db': Db, more: seq<LogRow>, cooldown: nat)
    requires Debounced(db, cooldown) && db'.events == db.events && db'.log == db.log + more
    requires forall i :: 0 <= i < |more| ==> !more[i].entry.EventTriggered?
    ensures Debounced(db', cooldown)
    ensures TriggeredIds(db'.log) == TriggeredIds(db.log) && LastTriggeredAt(db'.log) == LastTriggeredAt(db.log)
    ensures Pending(db') == Pending(db)
  {
    NothingTriggered(db.log, more);
    SpacedConcat(db.log, more, cooldown);
  }

  /** A run never touches the stored events and writes no triggered row. */
  lemma RunIsInvisible(busy: bool, runId: string, trigger: TriggerType, events: Option<seq<MacroEvent>>, work: Work,
                       tape: Tape, site: Site)
    returns (more: seq<LogRow>)
    ensures var site' := TriggerRun(false, busy, runId, trigger, events, work, tape, site).0;
      && site'.db.events == site.db.events && site'.db.log == site.db.log + more && site'.ticks >= site.ticks
    ensures forall i :: 0 <= i < |more| ==> !more[i].entry.EventTriggered?
  {
    var ctx := Context(runId, NextSequence(site.db), trigger);
    more := [];
    if !busy && !work.IngestRaises? {
      if RunExists(site.db, runId) {
        more := [LogRow(IdempotentNoop, Some(runId), tape(site.ticks + 2))];
      } else if work.Completes? {
        more := RunRows(false, ctx, work, tape, site.ticks + 2);
        RunRowsCount(false, ctx, work, tape, site.ticks + 2, runId);
      }
    }
  }

  /** Marking the pending batch as triggered, outside the cool-down, keeps the invariant. */
  lemma TriggeredRowKeeps(db: Db, row: LogRow, now: int, cooldown: nat)
    requires Debounced(db, cooldown) && row.entry.EventTriggered? && row.entry.eventIds == Ids(Pending(db))
    requires !InCoolDown(db, now, cooldown) && now <= row.createdAt
    ensures Debounced(db.(log := db.log + [row]), cooldown)
    ensures Pending(db.(log := db.log + [row])) == []
  {
    var db' := db.(log := db.log + [row]);
    DebouncedPartitions(db, cooldown);
    TriggeredSnoc(db.log, row);
    assert db'.log[..|db'.log| - 1] == db.log;
    if Pending(db') != [] {
      var id := Ids(Pending(db'))[0];
      KeepPendingMembers(ListEvents(db'), TriggeredIds(db'.log), id);
      CompleteUnderSort(db.events, id);
      assert false;
    }
    NoRepeatsConcat(TriggeredIds(db.log), row.entry.eventIds);
  }

  lemma NoRepeatsConcat(a: seq<string>, b: seq<string>)
    requires NoRepeats(a) && NoRepeats(b) && forall id :: !(id in a && id in b)
    ensures NoRepeats(a + b)
  {
    forall i, j | 0 <= i < j < |a + b| ensures (a + b)[i] != (a + b)[j] {
      if i < |a| <= j {
        assert a[i] in a && b[j - |a|] in b;
      }
    }
  }

  lemma BatchKeeps(submitted: MacroEvent, busy: bool, runId: string, work: Work, tape: Tape, site: Site, now: int,
                   cooldown: nat)
    requires Monotone(tape) && Debounced(site.db, cooldown) && Ledger(site.db)
    requires !InCoolDown(site.db, now, cooldown) && now <= tape(site.ticks)
    ensures var site' := RunBatch(submitted, busy, false, runId, work, tape, site).0;
      Debounced(site'.db, cooldown) && Ledger(site'.db)
  {
    hide TriggerRun, Debounced, Ledger, Pending, LastTriggeredAt, Ids;
    var pending := Pending(site.db);
    if pending != [] {
      var (ran, r) := TriggerRun(false, busy, runId, EventRun, Some(pending), work, tape, site);
      var more := RunIsInvisible(busy, runId, EventRun, Some(pending), work, tape, site);
      TriggerKeepsLedger(false, busy, runId, EventRun, Some(pending), work, tape, site);
      OtherRowsKeep(site.db, ran.db, more, cooldown);
      var site' := RunBatch(submitted, busy, false, runId, work, tape, site).0;
      var row := site'.db.log[|ran.db.log|];
      LedgerIgnores(ran.db, [row]);
      if r.Summary? {
        TriggeredRowKeeps(ran.db, row, now, cooldown);
      } else {
        OtherRowsKeep(ran.db, site'.db, [row], cooldown);
      }
    }
  }

  lemma SubmitKeeps(cooldown: nat, event: MacroEvent, busy: bool, runId: string, work: Work, tape: Tape, site: Site)
    requires Monotone(tape) && Debounced(site.db, cooldown) && Ledger(site.db)
    ensures var site' := SubmitEvent(cooldown, event, busy, false, runId, work, tape, site).0;
      Debounced(site'.db, cooldown) && Ledger(site'.db)
  {
    hide RunBatch, Debounced, Ledger, Pending, InCoolDown, FindEvent;
    if FindEvent(site.db.events, event.eventId).None? {
      var now := tape(site.ticks);
      AcceptKeepsBoth(cooldown, event, tape, site);
      var accepted := Accepted(event, tape, site);
      if event.actual.Some? {
        if InCoolDown(accepted.db, now, cooldown) {
          RowKeepsBoth(accepted.db, LogRow(EventDebounced(event.eventId, |Pending(accepted.db)|), None, tape(accepted.ticks)), cooldown);
        } else {
          BatchKeeps(event, busy, runId, work, tape, accepted, now, cooldown);
        }
      }
    }
  }

  lemma RowKeepsBoth(db: Db, row: LogRow, cooldown: nat)
    requires Debounced(db, cooldown) && Ledger(db)
    requires !row.entry.EventTriggered? && !IsStart(row.entry) && !IsFinish(row.entry)
    ensures Debounced(db.(log := db.log + [row]), cooldown) && Ledger(db.(log := db.log + [row]))
  {
    hide Debounced, Ledger;
    OtherRowsKeep(db, db.(log := db.log + [row]), [row], cooldown);
    LedgerIgnores(db, [row]);
  }

  lemma AcceptKeepsBoth(cooldown: nat, event: MacroEvent, tape: Tape, site: Site)
    requires Debounced(site.db, cooldown) && Ledger(site.db)
    ensures Debounced(Accepted(event, tape, site).db, cooldown) && Ledger(Accepted(event, tape, site).db)
    ensures Debounced(Inserted(event, tape, site).db, cooldown) && Ledger(Inserted(event, tape, site).db)
  {
    hide Debounced, Ledger, FindEvent;
    if FindEvent(site.db.events, event.eventId).None? {
      var inserted := Inserted(event, tape, site).db;
      InsertKeeps(site.db, event, tape(site.ticks), cooldown);
      LedgerReadsRuns(site.db, inserted);
      RowKeepsBoth(inserted, LogRow(EventAccepted(event.eventId), None, tape(site.ticks + 1)), cooldown);
    }
  }

  lemma LedgerReadsRuns(db: Db, db': Db)
    requires Ledger(db) && db' == db.(events := db'.events)
    ensures Ledger(db')
  {
    assert forall id :: RunExists(db', id) == RunExists(db, id);
  }

  lemma InsertKeeps(db: Db, event: MacroEvent, now: int, cooldown: nat)
    requires Debounced(db, cooldown) && FindEvent(db.events, event.eventId).None?
    ensures Debounced(db.(events := db.events + [EventRow(event, Surprise(event), now)]), cooldown)
  {
    var rows := db.events + [EventRow(event, Surprise(event), now)];
    FindEventFinds(db.events, event.eventId);
    forall id | Complete(db.events, id) ensures Complete(rows, id) {
      var i :| 0 <= i < |db.events| && db.events[i].event.eventId == id && db.events[i].event.actual.Some?;
      assert rows[i].event.eventId == id;
    }
  }

  lemma StepKeeps(cooldown: nat, step: Step, tape: Tape, site: Site)
    requires Monotone(tape) && Debounced(site.db, cooldown) && Ledger(site.db)
    ensures Debounced(Take(cooldown, step, tape, site).db, cooldown) && Ledger(Take(cooldown, step, tape, site).db)
  {
    hide SubmitEvent, TriggerRun, Debounced, Ledger, Pending, FindEvent, InCoolDown;
    match step {
      case Submit(event, busy, runId, work) =>
        SubmitKeeps(cooldown, event, busy, runId, work, tape, site);
      case OtherRun(busy, runId, trigger, work) =>
        RunKeeps(cooldown, busy, runId, trigger, None, work, tape, site);
      case CrashAfterInsert(event) =>
        AcceptKeepsBoth(cooldown, event, tape, site);
      case CrashAfterAccept(event) =>
        AcceptKeepsBoth(cooldown, event, tape, site);
      case CrashAfterRun(event, busy, runId, work) =>
        AcceptKeepsBoth(cooldown, event, tape, site);
        var accepted := Accepted(event, tape, site);
        RunKeeps(cooldown, busy, runId, EventRun, Some(Pending(accepted.db)), work, tape, accepted);
    }
  }

  lemma RunKeeps(cooldown: nat, busy: bool, runId: string, trigger: TriggerType, events: Option<seq<MacroEvent>>,
                 work: Work, tape: Tape, site: Site)
    requires Debounced(site.db, cooldown) && Ledger(site.db)
    ensures var site' := TriggerRun(false, busy, runId, trigger, events, work, tape, site).0;
      Debounced(site'.db, cooldown) && Ledger(site'.db)
  {
    hide TriggerRun, Debounced, Ledger;
    var more := RunIsInvisible(busy, runId, trigger, events, work, tape, site);
    TriggerKeepsLedger(false, busy, runId, trigger, events, work, tape, site);
    OtherRowsKeep(site.db, TriggerRun(false, busy, runId, trigger, events, work, tape, site).0.db, more, cooldown);
  }

  /**
   * From an empty database, under a clock that never goes back, every history keeps the run ledger
   * and the debounce: no event in two triggered batches, triggered and pending together exactly the
   * complete events, and triggered rows at least a cool-down apart.
   */
  lemma {:induction false} EveryHistoryIsDebounced(cooldown: nat, steps: seq<Step>, tape: Tape)
    requires Monotone(tape)
    ensures var db := Run(cooldown, steps, tape).db;
      Debounced(db, cooldown) && Partition(db) && Ledger(db)
  {
    hide Take;
    if steps == [] {
      assert forall id :: !RunExists(EMPTY, id);
    } else {
      EveryHistoryIsDebounced(cooldown, steps[..|steps| - 1], tape);
      StepKeeps(cooldown, steps[|steps| - 1], tape, Run(cooldown, steps[..|steps| - 1], tape));
    }
    DebouncedPartitions(Run(cooldown, steps, tape).db, cooldown);
  }

  // What one submission does with its event.

  /** The input row of the run holds exactly this batch. */
  ghost predicate RanOver(db: Db, runId: string, batch: seq<MacroEvent>) {
    exists i :: 0 <= i < |db.inputs| && db.inputs[i].runId == runId && db.inputs[i].ingest.events == batch
  }

  lemma PendingAfterAccept(db: Db, event: MacroEvent, now: int, at: int, cooldown: nat)
    requires Debounced(db, cooldown) && FindEvent(db.events, event.eventId).None?
    ensures Debounced(Accept(db, event, now, at), cooldown)
    ensures TriggeredIds(Accept(db, event, now, at).log) == TriggeredIds(db.log)
    ensures event.eventId in Ids(Pending(Accept(db, event, now, at))) <==> event.actual.Some?
  {
    var inserted := db.(events := db.events + [EventRow(event, Surprise(event), now)]);
    var accepted := Accept(db, event, now, at);
    InsertKeeps(db, event, now, cooldown);
    OtherRowsKeep(inserted, accepted, [LogRow(EventAccepted(event.eventId), None, at)], cooldown);
    FindEventFinds(db.events, event.eventId);
    KeepPendingMembers(ListEvents(accepted), TriggeredIds(accepted.log), event.eventId);
    CompleteUnderSort(accepted.events, event.eventId);
    assert accepted.events[|db.events|].event == event;
  }

  /** The run started over exactly `pending`, marked exactly those, and left nothing pending. */
  ghost predicate TriggeredAll(db: Db, db': Db, pending: seq<MacroEvent>, runId: string) {
    && TriggeredIds(db'.log) == TriggeredIds(db.log) + Ids(pending)
    && (forall id :: Complete(db'.events, id) ==> id in TriggeredIds(db'.log))
    && (!RunExists(db, runId) ==> RanOver(db', runId, pending))
  }

  /** Nothing was marked, and what was pending still is. */
  ghost predicate TriggeredNone(db: Db, db': Db, pending: seq<MacroEvent>) {
    TriggeredIds(db'.log) == TriggeredIds(db.log) && Pending(db') == pending
  }

  /**
   * A new submission either starts a run, over exactly the pending events including itself, marks
   * exactly those as triggered and leaves none pending; or it marks nothing, leaves the pending
   * events as they are, and its event is among them if and only if its actual value is known.
   */
  lemma SubmissionTriggersAllOrNothing(cooldown: nat, event: MacroEvent, busy: bool, runId: string, work: Work,
                                       tape: Tape, site: Site)
    requires Debounced(site.db, cooldown) && FindEvent(site.db.events, event.eventId).None?
    ensures var (site', r) := SubmitEvent(cooldown, event, busy, false, runId, work, tape, site);
      var pending := Pending(Accepted(event, tape, site).db);
      && (event.eventId in Ids(pending) <==> event.actual.Some?)
      && (r.runId.Some? ==> r.runId == Some(runId) && event.actual.Some? && TriggeredAll(site.db, site'.db, pending, runId))
      && (r.runId.None? ==> TriggeredNone(site.db, site'.db, pending))
  {
    hide RunBatch, Debounced, Pending, InCoolDown, FindEvent, TriggeredAll, TriggeredIds, Ids;
    var now, at := tape(site.ticks), tape(site.ticks + 1);
    var accepted := Accepted(event, tape, site);
    PendingAfterAccept(site.db, event, now, at, cooldown);
    if event.actual.Some? {
      if InCoolDown(accepted.db, now, cooldown) {
        var row := LogRow(EventDebounced(event.eventId, |Pending(accepted.db)|), None, tape(accepted.ticks));
        OtherRowsKeep(accepted.db, accepted.db.(log := accepted.db.log + [row]), [row], cooldown);
      } else {
        NonEmptyIds(Pending(accepted.db), event.eventId);
        BatchMarksAllOrNothing(event, busy, runId, work, tape, accepted, cooldown);
        TriggeredFromSame(site.db, accepted.db, RunBatch(event, busy, false, runId, work, tape, accepted).0.db,
                          Pending(accepted.db), runId);
      }
    }
  }

  lemma NonEmptyIds(events: seq<MacroEvent>, id: string)
    requires id in Ids(events)
    ensures events != []
  {}

  lemma TriggeredFromSame(db: Db, accepted: Db, db': Db, pending: seq<MacroEvent>, runId: string)
    requires TriggeredIds(accepted.log) == TriggeredIds(db.log) && accepted.runs == db.runs
    ensures TriggeredAll(accepted, db', pending, runId) <==> TriggeredAll(db, db', pending, runId)
    ensures TriggeredNone(accepted, db', pending) <==> TriggeredNone(db, db', pending)
  {
    hide TriggeredIds, Pending, Ids;
  }

  lemma BatchMarksAllOrNothing(submitted: MacroEvent, busy: bool, runId: string, work: Work, tape: Tape, site: Site,
                               cooldown: nat)
    requires Debounced(site.db, cooldown) && Pending(site.db) != []
    ensures var (site', r) := RunBatch(submitted, busy, false, runId, work, tape, site);
      && (r.runId.Some? ==> r.runId == Some(runId) && TriggeredAll(site.db, site'.db, Pending(site.db), runId))
      && (r.runId.None? ==> TriggeredNone(site.db, site'.db, Pending(site.db)))
  {
    hide TriggerRun, Debounced, Pending, Ids, TriggeredIds, TriggeredAll;
    var pending := Pending(site.db);
    var (ran, r) := TriggerRun(false, busy, runId, EventRun, Some(pending), work, tape, site);
    var more := RunIsInvisible(busy, runId, EventRun, Some(pending), work, tape, site);
    OtherRowsKeep(site.db, ran.db, more, cooldown);
    var site' := RunBatch(submitted, busy, false, runId, work, tape, site).0;
    var row := site'.db.log[|ran.db.log|];
    assert site'.db == ran.db.(log := ran.db.log + [row]);
    if r.Summary? {
      SummaryNamesRun(busy, runId, pending, work, tape, site);
      BatchIsMarked(site.db, ran.db, row, pending, runId, cooldown);
    } else {
      OtherRowsKeep(ran.db, site'.db, [row], cooldown);
    }
  }

  /** A run that comes back with a summary has its own id; a fresh one stored its events. */
  lemma SummaryNamesRun(busy: bool, runId: string, pending: seq<MacroEvent>, work: Work, tape: Tape, site: Site)
    requires TriggerRun(false, busy, runId, EventRun, Some(pending), work, tape, site).1.Summary?
    ensures var (ran, r) := TriggerRun(false, busy, runId, EventRun, Some(pending), work, tape, site);
      r.runId == runId && (!RunExists(site.db, runId) ==> RanOver(ran.db, runId, pending))
  {
    hide RunRows, MaxSequence;
    var ran := TriggerRun(false, busy, runId, EventRun, Some(pending), work, tape, site).0;
    if !RunExists(site.db, runId) {
      var i := |site.db.inputs|;
      assert ran.db.inputs[i].runId == runId && ran.db.inputs[i].ingest.events == pending;
    }
  }

  lemma BatchIsMarked(db: Db, ran: Db, row: LogRow, pending: seq<MacroEvent>, runId: string, cooldown: nat)
    requires Debounced(db, cooldown) && pending == Pending(db)
    requires row.entry.EventTriggered? && row.entry.eventIds == Ids(pending)
    requires ran.events == db.events && TriggeredIds(ran.log) == TriggeredIds(db.log)
    requires !RunExists(db, runId) ==> RanOver(ran, runId, pending)
    ensures TriggeredAll(db, ran.(log := ran.log + [row]), pending, runId)
  {
    hide Pending, Ids, TriggeredIds, Debounced, RunExists, Complete;
    TriggeredSnoc(ran.log, row);
    DebouncedPartitions(db, cooldown);
    var db' := ran.(log := ran.log + [row]);
    if !RunExists(db, runId) {
      var i :| 0 <= i < |ran.inputs| && ran.inputs[i].runId == runId && ran.inputs[i].ingest.events == pending;
      assert db'.inputs[i].runId == runId;
    }
  }

  // Stored events are final.

  lemma StepOnlyAppendsEvents(cooldown: nat, step: Step, tape: Tape, site: Site)
    ensures site.db.events <= Take(cooldown, step, tape, site).db.events
  {
    hide TriggerRun, Pending, FindEvent, InCoolDown;
    match step {
      case Submit(event, busy, runId, work) =>
        var accepted := Accepted(event, tape, site);
        var more := RunIsInvisible(busy, runId, EventRun, Some(Pending(accepted.db)), work, tape, accepted);
      case OtherRun(busy, runId, trigger, work) =>
        var more := RunIsInvisible(busy, runId, trigger, None, work, tape, site);
      case CrashAfterInsert(_) =>
      case CrashAfterAccept(_) =>
      case CrashAfterRun(event, busy, runId, work) =>
        var accepted := Accepted(event, tape, site);
        var more := RunIsInvisible(busy, runId, EventRun, Some(Pending(accepted.db)), work, tape, accepted);
    }
  }

  lemma {:induction false} StoredEventStays(cooldown: nat, steps: seq<Step>, more: seq<Step>, tape: Tape, id: string)
    requires FindEvent(Run(cooldown, steps, tape).db.events, id).Some?
    ensures FindEvent(Run(cooldown, steps + more, tape).db.events, id) == FindEvent(Run(cooldown, steps, tape).db.events, id)
  {
    hide Take, FindEvent;
    if more == [] {
      assert steps + more == steps;
    } else {
      var front, last := more[..|more| - 1], more[|more| - 1];
      StoredEventStays(cooldown, steps, front, tape, id);
      assert steps + more == (steps + front) + [last];
      RunSnoc(cooldown, steps + front, last, tape);
      var middle := Run(cooldown, steps + front, tape);
      StepOnlyAppendsEvents(cooldown, last, tape, middle);
      FindEventInPrefix(middle.db.events, Take(cooldown, last, tape, middle).db.events, id);
    }
  }

  lemma RunSnoc(cooldown: nat, steps: seq<Step>, last: Step, tape: Tape)
    ensures Run(cooldown, steps + [last], tape) == Take(cooldown, last, tape, Run(cooldown, steps, tape))
  {
    hide Take;
    assert (steps + [last])[..|steps|] == steps;
  }

  /**
   * Once stored, an event never changes: later submissions under its id, whatever they carry, do not
   * touch it. So an entry stored without an actual value never becomes pending or triggers a run.
   */
  lemma StoredEventIsFinal(cooldown: nat, steps: seq<Step>, more: seq<Step>, tape: Tape, id: string)
    requires Monotone(tape)
    requires FindEvent(Run(cooldown, steps, tape).db.events, id).Some?
    ensures var before, after := Run(cooldown, steps, tape).db, Run(cooldown, steps + more, tape).db;
      && FindEvent(after.events, id) == FindEvent(before.events, id)
      && (FindEvent(before.events, id).value.event.actual.None? ==> id !in TriggeredIds(after.log) && id !in Ids(Pending(after)))
  {
    hide Run, FindEvent, TriggeredIds, Pending, Ids, Complete;
    StoredEventStays(cooldown, steps, more, tape, id);
    EveryHistoryIsDebounced(cooldown, steps + more, tape);
    var after := Run(cooldown, steps + more, tape).db;
    if FindEvent(after.events, id).value.event.actual.None? {
      IncompleteEvent(after.events, id);
    }
  }

  lemma {:induction false} FindEventInPrefix(rows: seq<EventRow>, more: seq<EventRow>, id: string)
    requires rows <= more && FindEvent(rows, id).Some?
    ensures FindEvent(more, id) == FindEvent(rows, id)
  {
    assert rows[0] == more[0];
    if rows[0].event.eventId != id {
      assert rows[1..] <= more[1..];
      FindEventInPrefix(rows[1..], more[1..], id);
    }
  }

  lemma IncompleteEvent(rows: seq<EventRow>, id: string)
    requires UniqueEvents(rows) && FindEvent(rows, id).Some? && FindEvent(rows, id).value.event.actual.None?
    ensures !Complete(rows, id)
  {
    FindEventFinds(rows, id);
  }
}
