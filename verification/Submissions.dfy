/** When a submission runs, when it is debounced, and what it answers, told from the stored rows. */
module Submissions {
  import opened Common
  import opened Folds
  import opened MonotonicClock
  import opened Tables
  import opened RunLedger
  import opened EventTriggers
  import opened DebounceHistory
  import opened RunContents
  import TextOrder

  /** Every triggered row is a cool-down old. */
  ghost predicate Quiet(log: seq<LogRow>, now: int, cooldown: nat) {
    forall i :: 0 <= i < |log| && log[i].entry.EventTriggered? ==> log[i].createdAt + cooldown <= now
  }

  /** In a spaced log the last triggered row is the latest. */
  lemma {:induction false} LastIsLatest(log: seq<LogRow>, cooldown: nat)
    requires Spaced(log, cooldown)
    ensures LastTriggeredAt(log).None? <==> forall i :: 0 <= i < |log| ==> !log[i].entry.EventTriggered?
    ensures LastTriggeredAt(log).Some? ==>
      && (exists i :: 0 <= i < |log| && log[i].entry.EventTriggered? && log[i].createdAt == LastTriggeredAt(log).value)
      && forall i :: 0 <= i < |log| && log[i].entry.EventTriggered? ==> log[i].createdAt <= LastTriggeredAt(log).value
  {
    if log != [] {
      var n := |log| - 1;
      LastIsLatest(log[..n], cooldown);
      if log[n].entry.EventTriggered? {
        assert FarFrom(log[..n], log[n], cooldown);
      } else if LastTriggeredAt(log[..n]).Some? {
        var i :| 0 <= i < n && log[..n][i].entry.EventTriggered? && log[..n][i].createdAt == LastTriggeredAt(log[..n]).value;
        assert log[i].entry.EventTriggered?;
      }
    }
  }

  lemma CoolDownMeans(db: Db, now: int, cooldown: nat)
    requires Spaced(db.log, cooldown)
    ensures InCoolDown(db, now, cooldown) <==> !Quiet(db.log, now, cooldown)
  {
    LastIsLatest(db.log, cooldown);
  }

  /** Accepting an event leaves what the cool-down and the runs look at. */
  lemma AcceptedKeeps(cooldown: nat, event: MacroEvent, tape: Tape, site: Site, now: int)
    requires Debounced(site.db, cooldown) && FindEvent(site.db.events, event.eventId).None?
    ensures var accepted := Accepted(event, tape, site);
      && accepted.ticks == site.ticks + 2 && accepted.db.runs == site.db.runs
      && Debounced(accepted.db, cooldown)
      && (Quiet(accepted.db.log, now, cooldown) <==> Quiet(site.db.log, now, cooldown))
      && (event.actual.Some? ==> Pending(accepted.db) != [])
  {
    hide Debounced, Pending, FindEvent, Surprise, Complete;
    PendingAfterAccept(site.db, event, tape(site.ticks), tape(site.ticks + 1), cooldown);
    var accepted := Accepted(event, tape, site);
    if event.actual.Some? {
      NonEmptyIds(Pending(accepted.db), event.eventId);
    }
    QuietSnoc(site.db.log, LogRow(EventAccepted(event.eventId), None, tape(site.ticks + 1)), now, cooldown);
  }

  lemma QuietSnoc(log: seq<LogRow>, row: LogRow, now: int, cooldown: nat)
    requires !row.entry.EventTriggered?
    ensures Quiet(log + [row], now, cooldown) <==> Quiet(log, now, cooldown)
  {
    if Quiet(log + [row], now, cooldown) {
      forall i | 0 <= i < |log| && log[i].entry.EventTriggered? ensures log[i].createdAt + cooldown <= now {
        assert (log + [row])[i] == log[i];
      }
    }
  }

  /** The run of a submission comes to an end that has a summary: it completes, or its id is stored already. */
  predicate Finishes(db: Db, runId: string, work: Work) {
    work.Completes? || (work.PipelineRaises? && RunExists(db, runId))
  }

  /** How a batch is answered and logged, given how the run over it ends. */
  lemma BatchEndsExactly(submitted: MacroEvent, busy: bool, replay: bool, runId: string, work: Work, tape: Tape, site: Site)
    requires Pending(site.db) != []
    ensures var (site', r) := RunBatch(submitted, busy, replay, runId, work, tape, site);
      var pending := Pending(site.db);
      && r.eventId == submitted.eventId && r.accepted
      && (r.debounced <==> busy)
      && r.runId == (if !busy && Finishes(site.db, runId, work) then Some(runId) else None)
      && r.surprise == (if busy then None else Surprise(submitted))
      && r.runStatus == (if busy then None else if Finishes(site.db, runId, work) then Some(StatusFor(site.db, runId, work)) else Some("failed"))
      && site'.db.log != []
      && site'.db.log[|site'.db.log| - 1].entry == EntryFor(submitted, pending, busy, site.db, runId, work)
  {
    hide Pending, Ids, Surprise, TriggerRun, RunExists;
    TriggerEndsExactly(replay, busy, runId, EventRun, Some(Pending(site.db)), work, tape, site);
  }

  function StatusFor(db: Db, runId: string, work: Work): string
    requires Finishes(db, runId, work)
  {
    if RunExists(db, runId) then "exists" else if work.degraded then "degraded" else "published"
  }

  /** What is logged last: the batch, why it failed, or that it waits for the run in flight. */
  function EntryFor(submitted: MacroEvent, pending: seq<MacroEvent>, busy: bool, db: Db, runId: string, work: Work): Entry
    requires pending != []
  {
    if busy then EventDebounced(submitted.eventId, |pending|)
    else if Finishes(db, runId, work) then EventTriggered(pending[0].eventId, Ids(pending), StatusFor(db, runId, work))
    else EventFailed(submitted.eventId, Ids(pending), work.error)
  }

  /** What a submission of a new event comes to, case by case. */
  lemma SubmitCases(cooldown: nat, event: MacroEvent, busy: bool, replay: bool, runId: string, work: Work, tape: Tape, site: Site)
    requires FindEvent(site.db.events, event.eventId).None?
    ensures var accepted := Accepted(event, tape, site);
      SubmitEvent(cooldown, event, busy, replay, runId, work, tape, site) ==
        if event.actual.None? then (accepted, TriggerResult(event.eventId, true, None, false, None, None))
        else if InCoolDown(accepted.db, tape(site.ticks), cooldown) then
          (Site(Logged(accepted.db, EventDebounced(event.eventId, |Pending(accepted.db)|), None, tape(accepted.ticks)), accepted.ticks + 1),
           TriggerResult(event.eventId, true, Surprise(event), true, None, None))
        else RunBatch(event, busy, replay, runId, work, tape, accepted)
  {
    hide Pending, RunBatch, InCoolDown, FindEvent, Surprise;
  }

  /**
   * A new event starts a run exactly when its actual value is known, no triggered row is younger than
   * the cool-down, nothing else is running, and the run finishes. It is debounced exactly when its
   * value is known and it has to wait. It is answered with the surprise whenever its value is known,
   * except behind a run in flight.
   */
  lemma SubmissionEndsExactly(cooldown: nat, event: MacroEvent, busy: bool, replay: bool, runId: string, work: Work,
                              tape: Tape, site: Site)
    requires Debounced(site.db, cooldown) && FindEvent(site.db.events, event.eventId).None?
    ensures var r := SubmitEvent(cooldown, event, busy, replay, runId, work, tape, site).1;
      var quiet := Quiet(site.db.log, tape(site.ticks), cooldown);
      && r.eventId == event.eventId && r.accepted
      && (r.runId == Some(runId) <==> event.actual.Some? && quiet && !busy && Finishes(site.db, runId, work))
      && (r.runId.Some? ==> r.runId == Some(runId))
      && (r.debounced <==> event.actual.Some? && (!quiet || busy))
      && (r.surprise.Some? <==> event.actual.Some? && (!quiet || !busy))
      && (r.surprise.Some? ==> r.surprise.value == event.actual.value - event.consensus)
      && r.runStatus ==
           if event.actual.None? || !quiet || busy then None
           else if Finishes(site.db, runId, work) then Some(StatusFor(site.db, runId, work)) else Some("failed")
  {
    hide Pending, RunBatch, InCoolDown, Quiet, FindEvent, RunExists, SubmitEvent, Spaced, Accept;
    var now := tape(site.ticks);
    var accepted := Accepted(event, tape, site);
    AcceptedKeeps(cooldown, event, tape, site, now);
    SubmitCases(cooldown, event, busy, replay, runId, work, tape, site);
    CoolDownMeans(accepted.db, now, cooldown);
    hide Debounced, Accepted;
    if event.actual.Some? && Quiet(accepted.db.log, now, cooldown) {
      BatchEndsExactly(event, busy, replay, runId, work, tape, accepted);
      SameFinish(accepted.db, site.db, runId, work);
      hide StatusFor;
    }
  }

  lemma SameFinish(db: Db, db': Db, runId: string, work: Work)
    requires db.runs == db'.runs
    ensures Finishes(db, runId, work) <==> Finishes(db', runId, work)
    ensures Finishes(db, runId, work) ==> StatusFor(db, runId, work) == StatusFor(db', runId, work)
  {}

  /** What a submission has logged when it returns. */
  lemma SubmissionIsLogged(cooldown: nat, event: MacroEvent, busy: bool, replay: bool, runId: string, work: Work,
                           tape: Tape, site: Site)
    requires Debounced(site.db, cooldown) && FindEvent(site.db.events, event.eventId).None?
    ensures var db' := SubmitEvent(cooldown, event, busy, replay, runId, work, tape, site).0.db;
      var accepted := Accepted(event, tape, site).db;
      var quiet := Quiet(site.db.log, tape(site.ticks), cooldown);
      && accepted.log == site.db.log + [LogRow(EventAccepted(event.eventId), None, tape(site.ticks + 1))]
      && accepted.events == site.db.events + [EventRow(event, Surprise(event), tape(site.ticks))]
      && (event.actual.None? ==> db' == accepted)
      && (event.actual.Some? ==>
            && Pending(accepted) != [] && db'.log != []
            && db'.log[|db'.log| - 1].entry ==
                 if quiet then EntryFor(event, Pending(accepted), busy, accepted, runId, work)
                 else EventDebounced(event.eventId, |Pending(accepted)|))
  {
    hide Pending, RunBatch, InCoolDown, Quiet, FindEvent, Surprise, RunExists, Ids, EntryFor, SubmitEvent, Spaced;
    var now := tape(site.ticks);
    var accepted := Accepted(event, tape, site);
    AcceptedKeeps(cooldown, event, tape, site, now);
    SubmitCases(cooldown, event, busy, replay, runId, work, tape, site);
    CoolDownMeans(accepted.db, now, cooldown);
    hide Debounced;
    if event.actual.Some? && Quiet(accepted.db.log, now, cooldown) {
      BatchEndsExactly(event, busy, replay, runId, work, tape, accepted);
    }
  }

  /** A known id is answered from its row, and nothing is written. */
  lemma RepeatedSubmission(cooldown: nat, event: MacroEvent, busy: bool, replay: bool, runId: string, work: Work,
                           tape: Tape, site: Site)
    requires FindEvent(site.db.events, event.eventId).Some?
    ensures var (site', r) := SubmitEvent(cooldown, event, busy, replay, runId, work, tape, site);
      && site'.db == site.db
      && r == TriggerResult(event.eventId, true, FindEvent(site.db.events, event.eventId).value.surprise, false, None, None)
  {}

  /**
   * Nothing waits for ever: after any history, a new complete event submitted a cool-down after the
   * last batch, while nothing runs and its run completes, sets off a run over everything pending, and
   * afterwards every complete event stored has been triggered.
   */
  lemma QuietSubmissionClearsPending(cooldown: nat, steps: seq<Step>, event: MacroEvent, runId: string, work: Work, tape: Tape)
    requires Monotone(tape) && event.actual.Some? && work.Completes?
    requires var site := Run(cooldown, steps, tape);
      FindEvent(site.db.events, event.eventId).None? && Quiet(site.db.log, tape(site.ticks), cooldown)
    ensures var site := Run(cooldown, steps, tape);
      var (site', r) := SubmitEvent(cooldown, event, false, false, runId, work, tape, site);
      && r.runId == Some(runId) && !r.debounced
      && event.eventId in TriggeredIds(site'.db.log) && Pending(site'.db) == []
      && forall id :: Complete(site'.db.events, id) ==> id in TriggeredIds(site'.db.log)
  {
    EveryHistoryIsDebounced(cooldown, steps, tape);
    var site := Run(cooldown, steps, tape);
    SubmissionEndsExactly(cooldown, event, false, false, runId, work, tape, site);
    SubmissionTriggersAllOrNothing(cooldown, event, false, runId, work, tape, site);
    SubmitKeeps(cooldown, event, false, runId, work, tape, site);
    var site' := SubmitEvent(cooldown, event, false, false, runId, work, tape, site).0;
    hide SubmitEvent, Run, Quiet, FindEvent, Pending, TriggeredIds, Ids, Debounced, Complete, Partition;
    NothingLeft(site'.db, cooldown);
    NamedInBatch(site.db, site'.db, Pending(Accepted(event, tape, site).db), runId, event.eventId);
  }

  lemma NothingLeft(db: Db, cooldown: nat)
    requires Debounced(db, cooldown) && forall id :: Complete(db.events, id) ==> id in TriggeredIds(db.log)
    ensures Pending(db) == []
  {
    DebouncedPartitions(db, cooldown);
    hide Debounced, TriggeredIds, Complete;
    SomeMember(Ids(Pending(db)));
  }

  lemma NamedInBatch(db: Db, db': Db, pending: seq<MacroEvent>, runId: string, id: string)
    requires TriggeredAll(db, db', pending, runId) && id in Ids(pending)
    ensures id in TriggeredIds(db'.log)
  {
    hide TriggeredIds, Ids;
  }

  /** What waits is listed by the time it is scheduled for, and at one time by id. */
  lemma PendingIsChronological(db: Db, cooldown: nat)
    requires Debounced(db, cooldown)
    ensures var pending := Pending(db);
      forall i, j :: 0 <= i < j < |pending| ==>
        && TextOrder.Leq(pending[i].scheduledAt, pending[j].scheduledAt)
        && (pending[i].scheduledAt == pending[j].scheduledAt ==> TextOrder.Leq(pending[i].eventId, pending[j].eventId))
  {
    DebouncedPartitions(db, cooldown);
    hide Pending, Debounced, TriggeredIds, Ids, Complete;
    var pending := Pending(db);
    forall i, j | 0 <= i < j < |pending|
      ensures TextOrder.Leq(pending[i].scheduledAt, pending[j].scheduledAt)
      ensures pending[i].scheduledAt == pending[j].scheduledAt ==> TextOrder.Leq(pending[i].eventId, pending[j].eventId)
    {
      assert EarlierEvent(pending[i], pending[j]);
      TextOrder.Total(pending[i].scheduledAt, pending[i].scheduledAt);
    }
  }
}
