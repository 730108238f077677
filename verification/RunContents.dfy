/** What a committed run leaves in every table, after one trigger and after whole histories. */
module RunContents {
  import opened Common
  import opened MonotonicClock
  import opened Tables
  import opened RunLedger
  import opened EventTriggers
  import opened DebounceHistory

  /** The run goes through: nothing else is running, the id is new, and the work completes. */
  predicate GoesThrough(db: Db, busy: bool, runId: string, work: Work) {
    !busy && !RunExists(db, runId) && work.Completes?
  }

  /** How a trigger ends, in every case: refused, raised, repeated, or run. */
  lemma TriggerEndsExactly(replay: bool, busy: bool, runId: string, trigger: TriggerType, events: Option<seq<MacroEvent>>,
                           work: Work, tape: Tape, site: Site)
    ensures var r := TriggerRun(replay, busy, runId, trigger, events, work, tape, site).1;
      && (r.Overlap? <==> busy)
      && (r.Raised? <==> !busy && !work.Completes? && (work.PipelineRaises? ==> !RunExists(site.db, runId)))
      && (r.Raised? ==> r.error == work.error)
      && (r.Summary? && r.noop <==> !busy && !work.IngestRaises? && RunExists(site.db, runId))
      && (r.Summary? && !r.noop <==> GoesThrough(site.db, busy, runId, work))
      && (r.Summary? ==> r.runId == runId)
      && (r.Summary? && r.noop ==> r.status == "exists" && !r.degraded && r.published)
      && (r.Summary? && !r.noop ==>
            && r.status == (if work.degraded then "degraded" else "published")
            && r.degraded == work.degraded && r.published == work.published)
  {
    hide RunRows, MaxSequence, RunExists;
  }

  /** The rows a run adds to the tables other than the log. */
  datatype Commit = Commit(runId: string, trigger: TriggerType, degraded: bool, ingest: Ingest, document: string, calls: seq<CallRow>)

  /** Exactly one run, input and output row more, and the run's calls after the earlier ones. */
  ghost predicate Gains(db: Db, db': Db, c: Commit) {
    && db'.runs == db.runs + [RunRow(c.runId, |db.runs| + 1, c.trigger, c.degraded)]
    && |db'.inputs| == |db.inputs| + 1 && db.inputs <= db'.inputs
    && db'.inputs[|db.inputs|].runId == c.runId && db'.inputs[|db.inputs|].ingest == c.ingest
    && |db'.outputs| == |db.outputs| + 1 && db.outputs <= db'.outputs
    && db'.outputs[|db.outputs|].runId == c.runId && db'.outputs[|db.outputs|].document == c.document
    && db'.calls == db.calls + c.calls
  }

  /** The given events replace the ingested ones; the rest is as ingested. */
  function IngestOf(work: Work, events: Option<seq<MacroEvent>>): Ingest
    requires work.Completes?
  {
    Ingest(work.ingest.snapshots, if events.Some? then events.value else work.ingest.events)
  }

  /** A run that goes through stores its document, inputs and Call Records under the next sequence. */
  lemma RunIsStored(replay: bool, busy: bool, runId: string, trigger: TriggerType, events: Option<seq<MacroEvent>>,
                    work: Work, tape: Tape, site: Site)
    requires Ledger(site.db) && GoesThrough(site.db, busy, runId, work)
    ensures Gains(site.db, TriggerRun(replay, busy, runId, trigger, events, work, tape, site).0.db,
                  Commit(runId, trigger, work.degraded, IngestOf(work, events), work.document, work.calls))
  {
    SequencesCountUp(site.db.runs);
    hide RunRows, RunExists;
  }

  /** What the rows of one run say, from its start to its finish. */
  ghost predicate Tells(rows: seq<LogRow>, replay: bool, sequence: nat, work: Work)
    requires work.Completes?
  {
    var n := |work.calls|;
    && |rows| == n + (if work.degraded then 3 else 2)
    && rows[0].entry == (if replay then ReplayStart(sequence) else RunStart(sequence))
    && (forall i :: 0 <= i < n ==> rows[1 + i].entry == ProviderCall(work.calls[i].provider, work.calls[i].outcome))
    && (work.degraded ==> rows[n + 1].entry == DegradedRun)
    && rows[|rows| - 1].entry == RunFinish(if work.degraded then "degraded" else "published", work.published)
  }

  /** Every row names the run, and is stamped with its own reading of the clock, in order. */
  ghost predicate Stamped(rows: seq<LogRow>, runId: string, tape: Tape, ticks: nat) {
    forall k :: 0 <= k < |rows| ==> rows[k].runId == Some(runId) && rows[k].createdAt == tape(ticks + k)
  }

  lemma {:induction false} CallEntriesTell(runId: string, calls: seq<CallRow>, tape: Tape, ticks: nat)
    ensures var rows := CallEntries(runId, calls, tape, ticks);
      && |rows| == |calls| && Stamped(rows, runId, tape, ticks)
      && forall i :: 0 <= i < |calls| ==> rows[i].entry == ProviderCall(calls[i].provider, calls[i].outcome)
  {
    if calls != [] {
      CallEntriesTell(runId, calls[..|calls| - 1], tape, ticks);
    }
  }

  /** The rows laid end to end, by position. */
  lemma RowAt(start: LogRow, calls: seq<LogRow>, degraded: seq<LogRow>, finish: LogRow, k: nat)
    requires k < |calls| + |degraded| + 2
    ensures var rows := [start] + calls + degraded + [finish];
      |rows| == |calls| + |degraded| + 2 &&
      rows[k] == if k == 0 then start else if k <= |calls| then calls[k - 1]
                 else if k <= |calls| + |degraded| then degraded[k - 1 - |calls|] else finish
  {}

  lemma RunRowsTell(replay: bool, ctx: Context, work: Work, tape: Tape, ticks: nat)
    requires work.Completes?
    ensures var rows := RunRows(replay, ctx, work, tape, ticks);
      Tells(rows, replay, ctx.sequence, work) && Stamped(rows, ctx.runId, tape, ticks)
  {
    var n := |work.calls|;
    var start, calls := StartRow(replay, ctx, tape(ticks)), CallEntries(ctx.runId, work.calls, tape, ticks + 1);
    var degraded := if work.degraded then [LogRow(DegradedRun, Some(ctx.runId), tape(ticks + 1 + n))] else [];
    var finish := LogRow(RunFinish(StatusOf(work.degraded), work.published), Some(ctx.runId), tape(ticks + 1 + n + |degraded|));
    CallEntriesTell(ctx.runId, work.calls, tape, ticks + 1);
    var rows := RunRows(replay, ctx, work, tape, ticks);
    assert rows == [start] + calls + degraded + [finish];
    hide CallEntries, RunRows;
    forall k | 0 <= k < n + |degraded| + 2
      ensures |rows| == n + |degraded| + 2
      ensures rows[k] == if k == 0 then start else if k <= n then calls[k - 1]
                         else if k <= n + |degraded| then degraded[k - 1 - n] else finish
    {
      RowAt(start, calls, degraded, finish, k);
    }
    RowAt(start, calls, degraded, finish, 0);
    RowsTell(replay, ctx, work, tape, ticks, rows, calls, degraded);
  }

  lemma RowsTell(replay: bool, ctx: Context, work: Work, tape: Tape, ticks: nat, rows: seq<LogRow>, calls: seq<LogRow>,
                 degraded: seq<LogRow>)
    requires work.Completes? && |calls| == |work.calls| && Stamped(calls, ctx.runId, tape, ticks + 1)
    requires forall i :: 0 <= i < |calls| ==> calls[i].entry == ProviderCall(work.calls[i].provider, work.calls[i].outcome)
    requires degraded == if work.degraded then [LogRow(DegradedRun, Some(ctx.runId), tape(ticks + 1 + |calls|))] else []
    requires |rows| == |calls| + |degraded| + 2
    requires forall k :: 0 <= k < |rows| ==>
      rows[k] == if k == 0 then StartRow(replay, ctx, tape(ticks)) else if k <= |calls| then calls[k - 1]
                 else if k <= |calls| + |degraded| then degraded[k - 1 - |calls|]
                 else LogRow(RunFinish(StatusOf(work.degraded), work.published), Some(ctx.runId), tape(ticks + 1 + |calls| + |degraded|))
    ensures Tells(rows, replay, ctx.sequence, work) && Stamped(rows, ctx.runId, tape, ticks)
  {
    forall i | 0 <= i < |calls| ensures rows[1 + i] == calls[i] {}
    forall k | 0 <= k < |rows| ensures rows[k].runId == Some(ctx.runId) && rows[k].createdAt == tape(ticks + k) {
      if 1 <= k <= |calls| {
        assert rows[k] == calls[k - 1];
      }
    }
  }

  /** A run that goes through logs its start, each call in order, its degradation and its finish. */
  lemma RunIsLogged(replay: bool, busy: bool, runId: string, trigger: TriggerType, events: Option<seq<MacroEvent>>,
                    work: Work, tape: Tape, site: Site) returns (rows: seq<LogRow>)
    requires Ledger(site.db) && GoesThrough(site.db, busy, runId, work)
    ensures var site' := TriggerRun(replay, busy, runId, trigger, events, work, tape, site).0;
      && site'.db.log == site.db.log + rows && site'.ticks == site.ticks + 2 + |rows|
      && Tells(rows, replay, |site.db.runs| + 1, work) && Stamped(rows, runId, tape, site.ticks + 2)
  {
    hide RunExists, RunRows, Tells, Stamped;
    SequencesCountUp(site.db.runs);
    var ctx := Context(runId, NextSequence(site.db), trigger);
    rows := RunRows(replay, ctx, work, tape, site.ticks + 2);
    RunRowsTell(replay, ctx, work, tape, site.ticks + 2);
  }

  // Histories.

  /** The tables of runs are as they were. */
  ghost predicate NoRun(db: Db, db': Db) {
    db'.runs == db.runs && db'.inputs == db.inputs && db'.outputs == db.outputs && db'.calls == db.calls
  }

  /** The work of a step that may run one, and the id and trigger it runs under. */
  function RunOf(step: Step): Option<(string, TriggerType, Work)> {
    match step
    case Submit(_, _, runId, work) => Some((runId, EventRun, work))
    case OtherRun(_, runId, trigger, work) => Some((runId, trigger, work))
    case CrashAfterInsert(_) => None
    case CrashAfterAccept(_) => None
    case CrashAfterRun(_, _, runId, work) => Some((runId, EventRun, work))
  }

  /** The commit of a step that runs over the given events. */
  function CommitOf(step: Step, events: Option<seq<MacroEvent>>): Commit
    requires RunOf(step).Some? && RunOf(step).value.2.Completes?
  {
    var (runId, trigger, work) := RunOf(step).value;
    Commit(runId, trigger, work.degraded, IngestOf(work, events), work.document, work.calls)
  }

  /** The step commits its run, over whatever events it is given. */
  ghost predicate GainsStep(db: Db, db': Db, step: Step) {
    && RunOf(step).Some? && RunOf(step).value.2.Completes?
    && exists events :: Gains(db, db', CommitOf(step, events))
  }

  lemma TriggerGains(busy: bool, runId: string, trigger: TriggerType, events: Option<seq<MacroEvent>>, work: Work,
                     tape: Tape, site: Site)
    requires Ledger(site.db)
    ensures var db' := TriggerRun(false, busy, runId, trigger, events, work, tape, site).0.db;
      if GoesThrough(site.db, busy, runId, work)
      then Gains(site.db, db', Commit(runId, trigger, work.degraded, IngestOf(work, events), work.document, work.calls))
      else NoRun(site.db, db')
  {
    hide RunRows, MaxSequence, RunExists, Ledger;
    if GoesThrough(site.db, busy, runId, work) {
      RunIsStored(false, busy, runId, trigger, events, work, tape, site);
    }
  }

  lemma GainsBetween(db: Db, accepted: Db, ran: Db, db': Db, c: Commit)
    requires NoRun(db, accepted) && NoRun(ran, db')
    ensures Gains(accepted, ran, c) ==> Gains(db, db', c)
    ensures NoRun(accepted, ran) ==> NoRun(db, db')
  {}

  /** The run of a submission over the pending events, once its event is accepted. */
  lemma AcceptedGains(cooldown: nat, event: MacroEvent, busy: bool, runId: string, work: Work, tape: Tape, site: Site)
    requires Ledger(site.db) && Debounced(site.db, cooldown)
    ensures var accepted := Accepted(event, tape, site);
      var pending := Some(Pending(accepted.db));
      var ran := TriggerRun(false, busy, runId, EventRun, pending, work, tape, accepted).0.db;
      && NoRun(site.db, accepted.db)
      && if GoesThrough(accepted.db, busy, runId, work)
         then Gains(accepted.db, ran, Commit(runId, EventRun, work.degraded, IngestOf(work, pending), work.document, work.calls))
         else NoRun(accepted.db, ran)
  {
    hide Debounced, Ledger, Pending, FindEvent, Gains, GoesThrough, TriggerRun;
    AcceptKeepsBoth(cooldown, event, tape, site);
    var accepted := Accepted(event, tape, site);
    TriggerGains(busy, runId, EventRun, Some(Pending(accepted.db)), work, tape, accepted);
  }

  /** A submission ends as it was accepted, or as its batch ran, up to log rows. */
  lemma SubmissionTables(cooldown: nat, event: MacroEvent, busy: bool, runId: string, work: Work, tape: Tape, site: Site)
    ensures var accepted, db' := Accepted(event, tape, site), SubmitEvent(cooldown, event, busy, false, runId, work, tape, site).0.db;
      || NoRun(accepted.db, db')
      || NoRun(TriggerRun(false, busy, runId, EventRun, Some(Pending(accepted.db)), work, tape, accepted).0.db, db')
  {
    hide TriggerRun, Pending, FindEvent, InCoolDown, Surprise, Ids;
  }

  /** A step commits the run it brings, whole, or leaves the tables of runs alone. */
  lemma StepGains(cooldown: nat, step: Step, tape: Tape, site: Site)
    requires Ledger(site.db) && Debounced(site.db, cooldown)
    ensures GainsStep(site.db, Take(cooldown, step, tape, site).db, step) || NoRun(site.db, Take(cooldown, step, tape, site).db)
  {
    hide TriggerRun, Ledger, Debounced, Pending, FindEvent, InCoolDown, Gains, Surprise, SubmitEvent, Accepted;
    var db' := Take(cooldown, step, tape, site).db;
    match step {
      case Submit(event, busy, runId, work) =>
        SubmissionTables(cooldown, event, busy, runId, work, tape, site);
        BatchGains(cooldown, step, event, busy, runId, work, tape, site, db');
      case OtherRun(busy, runId, trigger, work) =>
        TriggerGains(busy, runId, trigger, None, work, tape, site);
        if GoesThrough(site.db, busy, runId, work) {
          assert Gains(site.db, db', CommitOf(step, None));
        }
      case CrashAfterInsert(event) =>
        AcceptedGains(cooldown, event, true, "", IngestRaises(""), tape, site);
      case CrashAfterAccept(event) =>
        AcceptedGains(cooldown, event, true, "", IngestRaises(""), tape, site);
      case CrashAfterRun(event, busy, runId, work) =>
        BatchGains(cooldown, step, event, busy, runId, work, tape, site, db');
    }
  }

  lemma BatchGains(cooldown: nat, step: Step, event: MacroEvent, busy: bool, runId: string, work: Work, tape: Tape, site: Site,
                   db': Db)
    requires Ledger(site.db) && Debounced(site.db, cooldown) && RunOf(step) == Some((runId, EventRun, work))
    requires var accepted := Accepted(event, tape, site);
      || NoRun(accepted.db, db')
      || NoRun(TriggerRun(false, busy, runId, EventRun, Some(Pending(accepted.db)), work, tape, accepted).0.db, db')
    ensures GainsStep(site.db, db', step) || NoRun(site.db, db')
  {
    hide TriggerRun, Ledger, Debounced, Pending, Gains, Accepted;
    AcceptedGains(cooldown, event, busy, runId, work, tape, site);
    var accepted := Accepted(event, tape, site);
    var events := Some(Pending(accepted.db));
    var ran := TriggerRun(false, busy, runId, EventRun, events, work, tape, accepted).0.db;
    if !NoRun(accepted.db, db') && GoesThrough(accepted.db, busy, runId, work) {
      GainsBetween(site.db, accepted.db, ran, db', CommitOf(step, events));
    }
  }

  /** The steps of a history that committed a run, in order. */
  function Committed(cooldown: nat, steps: seq<Step>, tape: Tape): seq<Step> {
    if steps == [] then []
    else
      var front, last := steps[..|steps| - 1], steps[|steps| - 1];
      Committed(cooldown, front, tape)
      + if |Run(cooldown, steps, tape).db.runs| > |Run(cooldown, front, tape).db.runs| then [last] else []
  }

  /** The calls of the runs, one run after the other. */
  function CallsOf(committed: seq<Step>): seq<CallRow> {
    if committed == [] then []
    else
      var last := RunOf(committed[|committed| - 1]);
      CallsOf(committed[..|committed| - 1]) + if last.Some? && last.value.2.Completes? then last.value.2.calls else []
  }

  /** Row `i` of every table is what step `committed[i]` brought. */
  ghost predicate Stores(db: Db, committed: seq<Step>, i: nat)
    requires i < |committed| == |db.runs| == |db.inputs| == |db.outputs|
  {
    && RunOf(committed[i]).Some? && RunOf(committed[i]).value.2.Completes?
    && var (runId, trigger, work) := RunOf(committed[i]).value;
       && db.runs[i] == RunRow(runId, i + 1, trigger, work.degraded)
       && db.inputs[i].runId == runId && db.inputs[i].ingest.snapshots == work.ingest.snapshots
       && db.outputs[i].runId == runId && db.outputs[i].document == work.document
  }

  ghost predicate StoresAll(db: Db, committed: seq<Step>) {
    && |committed| == |db.runs| == |db.inputs| == |db.outputs|
    && (forall i :: 0 <= i < |committed| ==> Stores(db, committed, i))
    && db.calls == CallsOf(committed)
  }

  lemma GainStores(db: Db, db': Db, committed: seq<Step>, step: Step)
    requires StoresAll(db, committed) && GainsStep(db, db', step)
    ensures StoresAll(db', committed + [step])
  {
    var events :| Gains(db, db', CommitOf(step, events));
    var all := committed + [step];
    assert all[..|all| - 1] == committed;
    forall i | 0 <= i < |all| ensures Stores(db', all, i) {
      if i < |committed| {
        assert Stores(db, committed, i);
      }
    }
  }

  /**
   * Over every history, crashes included, the tables hold exactly the committed runs, each with its
   * own trigger, inputs, document and degradation, and the stored Call Records are theirs, one run
   * after the other.
   */
  lemma {:induction false} HistoryStoresEveryRun(cooldown: nat, steps: seq<Step>, tape: Tape)
    requires Monotone(tape)
    ensures StoresAll(Run(cooldown, steps, tape).db, Committed(cooldown, steps, tape))
  {
    hide Take, StoresAll, GainsStep;
    if steps == [] {
      NothingStored();
    } else {
      var front, last := steps[..|steps| - 1], steps[|steps| - 1];
      HistoryStoresEveryRun(cooldown, front, tape);
      EveryHistoryIsDebounced(cooldown, front, tape);
      var site := Run(cooldown, front, tape);
      StepGains(cooldown, last, tape, site);
      var db' := Take(cooldown, last, tape, site).db;
      if GainsStep(site.db, db', last) {
        GainGrows(site.db, db', last);
        GainStores(site.db, db', Committed(cooldown, front, tape), last);
      } else {
        assert Committed(cooldown, front, tape) + [] == Committed(cooldown, front, tape);
        SameStores(site.db, db', Committed(cooldown, front, tape));
      }
    }
  }

  lemma NothingStored()
    ensures StoresAll(EMPTY, [])
  {}

  lemma GainGrows(db: Db, db': Db, step: Step)
    requires GainsStep(db, db', step)
    ensures |db'.runs| == |db.runs| + 1
  {}

  lemma SameStores(db: Db, db': Db, committed: seq<Step>)
    requires StoresAll(db, committed) && NoRun(db, db')
    ensures StoresAll(db', committed)
  {
    forall i | 0 <= i < |committed| ensures Stores(db', committed, i) {
      assert Stores(db, committed, i);
    }
  }
}
