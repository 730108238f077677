/** Comparison of two traces on the replay-critical fields. */
module ReplayVerification {
  import opened Common
  import opened Reasoning

  datatype Field =
    | RunIdField | JobField | AttemptIndexField | ProviderField | ModelField
    | PromptVersionField | PromptHashField | ResponseHashField | OutcomeField

  datatype FieldValue =
    | TextValue(text: string)
    | JobValue(job: Job)
    | IndexValue(index: nat)
    | HashValue(hash: Option<string>)
    | OutcomeValue(outcome: Outcome)

  datatype Diff =
    | CountDiff(recorded: nat, replayed: nat)
    | FieldDiff(at: nat, field: Field, before: FieldValue, after: FieldValue)

  const COMPARED: seq<Field> := [
    RunIdField, JobField, AttemptIndexField, ProviderField, ModelField,
    PromptVersionField, PromptHashField, ResponseHashField, OutcomeField]

  function Get(r: CallRecord, field: Field): FieldValue {
    match field
    case RunIdField => TextValue(r.runId)
    case JobField => JobValue(r.job)
    case AttemptIndexField => IndexValue(r.attemptIndex)
    case ProviderField => TextValue(r.provider)
    case ModelField => TextValue(r.modelId)
    case PromptVersionField => TextValue(r.promptVersion)
    case PromptHashField => TextValue(r.promptHash)
    case ResponseHashField => HashValue(r.responseHash)
    case OutcomeField => OutcomeValue(r.outcome)
  }

  datatype Verification = Verification(matched: bool, compared: nat, diffs: seq<Diff>)

  /** The diffs of the first `n` compared fields of one pair, in field order. */
  function PairDiffs(at: nat, a: CallRecord, b: CallRecord, n: nat): seq<Diff>
    requires n <= |COMPARED|
  {
    if n == 0 then []
    else
      var field := COMPARED[n - 1];
      PairDiffs(at, a, b, n - 1)
      + if Get(a, field) != Get(b, field) then [FieldDiff(at, field, Get(a, field), Get(b, field))] else []
  }

  /** The diffs of the first `n` pairs, in order. */
  function FirstDiffs(recorded: seq<CallRecord>, replayed: seq<CallRecord>, n: nat): seq<Diff>
    requires n <= |recorded| && n <= |replayed|
  {
    if n == 0 then []
    else FirstDiffs(recorded, replayed, n - 1)
         + PairDiffs(n - 1, recorded[n - 1], replayed[n - 1], |COMPARED|)
  }

  function Shorter(recorded: seq<CallRecord>, replayed: seq<CallRecord>): nat {
    if |recorded| < |replayed| then |recorded| else |replayed|
  }

  function AllDiffs(recorded: seq<CallRecord>, replayed: seq<CallRecord>): seq<Diff> {
    (if |recorded| != |replayed| then [CountDiff(|recorded|, |replayed|)] else [])
    + FirstDiffs(recorded, replayed, Shorter(recorded, replayed))
  }

  method ComparePair(at: nat, a: CallRecord, b: CallRecord) returns (diffs: seq<Diff>)
    ensures diffs == PairDiffs(at, a, b, |COMPARED|)
  {
    diffs := [];
    for k := 0 to |COMPARED|
      invariant diffs == PairDiffs(at, a, b, k)
    {
      var was, now := Get(a, COMPARED[k]), Get(b, COMPARED[k]);
      if was != now {
        diffs := diffs + [FieldDiff(at, COMPARED[k], was, now)];
      }
    }
  }

  method VerifyReplay(recorded: seq<CallRecord>, replayed: seq<CallRecord>) returns (v: Verification)
    ensures v.diffs == AllDiffs(recorded, replayed)
    ensures v.compared == Shorter(recorded, replayed)
    ensures v.matched <==> v.diffs == []
  {
    var counted := if |recorded| != |replayed| then [CountDiff(|recorded|, |replayed|)] else [];
    var n := Shorter(recorded, replayed);
    var diffs := [];
    for i := 0 to n
      invariant diffs == FirstDiffs(recorded, replayed, i)
    {
      var found := ComparePair(i, recorded[i], replayed[i]);
      diffs := diffs + found;
    }
    diffs := counted + diffs;
    v := Verification(diffs == [], n, diffs);
  }

  /** Two records agree on everything the check looks at. */
  predicate SameReplay(a: CallRecord, b: CallRecord) {
    && a.runId == b.runId && a.job == b.job && a.attemptIndex == b.attemptIndex
    && a.provider == b.provider && a.modelId == b.modelId
    && a.promptVersion == b.promptVersion && a.promptHash == b.promptHash
    && a.responseHash == b.responseHash && a.outcome == b.outcome
  }

  lemma PairDiffsEmpty(at: nat, a: CallRecord, b: CallRecord)
    ensures PairDiffs(at, a, b, |COMPARED|) == [] <==> SameReplay(a, b)
  {
    PairDiffsByField(at, a, b, |COMPARED|);
    if PairDiffs(at, a, b, |COMPARED|) == [] {
      assert Get(a, COMPARED[0]) == Get(b, COMPARED[0]) && Get(a, COMPARED[1]) == Get(b, COMPARED[1]);
      assert Get(a, COMPARED[2]) == Get(b, COMPARED[2]) && Get(a, COMPARED[3]) == Get(b, COMPARED[3]);
      assert Get(a, COMPARED[4]) == Get(b, COMPARED[4]) && Get(a, COMPARED[5]) == Get(b, COMPARED[5]);
      assert Get(a, COMPARED[6]) == Get(b, COMPARED[6]) && Get(a, COMPARED[7]) == Get(b, COMPARED[7]);
      assert Get(a, COMPARED[8]) == Get(b, COMPARED[8]);
    }
  }

  lemma {:induction false} PairDiffsByField(at: nat, a: CallRecord, b: CallRecord, n: nat)
    requires n <= |COMPARED|
    ensures PairDiffs(at, a, b, n) == [] <==> forall k :: 0 <= k < n ==> Get(a, COMPARED[k]) == Get(b, COMPARED[k])
  {
    if n > 0 {
      PairDiffsByField(at, a, b, n - 1);
    }
  }

  lemma {:induction false} FirstDiffsEmpty(recorded: seq<CallRecord>, replayed: seq<CallRecord>, n: nat)
    requires n <= |recorded| && n <= |replayed|
    ensures FirstDiffs(recorded, replayed, n) == [] <==>
      forall i :: 0 <= i < n ==> SameReplay(recorded[i], replayed[i])
  {
    if n > 0 {
      FirstDiffsEmpty(recorded, replayed, n - 1);
      PairDiffsEmpty(n - 1, recorded[n - 1], replayed[n - 1]);
    }
  }

  /** The difference is there: in the number of records, or in a compared field of a pair. */
  predicate Differs(recorded: seq<CallRecord>, replayed: seq<CallRecord>, d: Diff) {
    match d
    case CountDiff(was, now) => was == |recorded| && now == |replayed| && was != now
    case FieldDiff(at, field, before, after) =>
      && at < |recorded| && at < |replayed|
      && before == Get(recorded[at], field) && after == Get(replayed[at], field) && before != after
  }

  lemma {:induction false} PairDiffsExactly(at: nat, a: CallRecord, b: CallRecord, n: nat, d: Diff)
    requires n <= |COMPARED|
    ensures d in PairDiffs(at, a, b, n) <==>
      && d.FieldDiff? && d.at == at && d.field in COMPARED[..n]
      && d.before == Get(a, d.field) && d.after == Get(b, d.field) && d.before != d.after
  {
    hide Get;
    if n > 0 {
      PairDiffsExactly(at, a, b, n - 1, d);
      assert COMPARED[..n] == COMPARED[..n - 1] + [COMPARED[n - 1]];
    }
  }

  lemma EveryFieldIsCompared(field: Field)
    ensures field in COMPARED[..|COMPARED|]
  {
    var k := match field
      case RunIdField => 0 case JobField => 1 case AttemptIndexField => 2 case ProviderField => 3 case ModelField => 4
      case PromptVersionField => 5 case PromptHashField => 6 case ResponseHashField => 7 case OutcomeField => 8;
    assert COMPARED[k] == field;
  }

  lemma {:induction false} FirstDiffsExactly(recorded: seq<CallRecord>, replayed: seq<CallRecord>, n: nat, d: Diff)
    requires n <= |recorded| && n <= |replayed|
    ensures d in FirstDiffs(recorded, replayed, n) <==> d.FieldDiff? && d.at < n && Differs(recorded, replayed, d)
  {
    hide Get, PairDiffs;
    if n > 0 {
      FirstDiffsExactly(recorded, replayed, n - 1, d);
      PairDiffsExactly(n - 1, recorded[n - 1], replayed[n - 1], |COMPARED|, d);
      if d.FieldDiff? {
        EveryFieldIsCompared(d.field);
      }
    }
  }

  /** The check reports every difference there is, with both values, and nothing else. */
  lemma DiffsExactly(recorded: seq<CallRecord>, replayed: seq<CallRecord>, d: Diff)
    ensures d in AllDiffs(recorded, replayed) <==> Differs(recorded, replayed, d)
  {
    hide Get, FirstDiffs;
    FirstDiffsExactly(recorded, replayed, Shorter(recorded, replayed), d);
  }

  /** No diff is reported exactly when the traces have equal length and agree record by record. */
  lemma NoDiffMeansSameTrace(recorded: seq<CallRecord>, replayed: seq<CallRecord>)
    ensures AllDiffs(recorded, replayed) == [] <==>
      && |recorded| == |replayed|
      && forall i :: 0 <= i < |recorded| ==> SameReplay(recorded[i], replayed[i])
  {
    FirstDiffsEmpty(recorded, replayed, Shorter(recorded, replayed));
  }
}

/**
 * Record, then replay: a gateway with fresh breakers whose only adapters serve the records of a run
 * reproduces that run, whatever the live adapters, breakers and clock did.
 *
 * A session is the sequence of jobs of one run, where each request may depend on the answers so far
 * (synthesis is asked about a state that sentiment has entered).
 */
module ReplayTheorem {
  import opened Common
  import opened Folds
  import opened MonotonicClock
  import opened CircuitBreakers
  import opened Reasoning
  import opened Adapters
  import opened Gateway
  import opened Failover
  import opened ReplayVerification
  import opened Sessions
  import opened Streaks
  import Router

  // What is reproduced.

  /** The outcome under which a recorded attempt comes back, given the provider's retry budget. */
  function ReplayedOutcome(outcome: Outcome, retries: nat): Outcome {
    match outcome
    case Success => Success
    case Error => Error
    case CircuitOpen => Error
    case Timeout => if retries == 0 then Timeout else Error
  }

  /** The replayed record: the recorded one except for latency, retries used and the given outcome. */
  ghost predicate Reproduces(recorded: CallRecord, replayed: CallRecord, outcome: Outcome) {
    && replayed.outcome == outcome
    && recorded == replayed.(outcome := recorded.outcome, latencyMs := recorded.latencyMs, retries := recorded.retries)
  }

  /** Same response, or degraded at the same provider; only the wording of the reason may differ. */
  ghost predicate SameAnswer(a: JobAnswer, b: JobAnswer) {
    match a
    case Answered(data) => b == a
    case Degraded(job, _, provider, model) =>
      b.Degraded? && b.job == job && b.lastProvider == provider && b.lastModel == model
  }

  // The replaying side.

  ghost predicate OnlyReplaying(w: World) {
    forall n :: n in w.adapters ==> w.adapters[n].Replaying?
  }

  /** What the replaying adapters still hold for a provider and a prompt. */
  ghost function Held(w: World, name: string, hash: string): seq<CallRecord>
    requires OnlyReplaying(w)
  {
    if name in w.adapters then QueueFor(w.adapters[name].queues, hash) else []
  }

  /** No entry changes except possibly the one of this provider and prompt. */
  ghost predicate OnlyServes(before: World, after: World, name: string, hash: string)
    requires OnlyReplaying(before) && OnlyReplaying(after)
  {
    forall n, h :: n != name || h != hash ==> Held(after, n, h) == Held(before, n, h)
  }

  /** The replay clock never moves by more than a provider's deadline between two reads. */
  ghost predicate WithinDeadlines(s: Settings, tape: Tape) {
    forall k: nat, p :: p in s.providers ==> tape(k + 1) - tape(k) <= s.TimeoutMs(p)
  }

  lemma ReplayAttempt(s: Settings, tape: Tape, p: ProviderCfg, hash: string, w: World)
    requires OnlyReplaying(w) && WithinDeadlines(s, tape) && p in s.providers
    ensures var (tried, w') := Attempt(s, tape, p, hash, w);
      && OnlyReplaying(w') && OnlyServes(w, w', p.name, hash)
      && (if Held(w, p.name, hash) == []
          then tried == Raised(CallError) && Held(w', p.name, hash) == []
          else
            && Held(w', p.name, hash) == Held(w, p.name, hash)[1..]
            && match FromRecord(s.codec, Held(w, p.name, hash)[0])
               case Raises(failure) => tried == Raised(failure)
               case Reply(result) => tried.Got? && tried.result == result)
  {
    if p.name in w.adapters {
      assert tape(w.ticks + 1) - tape(w.ticks) <= s.TimeoutMs(p);
    }
  }

  /** With nothing left to serve, every further attempt is a plain call error. */
  lemma {:induction false} RetryOnEmpty(s: Settings, tape: Tape, p: ProviderCfg, hash: string, i: nat, w: World)
    requires OnlyReplaying(w) && WithinDeadlines(s, tape) && p in s.providers
    requires Held(w, p.name, hash) == []
    ensures var run := Retry(s, tape, p, hash, i, w);
      && run.last == Raised(CallError)
      && OnlyReplaying(run.world) && OnlyServes(w, run.world, p.name, hash) && Held(run.world, p.name, hash) == []
    decreases s.Retries(p) - i
  {
    ReplayAttempt(s, tape, p, hash, w);
    if i < s.Retries(p) {
      RetryOnEmpty(s, tape, p, hash, i + 1, Attempt(s, tape, p, hash, w).1);
    }
  }

  /**
   * Retrying on one held record: a success is served at once, an error stays an error, and a timeout
   * survives only when there is no retry to find the queue empty.
   */
  lemma RetryOnRecord(s: Settings, tape: Tape, p: ProviderCfg, hash: string, w: World, record: CallRecord)
    requires OnlyReplaying(w) && WithinDeadlines(s, tape) && p in s.providers
    requires Held(w, p.name, hash) == [record]
    ensures var run := Retry(s, tape, p, hash, 0, w);
      && OnlyReplaying(run.world) && OnlyServes(w, run.world, p.name, hash) && Held(run.world, p.name, hash) == []
      && (match FromRecord(s.codec, record)
          case Reply(result) => run.last.Got? && run.last.result == result
          case Raises(_) =>
            && run.last.Raised?
            && run.last.failure == if ReplayedOutcome(record.outcome, s.Retries(p)).Timeout? then TimedOut else CallError)
  {
    ReplayAttempt(s, tape, p, hash, w);
    var (tried, w') := Attempt(s, tape, p, hash, w);
    if tried.Raised? && 0 < s.Retries(p) {
      RetryOnEmpty(s, tape, p, hash, 1, w');
    }
  }

  // One provider.

  /** What a live visit can have left behind, as seen by the replay of the same request. */
  ghost predicate RecordOf(s: Settings, req: Request, i: nat, p: ProviderCfg, record: CallRecord) {
    && HonestRecord(s, record)
    && record.job == req.job
    && match record.outcome
       case Success =>
         && record.response.Some? && s.codec.parse(s.codec.dump(record.response.value)) == record.response
         && record == SuccessRecord(s, req, i, p,
              RawResult("", record.inputTokens, record.outputTokens, record.finishReason),
              record.response.value, record.latencyMs, record.retries)
       case _ => record == FailureRecord(s, req, i, p, record.outcome, record.latencyMs)
  }

  lemma VisitLeavesRecord(s: Settings, tape: Tape, req: Request, i: nat, p: ProviderCfg, st: Stage)
    requires s.codec.Lawful()
    ensures RecordOf(s, req, i, p, Visit(s, tape, req, i, p, st).record)
  {}

  lemma ReplayCall(s: Settings, tape: Tape, req: Request, i: nat, p: ProviderCfg, w: World, record: CallRecord)
    requires s.codec.Lawful() && WithinDeadlines(s, tape) && p in s.providers
    requires OnlyReplaying(w) && Held(w, p.name, req.prompt.hash) == [record]
    requires RecordOf(s, req, i, p, record)
    ensures var call := TryProvider(s, tape, req, i, p, w);
      && OnlyReplaying(call.world) && OnlyServes(w, call.world, p.name, req.prompt.hash)
      && Held(call.world, p.name, req.prompt.hash) == []
      && Reproduces(record, call.record, ReplayedOutcome(record.outcome, s.Retries(p)))
      && call.data == record.response
  {
    RetryOnRecord(s, tape, p, req.prompt.hash, w, record);
  }

  /** The outcome after `streak` failures of the provider in a row: an open breaker comes first. */
  function OutcomeAfter(threshold: nat, streak: nat, outcome: Outcome, retries: nat): Outcome {
    if streak >= threshold then CircuitOpen else ReplayedOutcome(outcome, retries)
  }

  /** The replay reaches the record, or skips it behind a breaker that stays open, and nothing is lost by that. */
  ghost predicate Within(s: Settings, tape: Tape, streak: nat, record: CallRecord) {
    streak < s.breaker.failureThreshold || (Stopped(tape) && !record.outcome.Success?)
  }

  lemma ReplayVisit(s: Settings, tape: Tape, req: Request, i: nat, p: ProviderCfg, st: Stage, record: CallRecord,
                    n: nat)
    requires s.Valid() && s.codec.Lawful() && WithinDeadlines(s, tape) && p in s.providers
    requires OnlyReplaying(st.world) && Held(st.world, p.name, req.prompt.hash) == [record]
    requires RecordOf(s, req, i, p, record) && Within(s, tape, n, record)
    requires Follows(s.breaker, tape, BreakerOf(st.breakers, p.name), n)
    ensures var v := Visit(s, tape, req, i, p, st);
      && OnlyReplaying(v.after.world) && OnlyServes(st.world, v.after.world, p.name, req.prompt.hash)
      && Reproduces(record, v.record, OutcomeAfter(s.breaker.failureThreshold, n, record.outcome, s.Retries(p)))
      && v.data == record.response
      && v.after.breakers == st.breakers[p.name := BreakerOf(v.after.breakers, p.name)]
  {
    if n < s.breaker.failureThreshold {
      hide TryProvider, FailAt, FailureRecord, Reproduces, RecordOf;
      ReplayCall(s, tape, req, i, p, st.world, record);
    } else {
      hide TryProvider, FailAt;
      assert tape(st.world.ticks) == tape(0);
    }
  }

  // One job.

  ghost predicate HeldForWalk(w: World, chain: seq<ProviderCfg>, i: nat, hash: string, records: seq<CallRecord>)
    requires OnlyReplaying(w)
  {
    && i + |records| <= |chain|
    && forall k :: 0 <= k < |records| ==> Held(w, chain[i + k].name, hash) == [records[k]]
  }

  /** The breakers of the providers still to come. */
  ghost predicate FollowAlong(s: Settings, tape: Tape, breakers: map<string, Breaker>, chain: seq<ProviderCfg>,
                              i: nat, past: seq<CallRecord>) {
    forall k :: i <= k < |chain| ==> Follows(s.breaker, tape, BreakerOf(breakers, chain[k].name), Streak(past, chain[k].name))
  }

  function OutcomeOn(s: Settings, p: ProviderCfg, past: seq<CallRecord>, record: CallRecord): Outcome {
    OutcomeAfter(s.breaker.failureThreshold, Streak(past, p.name), record.outcome, s.Retries(p))
  }

  ghost predicate TraceReproduced(s: Settings, chain: seq<ProviderCfg>, i: nat, past: seq<CallRecord>,
                                  recorded: seq<CallRecord>, replayed: seq<CallRecord>) {
    && |replayed| == |recorded| && i + |recorded| <= |chain|
    && forall k :: 0 <= k < |recorded| ==> Reproduces(recorded[k], replayed[k], OutcomeOn(s, chain[i + k], past, recorded[k]))
  }

  ghost predicate WalkWithin(s: Settings, tape: Tape, chain: seq<ProviderCfg>, i: nat, past: seq<CallRecord>,
                             records: seq<CallRecord>) {
    && i + |records| <= |chain|
    && forall k :: 0 <= k < |records| ==> Within(s, tape, Streak(past, chain[i + k].name), records[k])
  }

  /** Entries for other prompts are left alone. */
  ghost predicate Undisturbed(before: World, after: World, hash: string)
    requires OnlyReplaying(before) && OnlyReplaying(after)
  {
    forall name, h :: h != hash ==> Held(after, name, h) == Held(before, name, h)
  }

  lemma {:induction false} ReplayWalk(s: Settings, live: Tape, tape: Tape, req: Request, chain: seq<ProviderCfg>,
                                      i: nat, soFar: JobAnswer, soFar': JobAnswer, st: Stage, st': Stage,
                                      past: seq<CallRecord>)
    requires s.Valid() && s.codec.Lawful() && WithinDeadlines(s, tape) && OnlyReplaying(st'.world)
    requires i <= |chain| && Router.UniqueNames(chain) && forall p :: p in chain ==> p in s.providers
    requires soFar.Degraded? && SameAnswer(soFar, soFar')
    requires HeldForWalk(st'.world, chain, i, req.prompt.hash, Walk(s, live, req, chain, i, soFar, st).records)
    requires FollowAlong(s, tape, st'.breakers, chain, i, past)
    requires WalkWithin(s, tape, chain, i, past, Walk(s, live, req, chain, i, soFar, st).records)
    ensures var w, w' := Walk(s, live, req, chain, i, soFar, st), Walk(s, tape, req, chain, i, soFar', st');
      && OnlyReplaying(w'.after.world) && Undisturbed(st'.world, w'.after.world, req.prompt.hash)
      && TraceReproduced(s, chain, i, past, w.records, w'.records)
      && SameAnswer(w.answer, w'.answer)
    decreases |chain| - i
  {
    hide Visit, RecordOf, HonestRecord, Reproduces, OutcomeOn, OnlyServes, Held, Follows, Within, BreakerOf, Undisturbed,
      Router.UniqueNames;
    if i < |chain| {
      var w := Walk(s, live, req, chain, i, soFar, st);
      var v, v' := Visit(s, live, req, i, chain[i], st), Visit(s, tape, req, i, chain[i], st');
      assert Held(st'.world, chain[i + 0].name, req.prompt.hash) == [w.records[0]] && w.records[0] == v.record;
      assert Within(s, tape, Streak(past, chain[i + 0].name), w.records[0]);
      VisitLeavesRecord(s, live, req, i, chain[i], st);
      VisitIsHonest(s, live, req, i, chain[i], st);
      VisitReplays(s, tape, req, i, chain[i], st', v.record, past);
      assert v'.data == v.data;
      FollowAfterVisit(s, tape, st'.breakers, v'.after.breakers, chain, i, past);
      if v.data.None? {
        var d := Degraded(req.job, v.reason, chain[i].name, s.ModelFor(chain[i], req.job));
        var d' := Degraded(req.job, v'.reason, chain[i].name, s.ModelFor(chain[i], req.job));
        var rest := Walk(s, live, req, chain, i + 1, d, v.after);
        HeldAfterVisit(st'.world, v'.after.world, chain, i, req.prompt.hash, v.record, rest.records);
        WithinRest(s, tape, chain, i, past, v.record, rest.records);
        ReplayWalk(s, live, tape, req, chain, i + 1, d, d', v.after, v'.after, past);
        var rest' := Walk(s, tape, req, chain, i + 1, d', v'.after);
        TraceReproducedCons(s, chain, i, past, v.record, v'.record, rest.records, rest'.records);
        UndisturbedCons(st'.world, v'.after.world, rest'.after.world, chain[i].name, req.prompt.hash);
      } else {
        TraceReproducedCons(s, chain, i, past, v.record, v'.record, [], []);
        UndisturbedRefl(v'.after.world, req.prompt.hash);
        UndisturbedCons(st'.world, v'.after.world, v'.after.world, chain[i].name, req.prompt.hash);
      }
    } else {
      UndisturbedRefl(st'.world, req.prompt.hash);
    }
  }

  lemma VisitReplays(s: Settings, tape: Tape, req: Request, i: nat, p: ProviderCfg, st: Stage, record: CallRecord,
                     past: seq<CallRecord>)
    requires s.Valid() && s.codec.Lawful() && WithinDeadlines(s, tape) && p in s.providers
    requires OnlyReplaying(st.world) && Held(st.world, p.name, req.prompt.hash) == [record]
    requires RecordOf(s, req, i, p, record) && Within(s, tape, Streak(past, p.name), record)
    requires Follows(s.breaker, tape, BreakerOf(st.breakers, p.name), Streak(past, p.name))
    ensures var v := Visit(s, tape, req, i, p, st);
      && OnlyReplaying(v.after.world) && OnlyServes(st.world, v.after.world, p.name, req.prompt.hash)
      && Reproduces(record, v.record, OutcomeOn(s, p, past, record))
      && v.data == record.response
      && v.after.breakers == st.breakers[p.name := BreakerOf(v.after.breakers, p.name)]
  {
    hide Visit, RecordOf, Reproduces, OnlyServes, Held, Follows, Within;
    ReplayVisit(s, tape, req, i, p, st, record, Streak(past, p.name));
  }

  lemma WithinRest(s: Settings, tape: Tape, chain: seq<ProviderCfg>, i: nat, past: seq<CallRecord>, record: CallRecord,
                   rest: seq<CallRecord>)
    requires WalkWithin(s, tape, chain, i, past, [record] + rest)
    ensures WalkWithin(s, tape, chain, i + 1, past, rest)
  {
    hide Within;
    forall k | 0 <= k < |rest| ensures Within(s, tape, Streak(past, chain[i + 1 + k].name), rest[k]) {
      assert ([record] + rest)[k + 1] == rest[k];
      assert Within(s, tape, Streak(past, chain[i + (k + 1)].name), ([record] + rest)[k + 1]);
    }
  }

  lemma UndisturbedRefl(w: World, hash: string)
    requires OnlyReplaying(w)
    ensures Undisturbed(w, w, hash)
  {}

  lemma UndisturbedCons(before: World, middle: World, after: World, name: string, hash: string)
    requires OnlyReplaying(before) && OnlyReplaying(middle) && OnlyReplaying(after)
    requires OnlyServes(before, middle, name, hash) && Undisturbed(middle, after, hash)
    ensures Undisturbed(before, after, hash)
  {}

  lemma HeldAfterVisit(w: World, w': World, chain: seq<ProviderCfg>, i: nat, hash: string, record: CallRecord,
                       rest: seq<CallRecord>)
    requires OnlyReplaying(w) && OnlyReplaying(w') && i < |chain| && Router.UniqueNames(chain)
    requires HeldForWalk(w, chain, i, hash, [record] + rest) && OnlyServes(w, w', chain[i].name, hash)
    ensures HeldForWalk(w', chain, i + 1, hash, rest)
  {
    forall k | 0 <= k < |rest| ensures Held(w', chain[i + 1 + k].name, hash) == [rest[k]] {
      assert ([record] + rest)[k + 1] == rest[k];
      assert Held(w, chain[i + (k + 1)].name, hash) == [rest[k]];
    }
  }

  lemma FollowAfterVisit(s: Settings, tape: Tape, breakers: map<string, Breaker>, after: map<string, Breaker>,
                         chain: seq<ProviderCfg>, i: nat, past: seq<CallRecord>)
    requires i < |chain| && Router.UniqueNames(chain) && FollowAlong(s, tape, breakers, chain, i, past)
    requires after == breakers[chain[i].name := BreakerOf(after, chain[i].name)]
    ensures FollowAlong(s, tape, after, chain, i + 1, past)
  {
    hide Follows;
    forall k | i + 1 <= k < |chain|
      ensures Follows(s.breaker, tape, BreakerOf(after, chain[k].name), Streak(past, chain[k].name))
    {
      assert chain[k].name != chain[i].name;
      assert Follows(s.breaker, tape, BreakerOf(breakers, chain[k].name), Streak(past, chain[k].name));
    }
  }

  lemma TraceReproducedCons(s: Settings, chain: seq<ProviderCfg>, i: nat, past: seq<CallRecord>, r: CallRecord,
                            r': CallRecord, rest: seq<CallRecord>, rest': seq<CallRecord>)
    requires i < |chain| && Reproduces(r, r', OutcomeOn(s, chain[i], past, r))
    requires TraceReproduced(s, chain, i + 1, past, rest, rest')
    ensures TraceReproduced(s, chain, i, past, [r] + rest, [r'] + rest')
  {
    hide Reproduces, OutcomeOn;
    var a, b := [r] + rest, [r'] + rest';
    forall k | 0 <= k < |rest| + 1 ensures Reproduces(a[k], b[k], OutcomeOn(s, chain[i + k], past, a[k])) {
      if k > 0 {
        assert Reproduces(rest[k - 1], rest'[k - 1], OutcomeOn(s, chain[i + 1 + (k - 1)], past, rest[k - 1]));
      }
    }
  }

  // A session.

  ghost predicate HeldForSession(w: World, run: SessionRun)
    requires OnlyReplaying(w)
  {
    && |run.traces| == |run.asked|
    && forall t, k :: 0 <= t < |run.traces| && 0 <= k < |run.traces[t]| ==>
         Held(w, run.traces[t][k].provider, run.asked[t].prompt.hash) == [run.traces[t][k]]
  }

  /** The retry budget of the named provider. */
  function RetryBudget(s: Settings, providers: seq<ProviderCfg>, name: string): nat {
    if providers == [] then 0
    else if providers[0].name == name then s.Retries(providers[0])
    else RetryBudget(s, providers[1..], name)
  }

  lemma {:induction false} BudgetIsRetries(s: Settings, providers: seq<ProviderCfg>, p: ProviderCfg)
    requires Router.UniqueNames(providers) && p in providers
    ensures RetryBudget(s, providers, p.name) == s.Retries(p)
  {
    if providers[0] != p {
      assert p in providers[1..];
      BudgetIsRetries(s, providers[1..], p);
    }
  }

  /** The outcome under which a record comes back that was left after the records `before`. */
  function OutcomeAt(s: Settings, before: seq<CallRecord>, record: CallRecord): Outcome {
    OutcomeAfter(s.breaker.failureThreshold, Streak(before, record.provider), record.outcome,
                 RetryBudget(s, s.providers, record.provider))
  }

  ghost predicate RecordsReproduced(s: Settings, past: seq<CallRecord>, recorded: seq<CallRecord>, replayed: seq<CallRecord>) {
    && |replayed| == |recorded|
    && forall k :: 0 <= k < |recorded| ==>
         Reproduces(recorded[k], replayed[k], OutcomeAt(s, past + recorded[..k], recorded[k]))
  }

  ghost predicate SessionReproduced(s: Settings, live: SessionRun, replay: SessionRun) {
    && SameShape(live, replay)
    && RecordsReproduced(s, [], Flatten(live.traces), Flatten(replay.traces))
  }

  /** Every record is reached by the replay, or lost nothing by being skipped. */
  ghost predicate Replayable(s: Settings, tape: Tape, past: seq<CallRecord>, records: seq<CallRecord>) {
    forall k :: 0 <= k < |records| ==> Within(s, tape, Streak(past + records[..k], records[k].provider), records[k])
  }

  lemma ReproducedConcat(s: Settings, past: seq<CallRecord>, a: seq<CallRecord>, a': seq<CallRecord>,
                         b: seq<CallRecord>, b': seq<CallRecord>)
    requires RecordsReproduced(s, past, a, a') && RecordsReproduced(s, past + a, b, b')
    ensures RecordsReproduced(s, past, a + b, a' + b')
  {
    hide Reproduces, OutcomeAt;
    var all, all' := a + b, a' + b';
    forall k | 0 <= k < |all| ensures Reproduces(all[k], all'[k], OutcomeAt(s, past + all[..k], all[k])) {
      if k < |a| {
        assert all[..k] == a[..k];
      } else {
        assert past + all[..k] == past + a + b[..k - |a|];
      }
    }
  }

  lemma ReplayableSplit(s: Settings, tape: Tape, past: seq<CallRecord>, a: seq<CallRecord>, b: seq<CallRecord>)
    requires Replayable(s, tape, past, a + b)
    ensures Replayable(s, tape, past, a) && Replayable(s, tape, past + a, b)
  {
    hide Within;
    var all := a + b;
    forall k | 0 <= k < |a| ensures Within(s, tape, Streak(past + a[..k], a[k].provider), a[k]) {
      assert all[..k] == a[..k] && all[k] == a[k];
    }
    forall k | 0 <= k < |b| ensures Within(s, tape, Streak(past + a + b[..k], b[k].provider), b[k]) {
      assert past + all[..|a| + k] == past + a + b[..k] && all[|a| + k] == b[k];
    }
  }

  /** A reproduced trace continues every streak as the recorded one does. */
  lemma ReproducedStreaks(s: Settings, tape: Tape, past: seq<CallRecord>, records: seq<CallRecord>, replayed: seq<CallRecord>,
                          name: string)
    requires Replayable(s, tape, past, records) && RecordsReproduced(s, past, records, replayed)
    ensures Streak(past + replayed, name) == Streak(past + records, name)
  {
    hide Streak, RetryBudget;
    forall k | 0 <= k < |records|
      ensures replayed[k].provider == records[k].provider && (replayed[k].outcome.Success? <==> records[k].outcome.Success?)
    {
      assert Within(s, tape, Streak(past + records[..k], records[k].provider), records[k]);
      assert Reproduces(records[k], replayed[k], OutcomeAt(s, past + records[..k], records[k]));
    }
    StreakDependsOn(past, replayed, records, name);
  }

  lemma ReplayJob(s: Settings, live: Tape, tape: Tape, req: Request, st: Stage, st': Stage, past: seq<CallRecord>)
    requires s.Valid() && s.codec.Lawful() && WithinDeadlines(s, tape) && OnlyReplaying(st'.world)
    requires forall k :: 0 <= k < |RunJob(s, live, req, st).records| ==>
      var record := RunJob(s, live, req, st).records[k];
      Held(st'.world, record.provider, req.prompt.hash) == [record]
    requires AllFollow(s.breaker, tape, st'.breakers, past)
    requires Replayable(s, tape, past, RunJob(s, live, req, st).records)
    ensures var job, job' := RunJob(s, live, req, st), RunJob(s, tape, req, st');
      && OnlyReplaying(job'.after.world)
      && Undisturbed(st'.world, job'.after.world, req.prompt.hash)
      && RecordsReproduced(s, past, job.records, job'.records)
      && SameAnswer(job.answer, job'.answer)
  {
    hide Walk, Reproduces, HonestRecord, AnswerFollowsRecords, RetryBudget, Router.Order, Within, Follows, OutcomeAfter, Streak;
    var chain := ChainFor(s, req.runId);
    ChainVisitsEnabledOnce(s, req.runId);
    FailoverTrace(s, live, req, st);
    JobVisitsOnce(s, live, req, st);
    if chain == [] {
      UndisturbedRefl(st'.world, req.prompt.hash);
    } else {
      var first := BeforeFirst(s, req, chain);
      var job := RunJob(s, live, req, st);
      forall k | 0 <= k < |job.records| ensures Within(s, tape, Streak(past, chain[0 + k].name), job.records[k]) {
        StreakWithinJob(past, job.records, k);
        assert Within(s, tape, Streak(past + job.records[..k], job.records[k].provider), job.records[k]);
      }
      ReplayWalk(s, live, tape, req, chain, 0, first, first, st, st', past);
      var job' := RunJob(s, tape, req, st');
      forall k | 0 <= k < |job.records|
        ensures Reproduces(job.records[k], job'.records[k], OutcomeAt(s, past + job.records[..k], job.records[k]))
      {
        StreakWithinJob(past, job.records, k);
        BudgetIsRetries(s, s.providers, chain[k]);
        assert Reproduces(job.records[k], job'.records[k], OutcomeOn(s, chain[0 + k], past, job.records[k]));
      }
    }
  }

  lemma {:induction false} ReplaySession(s: Settings, live: Tape, tape: Tape, plan: Plan, n: nat,
                                         known: seq<Option<Json>>, st: Stage, st': Stage, past: seq<CallRecord>)
    requires s.Valid() && s.codec.Lawful() && WithinDeadlines(s, tape) && OnlyReplaying(st'.world)
    requires AllFollow(s.breaker, tape, st'.breakers, past)
    requires Replayable(s, tape, past, Flatten(Session(s, live, plan, n, known, st).traces))
    requires DistinctPrompts(Session(s, live, plan, n, known, st).asked)
    requires HeldForSession(st'.world, Session(s, live, plan, n, known, st))
    ensures var run, replay := Session(s, live, plan, n, known, st), Session(s, tape, plan, n, known, st');
      && SameShape(run, replay)
      && RecordsReproduced(s, past, Flatten(run.traces), Flatten(replay.traces))
  {
    hide RunJob, RecordsReproduced, WithinDeadlines, Held, AllFollow, Replayable, Undisturbed, HeldForSession, DistinctPrompts;
    if n == 0 || plan(known).None? {
      NothingToReproduce(s, past);
    } else {
      var req := plan(known).value;
      var whole := Session(s, live, plan, n, known, st);
      var job, job' := RunJob(s, live, req, st), RunJob(s, tape, req, st');
      var known' := known + [DataOf(job.answer)];
      var rest := Session(s, live, plan, n - 1, known', job.after);
      FlattenCons(job.records, rest.traces);
      ReplayableSplit(s, tape, past, job.records, Flatten(rest.traces));
      HeldForFirst(st'.world, req, job, whole, rest);
      ReplayJob(s, live, tape, req, st, st', past);
      HeldForRest(st'.world, job'.after.world, req, job, whole, rest);
      FollowReplayed(s, tape, req, st', past, job.records);
      ReplaySession(s, live, tape, plan, n - 1, known', job.after, job'.after, past + job.records);
      var rest' := Session(s, tape, plan, n - 1, known', job'.after);
      assert DataOf(job'.answer) == DataOf(job.answer);
      FlattenCons(job'.records, rest'.traces);
      ReproducedConcat(s, past, job.records, job'.records, Flatten(rest.traces), Flatten(rest'.traces));
      SameLength(s, past, job.records, job'.records);
      ShapeCons(req, job, job', rest, rest');
    }
  }

  /** The same requests, the same answers, and traces of the same lengths. */
  ghost predicate SameShape(live: SessionRun, replay: SessionRun) {
    && replay.asked == live.asked
    && |live.answers| == |replay.answers| == |live.traces| == |replay.traces| == |live.asked|
    && (forall t :: 0 <= t < |live.answers| ==> SameAnswer(live.answers[t], replay.answers[t]))
    && (forall t :: 0 <= t < |live.traces| ==> |live.traces[t]| == |replay.traces[t]|)
  }

  lemma ShapeCons(req: Request, job: Walked, job': Walked, rest: SessionRun, rest': SessionRun)
    requires SameAnswer(job.answer, job'.answer) && |job.records| == |job'.records| && SameShape(rest, rest')
    ensures SameShape(
      SessionRun([req] + rest.asked, [job.answer] + rest.answers, [job.records] + rest.traces, rest.after),
      SessionRun([req] + rest'.asked, [job'.answer] + rest'.answers, [job'.records] + rest'.traces, rest'.after))
  {
    hide SameAnswer;
    var a, a' := [job.answer] + rest.answers, [job'.answer] + rest'.answers;
    forall t | 0 <= t < |a| ensures SameAnswer(a[t], a'[t]) {
      if t > 0 {
        assert SameAnswer(rest.answers[t - 1], rest'.answers[t - 1]);
      }
    }
    var r, r' := [job.records] + rest.traces, [job'.records] + rest'.traces;
    forall t | 0 <= t < |r| ensures |r[t]| == |r'[t]| {
      if t > 0 {
        assert |rest.traces[t - 1]| == |rest'.traces[t - 1]|;
      }
    }
  }

  lemma NothingToReproduce(s: Settings, past: seq<CallRecord>)
    ensures RecordsReproduced(s, past, [], [])
  {}

  lemma SameLength(s: Settings, past: seq<CallRecord>, records: seq<CallRecord>, replayed: seq<CallRecord>)
    requires RecordsReproduced(s, past, records, replayed)
    ensures |replayed| == |records|
  {}

  lemma FlattenCons(first: seq<CallRecord>, rest: seq<seq<CallRecord>>)
    ensures Flatten([first] + rest) == first + Flatten(rest)
  {
    assert ([first] + rest)[1..] == rest;
  }

  /** After a replayed job every breaker follows the recorded streaks. */
  lemma FollowReplayed(s: Settings, tape: Tape, req: Request, st: Stage, past: seq<CallRecord>, records: seq<CallRecord>)
    requires s.breaker.Valid() && AllFollow(s.breaker, tape, st.breakers, past) && Replayable(s, tape, past, records)
    requires RecordsReproduced(s, past, records, RunJob(s, tape, req, st).records)
    ensures AllFollow(s.breaker, tape, RunJob(s, tape, req, st).after.breakers, past + records)
  {
    hide RunJob, Follows, Replayable, RecordsReproduced, BreakerOf, Streak;
    var job := RunJob(s, tape, req, st);
    JobFollows(s, tape, req, st, past);
    forall name ensures Follows(s.breaker, tape, BreakerOf(job.after.breakers, name), Streak(past + records, name)) {
      ReproducedStreaks(s, tape, past, records, job.records, name);
      assert Follows(s.breaker, tape, BreakerOf(job.after.breakers, name), Streak(past + job.records, name));
    }
  }

  lemma HeldForFirst(w: World, req: Request, job: Walked, whole: SessionRun, rest: SessionRun)
    requires OnlyReplaying(w) && HeldForSession(w, whole)
    requires whole.asked == [req] + rest.asked && whole.traces == [job.records] + rest.traces
    ensures forall k :: 0 <= k < |job.records| ==>
      Held(w, job.records[k].provider, req.prompt.hash) == [job.records[k]]
  {
    assert whole.traces[0] == job.records && whole.asked[0] == req;
  }

  lemma HeldForRest(w: World, w': World, req: Request, job: Walked, whole: SessionRun, rest: SessionRun)
    requires OnlyReplaying(w) && OnlyReplaying(w') && HeldForSession(w, whole) && DistinctPrompts(whole.asked)
    requires whole.asked == [req] + rest.asked && whole.traces == [job.records] + rest.traces
    requires Undisturbed(w, w', req.prompt.hash)
    ensures HeldForSession(w', rest) && DistinctPrompts(rest.asked)
  {
    forall t, k | 0 <= t < |rest.traces| && 0 <= k < |rest.traces[t]|
      ensures Held(w', rest.traces[t][k].provider, rest.asked[t].prompt.hash) == [rest.traces[t][k]]
    {
      assert whole.traces[t + 1] == rest.traces[t] && whole.asked[t + 1] == rest.asked[t];
      assert whole.asked[0].prompt.hash != whole.asked[t + 1].prompt.hash;
    }
    forall i, j | 0 <= i < j < |rest.asked| ensures rest.asked[i].prompt.hash != rest.asked[j].prompt.hash {
      assert whole.asked[i + 1] == rest.asked[i] && whole.asked[j + 1] == rest.asked[j];
    }
  }

  // The adapters built from a run's records hold exactly what the replay needs.

  predicate Matches(r: CallRecord, name: string, hash: string) { r.provider == name && r.promptHash == hash }

  /** The records of one provider about one prompt, in order. */
  function Filtered(records: seq<CallRecord>, name: string, hash: string): seq<CallRecord> {
    Keep((r: CallRecord) => Matches(r, name, hash), records)
  }

  lemma FilteredSnoc(records: seq<CallRecord>, name: string, hash: string)
    requires records != []
    ensures var front, last := records[..|records| - 1], records[|records| - 1];
      Filtered(records, name, hash) == Filtered(front, name, hash) + if Matches(last, name, hash) then [last] else []
  {
    var front, last := records[..|records| - 1], records[|records| - 1];
    assert records == front + [last];
    KeepConcat((r: CallRecord) => Matches(r, name, hash), front, [last]);
  }

  lemma {:induction false} QueuesAreFiltered(name: string, records: seq<CallRecord>, hash: string)
    ensures QueueFor(QueuesOf(name, records), hash) == Filtered(records, name, hash)
  {
    if records != [] {
      QueuesAreFiltered(name, records[..|records| - 1], hash);
      FilteredSnoc(records, name, hash);
    }
  }

  lemma {:induction false} FilteredNone(records: seq<CallRecord>, name: string, hash: string)
    requires forall k :: 0 <= k < |records| ==> records[k].provider != name || records[k].promptHash != hash
    ensures Filtered(records, name, hash) == []
  {
    if records != [] {
      FilteredNone(records[..|records| - 1], name, hash);
      FilteredSnoc(records, name, hash);
    }
  }

  lemma HeldAtStart(records: seq<CallRecord>, name: string, hash: string, ticks: nat)
    ensures OnlyReplaying(World(ReplayAdapters(records), ticks))
    ensures Held(World(ReplayAdapters(records), ticks), name, hash) == Filtered(records, name, hash)
  {
    QueuesAreFiltered(name, records, hash);
    if name !in ReplayAdapters(records) {
      assert forall k :: 0 <= k < |records| ==> records[k] in records && records[k].provider != name;
      FilteredNone(records, name, hash);
    }
  }

  lemma FilteredConcat(a: seq<CallRecord>, b: seq<CallRecord>, name: string, hash: string)
    ensures Filtered(a + b, name, hash) == Filtered(a, name, hash) + Filtered(b, name, hash)
  {
    KeepConcat((r: CallRecord) => Matches(r, name, hash), a, b);
  }

  /** A single matching record is found whatever order the records come back in. */
  lemma FilteredForgetsOrder(a: seq<CallRecord>, b: seq<CallRecord>, name: string, hash: string)
    requires multiset(a) == multiset(b) && |Filtered(a, name, hash)| == 1
    ensures Filtered(b, name, hash) == Filtered(a, name, hash)
  {
    KeepForgetsOrder((r: CallRecord) => Matches(r, name, hash), a, b);
    SingletonFromMultiset(Filtered(a, name, hash), Filtered(b, name, hash));
  }

  lemma SingletonFromMultiset<T>(a: seq<T>, b: seq<T>)
    requires multiset(a) == multiset(b) && |a| == 1
    ensures b == a
  {
    assert |b| == |multiset(b)| == |multiset(a)| == 1;
    assert b[0] in multiset(a);
  }

  /** Within a session, provider and prompt hash identify a record. */
  ghost predicate WellKeyed(run: SessionRun) {
    && |run.traces| == |run.asked|
    && (forall t, k :: 0 <= t < |run.traces| && 0 <= k < |run.traces[t]| ==>
          run.traces[t][k].promptHash == run.asked[t].prompt.hash)
    && (forall t :: 0 <= t < |run.traces| ==> DistinctProviders(run.traces[t]))
  }

  lemma {:induction false} SessionIsWellKeyed(s: Settings, tape: Tape, plan: Plan, n: nat, known: seq<Option<Json>>,
                                              st: Stage)
    requires s.Valid()
    ensures WellKeyed(Session(s, tape, plan, n, known, st))
  {
    hide RunJob, ChainFor;
    if n > 0 && plan(known).Some? {
      var req := plan(known).value;
      var job := RunJob(s, tape, req, st);
      FailoverTrace(s, tape, req, st);
      JobVisitsOnce(s, tape, req, st);
      SessionIsWellKeyed(s, tape, plan, n - 1, known + [DataOf(job.answer)], job.after);
    }
  }

  lemma {:induction false} FilteredTrace(records: seq<CallRecord>, k: nat, hash: string)
    requires k < |records| && DistinctProviders(records)
    requires forall l :: 0 <= l < |records| ==> records[l].promptHash == hash
    ensures Filtered(records, records[k].provider, hash) == [records[k]]
  {
    var front := records[..|records| - 1];
    FilteredSnoc(records, records[k].provider, hash);
    if k == |records| - 1 {
      FilteredNone(front, records[k].provider, hash);
    } else {
      FilteredTrace(front, k, hash);
    }
  }

  lemma {:induction false} FilteredFlatten(traces: seq<seq<CallRecord>>, hashes: seq<string>, t: nat, k: nat)
    requires |hashes| == |traces| && t < |traces| && k < |traces[t]|
    requires forall i, j :: 0 <= i < j < |hashes| ==> hashes[i] != hashes[j]
    requires forall u :: 0 <= u < |traces| ==> DistinctProviders(traces[u])
    requires forall u, l :: 0 <= u < |traces| && 0 <= l < |traces[u]| ==> traces[u][l].promptHash == hashes[u]
    ensures Filtered(Flatten(traces), traces[t][k].provider, hashes[t]) == [traces[t][k]]
  {
    var name := traces[t][k].provider;
    FilteredConcat(traces[0], Flatten(traces[1..]), name, hashes[t]);
    if t == 0 {
      FilteredTrace(traces[0], k, hashes[0]);
      FilteredOtherTraces(traces[1..], hashes[1..], name, hashes[0]);
    } else {
      FilteredNone(traces[0], name, hashes[t]);
      FilteredFlatten(traces[1..], hashes[1..], t - 1, k);
    }
  }

  lemma {:induction false} FilteredOtherTraces(traces: seq<seq<CallRecord>>, hashes: seq<string>, name: string,
                                               hash: string)
    requires |hashes| == |traces| && forall i :: 0 <= i < |hashes| ==> hashes[i] != hash
    requires forall u, l :: 0 <= u < |traces| && 0 <= l < |traces[u]| ==> traces[u][l].promptHash == hashes[u]
    ensures Filtered(Flatten(traces), name, hash) == []
  {
    if traces != [] {
      FilteredConcat(traces[0], Flatten(traces[1..]), name, hash);
      FilteredNone(traces[0], name, hash);
      FilteredOtherTraces(traces[1..], hashes[1..], name, hash);
    }
  }

  lemma HeldForWholeSession(run: SessionRun, stored: seq<CallRecord>)
    requires WellKeyed(run) && DistinctPrompts(run.asked) && multiset(stored) == multiset(Flatten(run.traces))
    ensures OnlyReplaying(World(ReplayAdapters(stored), 0))
    ensures HeldForSession(World(ReplayAdapters(stored), 0), run)
  {
    var hashes := seq(|run.asked|, i requires 0 <= i < |run.asked| => run.asked[i].prompt.hash);
    forall t, k | 0 <= t < |run.traces| && 0 <= k < |run.traces[t]|
      ensures Held(World(ReplayAdapters(stored), 0), run.traces[t][k].provider, hashes[t]) == [run.traces[t][k]]
    {
      FilteredFlatten(run.traces, hashes, t, k);
      FilteredForgetsOrder(Flatten(run.traces), stored, run.traces[t][k].provider, hashes[t]);
      HeldAtStart(stored, run.traces[t][k].provider, hashes[t], 0);
    }
  }

  // The theorems.

  /** The gateway a replay starts from: fresh breakers, and only the stored records to answer. */
  function ReplayStart(stored: seq<CallRecord>): Stage {
    Stage(map[], World(ReplayAdapters(stored), 0))
  }

  /** What a replay of the stored records does. */
  function Replay(s: Settings, tape: Tape, plan: Plan, n: nat, stored: seq<CallRecord>): SessionRun {
    Session(s, tape, plan, n, [], ReplayStart(stored))
  }

  /** A live session with different prompts, and its records, read back in some order. */
  ghost predicate Recorded(run: SessionRun, stored: seq<CallRecord>) {
    DistinctPrompts(run.asked) && multiset(stored) == multiset(Flatten(run.traces))
  }

  /**
   * Record-then-replay. Take any session with pairwise different prompts, over any live adapters,
   * breakers and clock. Replayed from its records, read back in any order, it asks the same requests,
   * gets the same answers, and leaves the same records except for latency, retries used, and the
   * outcome, which is `OutcomeAt` of the recorded one; provided each record is reached by the replay,
   * or comes after so many failures of its provider that it is skipped without loss.
   */
  lemma RecordThenReplay(s: Settings, live: Tape, st: Stage, plan: Plan, n: nat, tape: Tape, stored: seq<CallRecord>)
    requires s.Valid() && s.codec.Lawful() && WithinDeadlines(s, tape)
    requires Recorded(Session(s, live, plan, n, [], st), stored)
    requires Replayable(s, tape, [], Flatten(Session(s, live, plan, n, [], st).traces))
    ensures SessionReproduced(s, Session(s, live, plan, n, [], st), Replay(s, tape, plan, n, stored))
  {
    hide Replayable, RecordsReproduced, SameShape, AllFollow, Flatten, WellKeyed, ReplayAdapters;
    SessionIsWellKeyed(s, live, plan, n, [], st);
    HeldForWholeSession(Session(s, live, plan, n, [], st), stored);
    FreshBreakersFollow(s.breaker, tape);
    ReplaySession(s, live, tape, plan, n, [], st, ReplayStart(stored), []);
  }

  /** No attempt of the session comes after a threshold of failures, as in any session of few enough jobs. */
  ghost predicate Untripped(s: Settings, run: SessionRun) {
    NeverTrips(s.breaker.failureThreshold, [], Flatten(run.traces))
  }

  lemma UntrippedIsReplayable(s: Settings, tape: Tape, run: SessionRun)
    requires Untripped(s, run)
    ensures Replayable(s, tape, [], Flatten(run.traces))
  {}

  /** A recorded attempt comes back under its own outcome. */
  predicate Faithful(s: Settings, record: CallRecord) {
    && !record.outcome.CircuitOpen?
    && (record.outcome.Timeout? ==> RetryBudget(s, s.providers, record.provider) == 0)
  }

  lemma ReproducedDiffs(s: Settings, recorded: seq<CallRecord>, replayed: seq<CallRecord>)
    requires RecordsReproduced(s, [], recorded, replayed)
    ensures AllDiffs(recorded, replayed) == [] <==>
      forall k :: 0 <= k < |recorded| ==> OutcomeAt(s, recorded[..k], recorded[k]) == recorded[k].outcome
  {
    hide OutcomeAt, AllDiffs;
    NoDiffMeansSameTrace(recorded, replayed);
    forall k | 0 <= k < |recorded|
      ensures SameReplay(recorded[k], replayed[k]) <==> OutcomeAt(s, recorded[..k], recorded[k]) == recorded[k].outcome
    {
      assert [] + recorded[..k] == recorded[..k];
      assert Reproduces(recorded[k], replayed[k], OutcomeAt(s, [] + recorded[..k], recorded[k]));
    }
  }

  /**
   * The replay check of such a session passes exactly when the recorded run skipped no provider
   * behind an open breaker and timed out only on providers with no retries; all other live behaviour
   * replays identically.
   */
  lemma ReplayVerifiesExactlyWhen(s: Settings, live: Tape, st: Stage, plan: Plan, n: nat, tape: Tape,
                                  stored: seq<CallRecord>)
    requires s.Valid() && s.codec.Lawful() && WithinDeadlines(s, tape)
    requires Recorded(Session(s, live, plan, n, [], st), stored) && Untripped(s, Session(s, live, plan, n, [], st))
    ensures var recorded := Flatten(Session(s, live, plan, n, [], st).traces);
      AllDiffs(recorded, Flatten(Replay(s, tape, plan, n, stored).traces)) == [] <==>
        forall k :: 0 <= k < |recorded| ==> Faithful(s, recorded[k])
  {
    hide Session, Flatten, AllDiffs, Replay, RetryBudget, Streak, Recorded, Replayable;
    var run := Session(s, live, plan, n, [], st);
    UntrippedIsReplayable(s, tape, run);
    RecordThenReplay(s, live, st, plan, n, tape, stored);
    var recorded := Flatten(run.traces);
    ReproducedDiffs(s, recorded, Flatten(Replay(s, tape, plan, n, stored).traces));
    forall k | 0 <= k < |recorded|
      ensures OutcomeAt(s, recorded[..k], recorded[k]) == recorded[k].outcome <==> Faithful(s, recorded[k])
    {
      assert [] + recorded[..k] == recorded[..k];
      assert Streak([] + recorded[..k], recorded[k].provider) < s.breaker.failureThreshold;
    }
  }

  // On a clock that stands still.

  lemma StoppedIsWithinDeadlines(s: Settings, tape: Tape)
    requires Stopped(tape)
    ensures WithinDeadlines(s, tape)
  {
    forall k: nat, p | p in s.providers ensures tape(k + 1) - tape(k) <= s.TimeoutMs(p) {
      assert tape(k + 1) == tape(0) && tape(k) == tape(0);
    }
  }

  /** No success was recorded after a threshold of failures of its provider in a row. */
  ghost predicate NothingLost(s: Settings, records: seq<CallRecord>) {
    forall k :: 0 <= k < |records| && records[k].outcome.Success? ==>
      Streak(records[..k], records[k].provider) < s.breaker.failureThreshold
  }

  lemma NothingLostIsReplayable(s: Settings, tape: Tape, records: seq<CallRecord>)
    requires Stopped(tape) && NothingLost(s, records)
    ensures Replayable(s, tape, [], records)
  {
    forall k | 0 <= k < |records| ensures Within(s, tape, Streak([] + records[..k], records[k].provider), records[k]) {
      assert [] + records[..k] == records[..k];
    }
  }

  /** A replayed session skips exactly what its own streaks say. */
  lemma ReplaySkips(s: Settings, tape: Tape, plan: Plan, n: nat, stored: seq<CallRecord>)
    requires s.Valid()
    ensures SkipsFollow(s.breaker, tape, [], Flatten(Replay(s, tape, plan, n, stored).traces))
  {
    FreshBreakersFollow(s.breaker, tape);
    SessionFollows(s, tape, plan, n, [], ReplayStart(stored), []);
  }

  /** A replay whose records match the stored ones in provider and outcome loses nothing. */
  lemma MatchingLosesNothing(s: Settings, tape: Tape, recorded: seq<CallRecord>, replayed: seq<CallRecord>)
    requires Stopped(tape) && SkipsFollow(s.breaker, tape, [], replayed) && |replayed| == |recorded|
    requires forall k :: 0 <= k < |recorded| ==>
      replayed[k].provider == recorded[k].provider && replayed[k].outcome == recorded[k].outcome
    ensures NothingLost(s, recorded)
  {
    forall k | 0 <= k < |recorded| && recorded[k].outcome.Success?
      ensures Streak(recorded[..k], recorded[k].provider) < s.breaker.failureThreshold
    {
      StreakDependsOn([], recorded[..k], replayed[..k], recorded[k].provider);
      assert [] + recorded[..k] == recorded[..k] && [] + replayed[..k] == replayed[..k];
      assert SkipFollows(s.breaker, tape, [] + replayed[..k], replayed[k]);
    }
  }

  /** Skipped when the streak says so, and otherwise faithful. */
  ghost predicate FaithfulAt(s: Settings, before: seq<CallRecord>, record: CallRecord) {
    if Streak(before, record.provider) >= s.breaker.failureThreshold then record.outcome.CircuitOpen?
    else Faithful(s, record)
  }

  lemma FaithfulAtMeans(s: Settings, before: seq<CallRecord>, record: CallRecord)
    ensures OutcomeAt(s, before, record) == record.outcome <==> FaithfulAt(s, before, record)
  {}

  /**
   * On a stopped replay clock, for every session of any length: the replay check passes exactly when
   * each recorded attempt was skipped if its provider had failed a threshold of times in a row just
   * before, and otherwise was neither skipped nor timed out with retries left.
   */
  lemma StoppedReplayVerifiesExactlyWhen(s: Settings, live: Tape, st: Stage, plan: Plan, n: nat, tape: Tape,
                                         stored: seq<CallRecord>)
    requires s.Valid() && s.codec.Lawful() && Stopped(tape)
    requires Recorded(Session(s, live, plan, n, [], st), stored)
    ensures var recorded := Flatten(Session(s, live, plan, n, [], st).traces);
      AllDiffs(recorded, Flatten(Replay(s, tape, plan, n, stored).traces)) == [] <==>
        forall k :: 0 <= k < |recorded| ==> FaithfulAt(s, recorded[..k], recorded[k])
  {
    hide Session, Flatten, AllDiffs, Replay, FaithfulAt, NothingLost, SkipsFollow, Stopped, Recorded, Replayable,
      RecordsReproduced, OutcomeAt;
    var recorded := Flatten(Session(s, live, plan, n, [], st).traces);
    var replayed := Flatten(Replay(s, tape, plan, n, stored).traces);
    if AllDiffs(recorded, replayed) == [] {
      NoDiffMeansSameTrace(recorded, replayed);
      ReplaySkips(s, tape, plan, n, stored);
      MatchingLosesNothing(s, tape, recorded, replayed);
    } else if forall k :: 0 <= k < |recorded| ==> FaithfulAt(s, recorded[..k], recorded[k]) {
      FaithfulLosesNothing(s, recorded);
    }
    if NothingLost(s, recorded) {
      NothingLostIsReplayable(s, tape, recorded);
      StoppedIsWithinDeadlines(s, tape);
      RecordThenReplay(s, live, st, plan, n, tape, stored);
      ReproducedDiffs(s, recorded, replayed);
      forall k | 0 <= k < |recorded|
        ensures OutcomeAt(s, recorded[..k], recorded[k]) == recorded[k].outcome <==> FaithfulAt(s, recorded[..k], recorded[k])
      {
        FaithfulAtMeans(s, recorded[..k], recorded[k]);
      }
    }
  }

  lemma FaithfulLosesNothing(s: Settings, records: seq<CallRecord>)
    requires forall k :: 0 <= k < |records| ==> FaithfulAt(s, records[..k], records[k])
    ensures NothingLost(s, records)
  {
    forall k | 0 <= k < |records| && records[k].outcome.Success?
      ensures Streak(records[..k], records[k].provider) < s.breaker.failureThreshold
    {
      assert FaithfulAt(s, records[..k], records[k]);
    }
  }

  ghost predicate AllHonest(s: Settings, records: seq<CallRecord>) {
    forall k :: 0 <= k < |records| ==> HonestRecord(s, records[k])
  }

  lemma {:induction false} SessionIsHonest(s: Settings, tape: Tape, plan: Plan, n: nat, known: seq<Option<Json>>, st: Stage)
    requires s.Valid()
    ensures AllHonest(s, Flatten(Session(s, tape, plan, n, known, st).traces))
  {
    hide RunJob, HonestRecord;
    if n > 0 && plan(known).Some? {
      var req := plan(known).value;
      var job := RunJob(s, tape, req, st);
      FailoverTrace(s, tape, req, st);
      var known' := known + [DataOf(job.answer)];
      SessionIsHonest(s, tape, plan, n - 1, known', job.after);
      FlattenCons(job.records, Session(s, tape, plan, n - 1, known', job.after).traces);
    }
  }

  /**
   * On a stopped replay clock, for every session: the replay reproduces requests, answers and records
   * exactly when no success was recorded after a threshold of failures of its provider in a row.
   */
  lemma StoppedReplayReproducesExactlyWhen(s: Settings, live: Tape, st: Stage, plan: Plan, n: nat, tape: Tape,
                                           stored: seq<CallRecord>)
    requires s.Valid() && s.codec.Lawful() && Stopped(tape)
    requires Recorded(Session(s, live, plan, n, [], st), stored)
    ensures SessionReproduced(s, Session(s, live, plan, n, [], st), Replay(s, tape, plan, n, stored))
      <==> NothingLost(s, Flatten(Session(s, live, plan, n, [], st).traces))
  {
    var run, replay := Session(s, live, plan, n, [], st), Replay(s, tape, plan, n, stored);
    var recorded, replayed := Flatten(run.traces), Flatten(replay.traces);
    SessionIsHonest(s, live, plan, n, [], st);
    SessionIsHonest(s, tape, plan, n, [], ReplayStart(stored));
    hide Session, Flatten, Stopped, Recorded, Replayable, SameShape, Streak, RetryBudget;
    if NothingLost(s, recorded) {
      NothingLostIsReplayable(s, tape, recorded);
      StoppedIsWithinDeadlines(s, tape);
      RecordThenReplay(s, live, st, plan, n, tape, stored);
    }
    if SessionReproduced(s, run, replay) {
      ReproducedLosesNothing(s, recorded, replayed);
    }
  }

  lemma ReproducedLosesNothing(s: Settings, recorded: seq<CallRecord>, replayed: seq<CallRecord>)
    requires AllHonest(s, recorded) && AllHonest(s, replayed) && RecordsReproduced(s, [], recorded, replayed)
    ensures NothingLost(s, recorded)
  {
    hide Streak, RetryBudget;
    forall k | 0 <= k < |recorded| && recorded[k].outcome.Success?
      ensures Streak(recorded[..k], recorded[k].provider) < s.breaker.failureThreshold
    {
      assert [] + recorded[..k] == recorded[..k];
      assert Reproduces(recorded[k], replayed[k], OutcomeAt(s, [] + recorded[..k], recorded[k]));
      assert HonestRecord(s, recorded[k]) && HonestRecord(s, replayed[k]);
    }
  }

  // The shipped wiring: both clocks stand still.

  /** With a stopped live clock a fresh gateway never succeeds after a threshold of failures in a row. */
  lemma StoppedSessionLosesNothing(s: Settings, live: Tape, plan: Plan, n: nat, world: World)
    requires s.Valid() && Stopped(live)
    ensures var recorded := Flatten(Session(s, live, plan, n, [], Stage(map[], world)).traces);
      && NothingLost(s, recorded)
      && forall k :: 0 <= k < |recorded| ==> (FaithfulAt(s, recorded[..k], recorded[k]) <==> !TimedOutWithRetries(s, recorded[k]))
  {
    FreshSessionFollows(s, live, plan, n, world);
    hide Session, Streak, RetryBudget;
    var recorded := Flatten(Session(s, live, plan, n, [], Stage(map[], world)).traces);
    forall k | 0 <= k < |recorded|
      ensures recorded[k].outcome.CircuitOpen? <==> Streak(recorded[..k], recorded[k].provider) >= s.breaker.failureThreshold
    {
      assert [] + recorded[..k] == recorded[..k];
      assert SkipFollows(s.breaker, live, [] + recorded[..k], recorded[k]);
    }
  }

  predicate TimedOutWithRetries(s: Settings, record: CallRecord) {
    record.outcome.Timeout? && RetryBudget(s, s.providers, record.provider) > 0
  }

  /**
   * A session of any length that a fresh gateway ran on a stopped clock is reproduced by its replay
   * on a stopped clock, and the replay check passes exactly when no recorded attempt timed out with
   * retries left.
   */
  lemma StoppedSessionReplays(s: Settings, live: Tape, plan: Plan, n: nat, world: World, tape: Tape, stored: seq<CallRecord>)
    requires s.Valid() && s.codec.Lawful() && Stopped(live) && Stopped(tape)
    requires Recorded(Session(s, live, plan, n, [], Stage(map[], world)), stored)
    ensures var run, replay := Session(s, live, plan, n, [], Stage(map[], world)), Replay(s, tape, plan, n, stored);
      var recorded := Flatten(run.traces);
      && SessionReproduced(s, run, replay)
      && (AllDiffs(recorded, Flatten(replay.traces)) == [] <==>
            forall k :: 0 <= k < |recorded| ==> !TimedOutWithRetries(s, recorded[k]))
  {
    hide Session, Flatten, Replay, SessionReproduced, NothingLost, FaithfulAt, TimedOutWithRetries, Recorded, AllDiffs;
    StoppedSessionLosesNothing(s, live, plan, n, world);
    StoppedReplayReproducesExactlyWhen(s, live, Stage(map[], world), plan, n, tape, stored);
    StoppedReplayVerifiesExactlyWhen(s, live, Stage(map[], world), plan, n, tape, stored);
  }

  // Runs that do not replay.

  /** With one enabled provider a job is one visit. */
  lemma JobIsOneVisit(s: Settings, tape: Tape, req: Request, p: ProviderCfg, st: Stage)
    requires s.Valid() && s.providers == [p] && p.enabled
    ensures var job, v := RunJob(s, tape, req, st), Visit(s, tape, req, 0, p, st);
      job.records == [v.record] && job.after == v.after && (job.answer.Answered? <==> v.data.Some?)
  {
    hide Visit, Router.Order;
    assert Enabled([p]) == [p];
    EnabledKeepsNamesUnique([p]);
    Router.OrderIsPermutation(s.strategy, [p], s.seedFraction(req.runId));
    SingletonFromMultiset([p], ChainFor(s, req.runId));
    var chain := [p];
    var v := Visit(s, tape, req, 0, p, st);
    var degraded := Degraded(req.job, v.reason, p.name, s.ModelFor(p, req.job));
    assert Walk(s, tape, req, chain, 1, degraded, v.after).records == [];
  }

  lemma OneJobSession(s: Settings, tape: Tape, plan: Plan, known: seq<Option<Json>>, st: Stage)
    requires plan(known).Some?
    ensures var job, run := RunJob(s, tape, plan(known).value, st), Session(s, tape, plan, 1, known, st);
      run.answers == [job.answer] && run.traces == [job.records]
  {
    hide RunJob;
    var job := RunJob(s, tape, plan(known).value, st);
    assert Session(s, tape, plan, 0, known + [DataOf(job.answer)], job.after) == SessionRun([], [], [], job.after);
  }

  /** The two records of a session that first degraded and then answered, over one provider. */
  lemma FailThenAnswer(s: Settings, live: Tape, st: Stage, plan: Plan, p: ProviderCfg)
    requires s.Valid() && s.providers == [p] && p.enabled
    requires var run := Session(s, live, plan, 2, [], st);
      |run.answers| == 2 && run.answers[0].Degraded? && run.answers[1].Answered?
    ensures var records := Flatten(Session(s, live, plan, 2, [], st).traces);
      && |records| == 2 && records[0].provider == p.name == records[1].provider
      && !records[0].outcome.Success? && records[1].outcome.Success?
  {
    hide RunJob, Visit;
    var first := plan([]).value;
    var job := RunJob(s, live, first, st);
    var known := [] + [DataOf(job.answer)];
    var rest := Session(s, live, plan, 1, known, job.after);
    var run := Session(s, live, plan, 2, [], st);
    assert run.answers == [job.answer] + rest.answers && run.traces == [job.records] + rest.traces;
    assert plan(known).Some?;
    OneJobSession(s, live, plan, known, job.after);
    JobIsOneVisit(s, live, first, p, st);
    JobIsOneVisit(s, live, plan(known).value, p, job.after);
    VisitIsHonest(s, live, first, 0, p, st);
    VisitIsHonest(s, live, plan(known).value, 0, p, job.after);
    FlattenCons(job.records, rest.traces);
    FlattenCons(rest.traces[0], []);
  }

  /**
   * A bound is needed: with a threshold of one, a session of two jobs over one provider that first
   * degraded and then answered is not reproduced on a stopped clock, and the replay check reports it.
   */
  lemma ThresholdOneLosesSecondJob(s: Settings, live: Tape, st: Stage, plan: Plan, tape: Tape, stored: seq<CallRecord>,
                                   p: ProviderCfg)
    requires s.Valid() && s.codec.Lawful() && Stopped(tape)
    requires s.breaker.failureThreshold == 1 && s.providers == [p] && p.enabled
    requires Recorded(Session(s, live, plan, 2, [], st), stored)
    requires var run := Session(s, live, plan, 2, [], st);
      |run.answers| == 2 && run.answers[0].Degraded? && run.answers[1].Answered?
    ensures !SessionReproduced(s, Session(s, live, plan, 2, [], st), Replay(s, tape, plan, 2, stored))
    ensures AllDiffs(Flatten(Session(s, live, plan, 2, [], st).traces), Flatten(Replay(s, tape, plan, 2, stored).traces)) != []
  {
    FailThenAnswer(s, live, st, plan, p);
    StoppedReplayReproducesExactlyWhen(s, live, st, plan, 2, tape, stored);
    StoppedReplayVerifiesExactlyWhen(s, live, st, plan, 2, tape, stored);
    hide Session, Replay, AllDiffs, SessionReproduced;
    var records := Flatten(Session(s, live, plan, 2, [], st).traces);
    assert records[..1] == [] + [records[0]];
    StreakSnoc([], records[0], p.name);
    assert !FaithfulAt(s, records[..1], records[1]);
  }

  /** Such sessions happen: the provider fails once, the cool-down elapses, and it answers. */
  lemma FailThenAnswerHappens(s: Settings, plan: Plan, p: ProviderCfg, result: RawResult) returns (live: Tape, w: World)
    requires s.Valid() && s.breaker.failureThreshold == 1 && s.providers == [p] && p.enabled && s.Retries(p) == 0
    requires plan([]).Some? && plan([None]).Some?
    requires s.codec.parse(result.text).Some? && s.codec.valid(plan([None]).value.job, s.codec.parse(result.text).value)
    ensures Monotone(live)
    ensures var run := Session(s, live, plan, 2, [], Stage(map[], w));
      |run.answers| == 2 && run.answers[0].Degraded? && run.answers[1].Answered?
  {
    var coolDown := s.breaker.halfOpenAfterMs;
    live := (k: nat) => if k < 2 then 0 else coolDown;
    var answers := (k: nat) => if k == 0 then Raises(CallError) else Reply(result);
    w := World(map[p.name := Live(answers, 0)], 0);
    var start := Stage(map[], w);
    var first, second := plan([]).value, plan([None]).value;
    JobIsOneVisit(s, live, first, p, start);
    var job := RunJob(s, live, first, start);
    FirstFails(s, live, first, p, start, answers);
    JobIsOneVisit(s, live, second, p, job.after);
    hide RunJob, Visit;
    assert DataOf(job.answer) == None && [] + [DataOf(job.answer)] == [None];
    OneJobSession(s, live, plan, [None], job.after);
    ThenAnswers(s, live, second, p, job.after, answers, result);
  }

  lemma FirstFails(s: Settings, tape: Tape, req: Request, p: ProviderCfg, st: Stage, answers: nat -> Answer)
    requires s.Valid() && s.breaker.failureThreshold == 1 && s.Retries(p) == 0
    requires st == Stage(map[], World(map[p.name := Live(answers, 0)], 0)) && answers(0) == Raises(CallError)
    ensures var v := Visit(s, tape, req, 0, p, st);
      v.data.None? && v.after == Stage(map[p.name := Trip(tape(1))], World(map[p.name := Live(answers, 1)], 2))
  {
    assert Retry(s, tape, p, req.prompt.hash, 0, st.world) == Retried(Raised(CallError), 0, World(map[p.name := Live(answers, 1)], 1));
    assert Prune([tape(1)], tape(1) - s.breaker.windowMs) == [tape(1)];
  }

  lemma ThenAnswers(s: Settings, tape: Tape, req: Request, p: ProviderCfg, st: Stage, answers: nat -> Answer, result: RawResult)
    requires s.Valid() && s.Retries(p) == 0 && answers(1) == Reply(result)
    requires st == Stage(map[p.name := Trip(tape(1))], World(map[p.name := Live(answers, 1)], 2))
    requires tape(2) - tape(1) >= s.breaker.halfOpenAfterMs && tape(4) == tape(3)
    requires s.codec.parse(result.text).Some? && s.codec.valid(req.job, s.codec.parse(result.text).value)
    ensures Visit(s, tape, req, 0, p, st).data.Some?
  {
    assert Retry(s, tape, p, req.prompt.hash, 0, st.world.(ticks := 3)).last == Got(result, 0);
  }

  /** The live adapter of that name times out on every call. */
  ghost predicate AlwaysSilent(w: World, name: string) {
    name in w.adapters && w.adapters[name].Live? && forall k: nat :: w.adapters[name].answers(k) == Raises(TimedOut)
  }

  lemma {:induction false} SilentTimesOut(s: Settings, tape: Tape, p: ProviderCfg, hash: string, i: nat, w: World)
    requires AlwaysSilent(w, p.name)
    ensures Retry(s, tape, p, hash, i, w).last == Raised(TimedOut)
    decreases s.Retries(p) - i
  {
    var (tried, w') := Attempt(s, tape, p, hash, w);
    if i < s.Retries(p) {
      SilentTimesOut(s, tape, p, hash, i + 1, w');
    }
  }

  /** A provider that never answers leaves a timeout. */
  lemma SilentLeavesTimeout(s: Settings, tape: Tape, req: Request, p: ProviderCfg, w: World)
    requires AlwaysSilent(w, p.name)
    ensures Visit(s, tape, req, 0, p, Stage(map[], w)).record.outcome.Timeout?
  {
    hide Retry;
    SilentTimesOut(s, tape, p, req.prompt.hash, 0, w);
  }

  /**
   * A run on which the replay check fails, whatever the clocks: one job, asked of a provider with
   * retries that never answers. It leaves a timeout, and its replay an error.
   */
  lemma TimeoutReplaysAsError(s: Settings, live: Tape, tape: Tape, p: ProviderCfg, plan: Plan, w: World,
                              stored: seq<CallRecord>)
    requires s.Valid() && s.codec.Lawful() && WithinDeadlines(s, tape)
    requires s.providers == [p] && p.enabled && s.Retries(p) > 0
    requires plan([]).Some? && AlwaysSilent(w, p.name)
    requires stored == Flatten(Session(s, live, plan, 1, [], Stage(map[], w)).traces)
    ensures |stored| == 1 && stored[0].outcome.Timeout?
    ensures var replayed := Flatten(Replay(s, tape, plan, 1, stored).traces);
      |replayed| == 1 && replayed[0].outcome.Error? && AllDiffs(stored, replayed) != []
  {
    hide Visit, RunJob, ReplayAdapters, AllDiffs, Walk, RetryBudget, Streak, OutcomeAt;
    var start := Stage(map[], w);
    var req := plan([]).value;
    var run := Session(s, live, plan, 1, [], start);
    OneJobSession(s, live, plan, [], start);
    JobIsOneVisit(s, live, req, p, start);
    SilentLeavesTimeout(s, live, req, p, w);
    VisitIsHonest(s, live, req, 0, p, start);
    FlattenCons(run.traces[0], []);
    FewJobsNeverTrip(s, live, plan, 1, start);
    ReplayVerifiesExactlyWhen(s, live, start, plan, 1, tape, stored);
    UntrippedIsReplayable(s, tape, run);
    RecordThenReplay(s, live, start, plan, 1, tape, stored);
    OneTimeout(s, p, stored, Flatten(Replay(s, tape, plan, 1, stored).traces));
  }

  lemma OneTimeout(s: Settings, p: ProviderCfg, recorded: seq<CallRecord>, replayed: seq<CallRecord>)
    requires s.Valid() && p in s.providers && s.Retries(p) > 0
    requires |recorded| == 1 && recorded[0].provider == p.name && recorded[0].outcome.Timeout?
    requires RecordsReproduced(s, [], recorded, replayed)
    ensures |replayed| == 1 && replayed[0].outcome.Error? && !Faithful(s, recorded[0])
  {
    BudgetIsRetries(s, s.providers, p);
    assert [] + recorded[..0] == [];
    assert Reproduces(recorded[0], replayed[0], OutcomeAt(s, [] + recorded[..0], recorded[0]));
  }
}
