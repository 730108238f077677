/**
 * How many attempts a provider gets, told from the tape of its answers and of the clock alone: the
 * first attempt that is not worth repeating decides, and the retry budget bounds the search.
 */
module Retries {
  import opened Common
  import opened MonotonicClock
  import opened CircuitBreakers
  import opened Reasoning
  import opened Adapters
  import opened Gateway

  /** The answers a live provider has still to give, and the clock reading at which it is first asked. */
  datatype Ahead = Ahead(answers: nat -> Answer, ticks: nat)

  /** A raised failure is not timed; a reply is. */
  function Readings(answer: Answer): nat { if answer.Raises? then 1 else 2 }

  /** The clock reading at which attempt `k` starts. */
  function StartOf(a: Ahead, k: nat): nat {
    if k == 0 then a.ticks else StartOf(a, k - 1) + Readings(a.answers(k - 1))
  }

  function ElapsedOf(tape: Tape, a: Ahead, k: nat): nat {
    Max(0, tape(StartOf(a, k) + 1) - tape(StartOf(a, k)))
  }

  /** Attempt `k` comes back within the deadline. */
  predicate InTime(s: Settings, tape: Tape, p: ProviderCfg, a: Ahead, k: nat) {
    a.answers(k).Reply? && ElapsedOf(tape, a, k) <= s.TimeoutMs(p)
  }

  /** A call error, a timeout the provider raises, or a reply past the deadline; not bad output. */
  predicate WorthRepeating(s: Settings, tape: Tape, p: ProviderCfg, a: Ahead, k: nat) {
    match a.answers(k)
    case Raises(failure) => !failure.BadOutput?
    case Reply(_) => ElapsedOf(tape, a, k) > s.TimeoutMs(p)
  }

  /** Attempt `k` is made and is the last: all before it are worth repeating, and it is not or is the final one. */
  ghost predicate Decides(s: Settings, tape: Tape, p: ProviderCfg, a: Ahead, k: nat) {
    && k <= s.Retries(p)
    && (forall j :: 0 <= j < k ==> WorthRepeating(s, tape, p, a, j))
    && (k < s.Retries(p) ==> !WorthRepeating(s, tape, p, a, k))
  }

  function OutcomeOf(s: Settings, tape: Tape, p: ProviderCfg, a: Ahead, k: nat): Tried {
    match a.answers(k)
    case Raises(failure) => Tried.Raised(failure)
    case Reply(result) =>
      if ElapsedOf(tape, a, k) <= s.TimeoutMs(p) then Got(result, ElapsedOf(tape, a, k)) else Tried.Raised(TimedOut)
  }

  /** The world of a live provider that has been asked `calls` times. */
  ghost predicate Live(w: World, p: ProviderCfg, answers: nat -> Answer, calls: nat) {
    p.name in w.adapters && w.adapters[p.name] == Adapter.Live(answers, calls)
  }

  function AheadOf(answers: nat -> Answer, calls: nat, ticks: nat): Ahead {
    Ahead((k: nat) => answers(calls + k), ticks)
  }

  function AfterAttempts(w: World, p: ProviderCfg, answers: nat -> Answer, calls: nat, n: nat): World {
    World(w.adapters[p.name := Adapter.Live(answers, calls + n)], StartOf(AheadOf(answers, calls, w.ticks), n))
  }

  lemma OneAttempt(s: Settings, tape: Tape, p: ProviderCfg, hash: string, w: World, answers: nat -> Answer, calls: nat, k: nat)
    requires Live(w, p, answers, calls)
    ensures var a := AheadOf(answers, calls, w.ticks);
      Attempt(s, tape, p, hash, AfterAttempts(w, p, answers, calls, k))
        == (OutcomeOf(s, tape, p, a, k), AfterAttempts(w, p, answers, calls, k + 1))
  {
    var a, before := AheadOf(answers, calls, w.ticks), AfterAttempts(w, p, answers, calls, k);
    assert a.answers(k) == answers(calls + k);
    assert w.adapters[p.name := Adapter.Live(answers, calls + k)][p.name := Adapter.Live(answers, calls + k + 1)]
        == w.adapters[p.name := Adapter.Live(answers, calls + k + 1)];
  }

  /** Retrying from attempt `i` on, all earlier ones having been worth repeating. */
  lemma {:induction false} RetryFrom(s: Settings, tape: Tape, p: ProviderCfg, hash: string, w: World,
                                     answers: nat -> Answer, calls: nat, i: nat)
    requires Live(w, p, answers, calls) && i <= s.Retries(p)
    requires var a := AheadOf(answers, calls, w.ticks); forall j :: 0 <= j < i ==> WorthRepeating(s, tape, p, a, j)
    ensures var a, run := AheadOf(answers, calls, w.ticks), Retry(s, tape, p, hash, i, AfterAttempts(w, p, answers, calls, i));
      && Decides(s, tape, p, a, run.used) && run.last == OutcomeOf(s, tape, p, a, run.used)
      && run.world == AfterAttempts(w, p, answers, calls, run.used + 1)
    decreases s.Retries(p) - i
  {
    hide AfterAttempts, Attempt, ElapsedOf;
    var a := AheadOf(answers, calls, w.ticks);
    OneAttempt(s, tape, p, hash, w, answers, calls, i);
    if WorthRepeating(s, tape, p, a, i) && i < s.Retries(p) {
      RetryFrom(s, tape, p, hash, w, answers, calls, i + 1);
    }
  }

  lemma DecidedOnce(s: Settings, tape: Tape, p: ProviderCfg, a: Ahead, k: nat, l: nat)
    requires Decides(s, tape, p, a, k) && Decides(s, tape, p, a, l)
    ensures k == l
  {}

  /**
   * A live provider is asked again exactly while attempts are worth repeating and the budget lasts:
   * the retries used, the outcome and what is left of its answers are those of the deciding attempt.
   */
  lemma RetriesExactly(s: Settings, tape: Tape, p: ProviderCfg, hash: string, w: World, answers: nat -> Answer, calls: nat)
    requires Live(w, p, answers, calls)
    ensures var a, run := AheadOf(answers, calls, w.ticks), Retry(s, tape, p, hash, 0, w);
      && (forall k: nat :: Decides(s, tape, p, a, k) <==> k == run.used)
      && run.last == OutcomeOf(s, tape, p, a, run.used)
      && run.world.adapters == w.adapters[p.name := Adapter.Live(answers, calls + run.used + 1)]
      && run.world.ticks == StartOf(a, run.used + 1)
  {
    var a := AheadOf(answers, calls, w.ticks);
    assert w == AfterAttempts(w, p, answers, calls, 0);
    RetryFrom(s, tape, p, hash, w, answers, calls, 0);
    hide Retry, WorthRepeating, OutcomeOf, AheadOf;
    var run := Retry(s, tape, p, hash, 0, w);
    forall k: nat ensures Decides(s, tape, p, a, k) <==> k == run.used {
      if Decides(s, tape, p, a, k) {
        DecidedOnce(s, tape, p, a, k, run.used);
      }
    }
  }

  /** A provider without an adapter fails every attempt of its budget, at one clock reading each. */
  lemma {:induction false} UnboundExhaustsBudget(s: Settings, tape: Tape, p: ProviderCfg, hash: string, i: nat, w: World)
    requires p.name !in w.adapters && i <= s.Retries(p)
    ensures Retry(s, tape, p, hash, i, w)
         == Retried(Tried.Raised(CallError), s.Retries(p), w.(ticks := w.ticks + s.Retries(p) - i + 1))
    decreases s.Retries(p) - i
  {
    if i < s.Retries(p) {
      UnboundExhaustsBudget(s, tape, p, hash, i + 1, w.(ticks := w.ticks + 1));
    }
  }

  /** The text of attempt `k` is structured output that the job's schema accepts. */
  predicate Acceptable(s: Settings, req: Request, a: Ahead, k: nat) {
    && a.answers(k).Reply?
    && s.codec.parse(a.answers(k).result.text).Some?
    && s.codec.valid(req.job, s.codec.parse(a.answers(k).result.text).value)
  }

  /** Attempt `k`, within the budget, is the first not worth repeating, and its output is acceptable. */
  ghost predicate Answers(s: Settings, tape: Tape, req: Request, p: ProviderCfg, a: Ahead, k: nat) {
    && k <= s.Retries(p)
    && (forall j :: 0 <= j < k ==> WorthRepeating(s, tape, p, a, j))
    && InTime(s, tape, p, a, k) && Acceptable(s, req, a, k)
  }

  /** Every attempt of the budget failed, the last by running out of time. */
  ghost predicate RunsOutOfTime(s: Settings, tape: Tape, p: ProviderCfg, a: Ahead) {
    && (forall j :: 0 <= j <= s.Retries(p) ==> WorthRepeating(s, tape, p, a, j))
    && a.answers(s.Retries(p)) != Raises(CallError)
  }

  /** The record of an answer: everything the request, the configuration and the reply determine. */
  ghost predicate RecordsAnswer(s: Settings, req: Request, i: nat, p: ProviderCfg, result: RawResult, elapsed: nat,
                                retries: nat, record: CallRecord) {
    && record.runId == req.runId && record.job == req.job && record.attemptIndex == i
    && record.provider == p.name && record.modelId == s.ModelFor(p, req.job)
    && record.promptVersion == req.prompt.version && record.promptHash == req.prompt.hash
    && record.renderedPrompt == req.prompt.text
    && record.response == s.codec.parse(result.text) && record.response.Some?
    && record.responseHash == Some(s.codec.hash(record.response.value))
    && record.latencyMs == elapsed && record.retries == retries && record.outcome.Success?
    && record.inputTokens == result.inputTokens && record.outputTokens == result.outputTokens
    && record.finishReason == result.finishReason
    && record.estimatedCost == s.cost(s.ModelFor(p, req.job), result.inputTokens, result.outputTokens)
  }

  /** The record of a failure carries no output, no cost and no retries. */
  ghost predicate RecordsFailure(s: Settings, req: Request, i: nat, p: ProviderCfg, record: CallRecord) {
    && record.runId == req.runId && record.job == req.job && record.attemptIndex == i
    && record.provider == p.name && record.modelId == s.ModelFor(p, req.job)
    && record.promptVersion == req.prompt.version && record.promptHash == req.prompt.hash
    && record.renderedPrompt == req.prompt.text
    && record.response.None? && record.responseHash.None? && record.retries == 0
    && record.inputTokens.None? && record.outputTokens.None? && record.finishReason.None? && record.estimatedCost.None?
  }

  lemma CallFollowsRetries(s: Settings, tape: Tape, req: Request, i: nat, p: ProviderCfg, w: World)
    ensures var run, call := Retry(s, tape, p, req.prompt.hash, 0, w), TryProvider(s, tape, req, i, p, w);
      && call.world == run.world
      && (call.data.Some? <==>
            && run.last.Got? && s.codec.parse(run.last.result.text).Some?
            && s.codec.valid(req.job, s.codec.parse(run.last.result.text).value))
      && (call.data.Some? ==>
            && call.data == s.codec.parse(run.last.result.text)
            && RecordsAnswer(s, req, i, p, run.last.result, run.last.elapsed, run.used, call.record))
      && call.record.latencyMs == (if run.last.Got? then run.last.elapsed else 0)
      && (call.data.None? ==>
            && RecordsFailure(s, req, i, p, call.record)
            && call.failure == (if run.last.Got? then BadOutput else run.last.failure)
            && call.record.outcome == if run.last == Tried.Raised(TimedOut) then Timeout else Error)
  {
    hide Retry;
  }

  lemma TimeoutMeans(s: Settings, tape: Tape, p: ProviderCfg, a: Ahead, k: nat)
    requires Decides(s, tape, p, a, k)
    ensures OutcomeOf(s, tape, p, a, k) == Tried.Raised(TimedOut) <==> RunsOutOfTime(s, tape, p, a)
  {
    if RunsOutOfTime(s, tape, p, a) {
      DecidedOnce(s, tape, p, a, k, s.Retries(p));
      assert WorthRepeating(s, tape, p, a, k);
    }
    if OutcomeOf(s, tape, p, a, k) == Tried.Raised(TimedOut) {
      assert WorthRepeating(s, tape, p, a, k);
    }
  }

  lemma AnswerDecides(s: Settings, tape: Tape, req: Request, p: ProviderCfg, a: Ahead, used: nat)
    requires Decides(s, tape, p, a, used)
    ensures forall k: nat :: Answers(s, tape, req, p, a, k) <==>
      k == used && InTime(s, tape, p, a, used) && Acceptable(s, req, a, used)
  {
    hide Acceptable, ElapsedOf;
    forall k: nat | Answers(s, tape, req, p, a, k) ensures k == used {
      assert Decides(s, tape, p, a, k);
      DecidedOnce(s, tape, p, a, k, used);
    }
  }

  /** Why attempt `k` did not answer: unusable output, the failure it raised, or its lateness. */
  function FailureOf(s: Settings, tape: Tape, p: ProviderCfg, a: Ahead, k: nat): Failure {
    if InTime(s, tape, p, a, k) then BadOutput else if a.answers(k).Raises? then a.answers(k).failure else TimedOut
  }

  lemma FailureMeans(s: Settings, tape: Tape, p: ProviderCfg, a: Ahead, k: nat)
    ensures var last := OutcomeOf(s, tape, p, a, k);
      FailureOf(s, tape, p, a, k) == if last.Got? then BadOutput else last.failure
  {}

  lemma InTimeMeans(s: Settings, tape: Tape, p: ProviderCfg, a: Ahead, k: nat)
    ensures var last := OutcomeOf(s, tape, p, a, k);
      && (last.Got? <==> InTime(s, tape, p, a, k))
      && (last.Got? ==> a.answers(k).Reply? && last.result == a.answers(k).result && last.elapsed == ElapsedOf(tape, a, k))
  {
    hide ElapsedOf;
  }

  /**
   * A live provider answers exactly when the first attempt not worth repeating comes within the
   * budget, in time and acceptable; its record carries that attempt's number, latency and output.
   * Otherwise it leaves a timeout exactly when it used up the budget and the last attempt ran out of
   * time, and an error in every other case.
   */
  lemma ProviderAnswersExactlyWhen(s: Settings, tape: Tape, req: Request, i: nat, p: ProviderCfg, w: World,
                                   answers: nat -> Answer, calls: nat)
    requires Live(w, p, answers, calls)
    ensures var a, call := AheadOf(answers, calls, w.ticks), TryProvider(s, tape, req, i, p, w);
      && (call.data.Some? <==> exists k: nat :: Answers(s, tape, req, p, a, k))
      && (forall k: nat :: Answers(s, tape, req, p, a, k) ==>
            && call.data == s.codec.parse(a.answers(k).result.text)
            && RecordsAnswer(s, req, i, p, a.answers(k).result, ElapsedOf(tape, a, k), k, call.record)
            && call.world.adapters == w.adapters[p.name := Adapter.Live(answers, calls + k + 1)])
      && (forall k: nat :: Decides(s, tape, p, a, k) ==>
            call.record.latencyMs == if InTime(s, tape, p, a, k) then ElapsedOf(tape, a, k) else 0)
      && (forall k: nat :: Decides(s, tape, p, a, k) && call.data.None? ==> call.failure == FailureOf(s, tape, p, a, k))
      && (call.data.None? ==>
            && RecordsFailure(s, req, i, p, call.record)
            && call.record.outcome == if RunsOutOfTime(s, tape, p, a) then Timeout else Error)
  {
    hide Retry, ElapsedOf, AheadOf, TryProvider, RecordsAnswer, RecordsFailure, Answers, Decides, InTime, Acceptable, OutcomeOf,
      RunsOutOfTime, StartOf, FailureOf;
    var a, run := AheadOf(answers, calls, w.ticks), Retry(s, tape, p, req.prompt.hash, 0, w);
    var call := TryProvider(s, tape, req, i, p, w);
    RetriesExactly(s, tape, p, req.prompt.hash, w, answers, calls);
    CallFollowsRetries(s, tape, req, i, p, w);
    assert Decides(s, tape, p, a, run.used);
    AnswerDecides(s, tape, req, p, a, run.used);
    InTimeMeans(s, tape, p, a, run.used);
    TimeoutMeans(s, tape, p, a, run.used);
    FailureMeans(s, tape, p, a, run.used);
    AcceptableMeans(s, req, a, run.used);
    hide Live;
    assert Answers(s, tape, req, p, a, run.used) <==> call.data.Some?;
  }

  lemma AcceptableMeans(s: Settings, req: Request, a: Ahead, k: nat)
    ensures a.answers(k).Reply? ==>
      (Acceptable(s, req, a, k) <==>
         s.codec.parse(a.answers(k).result.text).Some? && s.codec.valid(req.job, s.codec.parse(a.answers(k).result.text).value))
  {}

  // A visit, and what a degraded job names.

  /** Why a visit gave no answer, as its record has it. */
  predicate Names(reason: Reason, record: CallRecord) {
    match record.outcome
    case Success => true
    case CircuitOpen => reason == SkippedOpen(record.provider)
    case Timeout => reason == Failed(record.provider, TimedOut)
    case Error => reason == Failed(record.provider, CallError) || reason == Failed(record.provider, BadOutput)
  }

  /** A skipped visit costs nothing and says so; any other leaves the record of asking the provider once its breaker was asked. */
  lemma VisitRecords(s: Settings, tape: Tape, req: Request, i: nat, p: ProviderCfg, st: Stage) returns (w: World)
    ensures var v, call := Visit(s, tape, req, i, p, st), TryProvider(s, tape, req, i, p, w);
      && w.adapters == st.world.adapters && st.world.ticks <= w.ticks <= st.world.ticks + 1
      && (v.data.None? ==> Names(v.reason, v.record))
      && (v.record.outcome.CircuitOpen? ==>
            RecordsFailure(s, req, i, p, v.record) && v.record.latencyMs == 0 && v.after.world == w)
      && (!v.record.outcome.CircuitOpen? ==> v.record == call.record && v.data == call.data)
  {
    var (_, ticks) := ResolveAt(s.breaker, BreakerOf(st.breakers, p.name), tape, st.world.ticks);
    w := st.world.(ticks := ticks);
    CallFollowsRetries(s, tape, req, i, p, w);
    hide TryProvider, FailAt, Retry, RecordsAnswer;
  }

  /** A degraded job gives the reason of the last provider it visited. */
  lemma {:induction false} DegradedNamesLast(s: Settings, tape: Tape, req: Request, chain: seq<ProviderCfg>, i: nat,
                                             soFar: JobAnswer, st: Stage)
    requires i < |chain|
    ensures var w := Walk(s, tape, req, chain, i, soFar, st);
      w.answer.Degraded? ==> w.records != [] && Names(w.answer.reason, w.records[|w.records| - 1])
    decreases |chain| - i
  {
    hide Visit, Names;
    var v := Visit(s, tape, req, i, chain[i], st);
    var _ := VisitRecords(s, tape, req, i, chain[i], st);
    if v.data.None? && i + 1 < |chain| {
      DegradedNamesLast(s, tape, req, chain, i + 1, Degraded(req.job, v.reason, chain[i].name, s.ModelFor(chain[i], req.job)), v.after);
    }
  }
}
