/** What one job's failover trace says: the records, the answer and the breakers it leaves behind. */
module Failover {
  import opened Common
  import opened MonotonicClock
  import opened CircuitBreakers
  import opened Reasoning
  import opened Adapters
  import opened Gateway
  import BreakerRefinement
  import Router

  /** Record `k` of a walk over `chain` from position `i` is the attempt at provider `i + k`. */
  ghost predicate RecordsFollowChain(s: Settings, req: Request, chain: seq<ProviderCfg>, i: nat,
                                     records: seq<CallRecord>) {
    && i + |records| <= |chain|
    && forall k :: 0 <= k < |records| ==>
         && records[k].runId == req.runId && records[k].job == req.job
         && records[k].promptHash == req.prompt.hash
         && records[k].attemptIndex == i + k
         && records[k].provider == chain[i + k].name
         && records[k].modelId == s.ModelFor(chain[i + k], req.job)
  }

  /** A success carries a response that passed validation; anything else carries none. */
  predicate HonestRecord(s: Settings, record: CallRecord) {
    if record.outcome.Success?
    then && record.response.Some?
         && s.codec.valid(record.job, record.response.value)
         && record.responseHash == Some(s.codec.hash(record.response.value))
    else record.response.None? && record.responseHash.None?
  }

  /** Exactly the last record can be a success, and the answer is then its response. */
  ghost predicate AnswerFollowsRecords(records: seq<CallRecord>, answer: JobAnswer) {
    && (forall k :: 0 <= k < |records| - 1 ==> !records[k].outcome.Success?)
    && (answer.Answered? <==> records != [] && records[|records| - 1].outcome.Success?)
    && (answer.Answered? ==> records[|records| - 1].response == Some(answer.data))
  }

  ghost predicate Trace(s: Settings, req: Request, chain: seq<ProviderCfg>, i: nat, records: seq<CallRecord>,
                        answer: JobAnswer) {
    && RecordsFollowChain(s, req, chain, i, records)
    && (forall k :: 0 <= k < |records| ==> HonestRecord(s, records[k]))
    && AnswerFollowsRecords(records, answer)
    && (answer.Degraded? ==> |records| == |chain| - i)
    && (answer.Degraded? && i < |chain| ==>
          && answer.job == req.job
          && answer.lastProvider == chain[|chain| - 1].name
          && answer.lastModel == s.ModelFor(chain[|chain| - 1], req.job))
  }

  lemma TraceCons(s: Settings, req: Request, chain: seq<ProviderCfg>, i: nat, first: CallRecord,
                  rest: seq<CallRecord>, answer: JobAnswer)
    requires i < |chain| && Trace(s, req, chain, i + 1, rest, answer)
    requires RecordsFollowChain(s, req, chain, i, [first])
    requires HonestRecord(s, first) && !first.outcome.Success?
    requires answer.Degraded? && i + 1 == |chain| ==>
      && answer.job == req.job && answer.lastProvider == chain[i].name && answer.lastModel == s.ModelFor(chain[i], req.job)
    ensures Trace(s, req, chain, i, [first] + rest, answer)
  {
    var records := [first] + rest;
    assert forall k :: 1 <= k < |records| ==> records[k] == rest[k - 1];
  }

  lemma {:induction false} WalkTrace(s: Settings, tape: Tape, req: Request, chain: seq<ProviderCfg>, i: nat,
                                     soFar: JobAnswer, st: Stage)
    requires i <= |chain| && soFar.Degraded?
    ensures var w := Walk(s, tape, req, chain, i, soFar, st);
      Trace(s, req, chain, i, w.records, w.answer)
    ensures i == |chain| ==> Walk(s, tape, req, chain, i, soFar, st).answer == soFar
    decreases |chain| - i
  {
    if i < |chain| {
      var v := Visit(s, tape, req, i, chain[i], st);
      VisitIsHonest(s, tape, req, i, chain[i], st);
      if v.data.None? {
        var degraded := Degraded(req.job, v.reason, chain[i].name, s.ModelFor(chain[i], req.job));
        WalkTrace(s, tape, req, chain, i + 1, degraded, v.after);
        var rest := Walk(s, tape, req, chain, i + 1, degraded, v.after);
        TraceCons(s, req, chain, i, v.record, rest.records, rest.answer);
      }
    }
  }

  lemma VisitIsHonest(s: Settings, tape: Tape, req: Request, i: nat, p: ProviderCfg, st: Stage)
    ensures var v := Visit(s, tape, req, i, p, st);
      && HonestRecord(s, v.record)
      && v.record.runId == req.runId && v.record.job == req.job && v.record.promptHash == req.prompt.hash
      && v.record.attemptIndex == i && v.record.provider == p.name && v.record.modelId == s.ModelFor(p, req.job)
      && (v.data.Some? <==> v.record.outcome.Success?)
      && (v.data.Some? ==> v.record.response == v.data)
  {}

  lemma {:induction false} EnabledKeepsNamesUnique(providers: seq<ProviderCfg>)
    requires Router.UniqueNames(providers)
    ensures Router.UniqueNames(Enabled(providers))
    ensures forall p :: p in Enabled(providers) <==> p in providers && p.enabled
  {
    if providers != [] {
      EnabledKeepsNamesUnique(providers[1..]);
      assert providers == [providers[0]] + providers[1..];
      var rest := Enabled(providers[1..]);
      forall k | 0 <= k < |rest| ensures rest[k].name != providers[0].name {
        assert rest[k] in providers[1..];
      }
    }
  }

  /** The chain visits every enabled provider, no other, and each once. */
  lemma ChainVisitsEnabledOnce(s: Settings, runId: string)
    requires s.Valid()
    ensures Router.UniqueNames(ChainFor(s, runId))
    ensures forall p :: p in ChainFor(s, runId) <==> p in s.providers && p.enabled
  {
    EnabledKeepsNamesUnique(s.providers);
    Router.OrderIsPermutation(s.strategy, Enabled(s.providers), s.seedFraction(runId));
    var chain := ChainFor(s, runId);
    forall p ensures p in chain <==> p in Enabled(s.providers) {
      assert p in chain <==> p in multiset(chain);
      assert p in Enabled(s.providers) <==> p in multiset(Enabled(s.providers));
    }
  }

  /**
   * The trace of one job: records number the providers of the chain from 0 along a prefix of it,
   * only the last can be a success, the job answers exactly when it is one, and it degrades exactly
   * when every enabled provider left a failed record, naming the last of them.
   */
  lemma FailoverTrace(s: Settings, tape: Tape, req: Request, st: Stage)
    requires s.Valid()
    ensures var job := RunJob(s, tape, req, st);
      var chain := ChainFor(s, req.runId);
      && RecordsFollowChain(s, req, chain, 0, job.records)
      && (forall k :: 0 <= k < |job.records| ==> HonestRecord(s, job.records[k]))
      && AnswerFollowsRecords(job.records, job.answer)
      && (job.answer.Degraded? <==>
            |job.records| == |chain| && forall k :: 0 <= k < |chain| ==> !job.records[k].outcome.Success?)
      && (job.answer.Degraded? ==>
            && job.answer.job == req.job
            && job.answer.lastProvider == (if chain == [] then "none" else chain[|chain| - 1].name))
  {
    var chain := ChainFor(s, req.runId);
    if chain != [] {
      WalkTrace(s, tape, req, chain, 0, BeforeFirst(s, req, chain), st);
    }
  }

  /** A visit as the provider's breaker experiences it. */
  function PassOf(s: Settings, tape: Tape, req: Request, i: nat, p: ProviderCfg, st: Stage): BreakerRefinement.Visit {
    var asked := tape(st.world.ticks);
    var (seen, ticks) := ResolveAt(s.breaker, BreakerOf(st.breakers, p.name), tape, st.world.ticks);
    if seen.state.Open? then BreakerRefinement.Visit(asked, true, asked)
    else
      var call := TryProvider(s, tape, req, i, p, st.world.(ticks := ticks));
      if call.data.Some? then BreakerRefinement.Visit(asked, false, asked)
      else BreakerRefinement.Visit(asked, true, tape(call.world.ticks))
  }

  /**
   * A visit moves the provider's breaker by one pass of the ask-then-record discipline at the times
   * it read, and leaves every other breaker alone; so the refinement of the breaker by its history
   * holds inside the gateway.
   */
  lemma VisitIsOnePass(s: Settings, tape: Tape, req: Request, i: nat, p: ProviderCfg, st: Stage)
    requires Monotone(tape)
    ensures var v, pass := Visit(s, tape, req, i, p, st), PassOf(s, tape, req, i, p, st);
      && pass.asked == tape(st.world.ticks) && pass.asked <= pass.ended
      && pass.failed == v.data.None?
      && (v.record.outcome.CircuitOpen? <==>
            !BreakerRefinement.Pass(s.breaker, BreakerOf(st.breakers, p.name), pass).1)
      && v.after.breakers == st.breakers[p.name :=
           BreakerRefinement.Pass(s.breaker, BreakerOf(st.breakers, p.name), pass).0]
      && v.after.world.ticks >= st.world.ticks
      && (forall k: nat :: k >= v.after.world.ticks ==> pass.ended <= tape(k))
  {
    hide Retry;
    var (seen, ticks) := ResolveAt(s.breaker, BreakerOf(st.breakers, p.name), tape, st.world.ticks);
    RetryAdvances(s, tape, p, req.prompt.hash, 0, st.world.(ticks := ticks));
  }

  lemma {:induction false} RetryAdvances(s: Settings, tape: Tape, p: ProviderCfg, hash: string, i: nat, w: World)
    ensures Retry(s, tape, p, hash, i, w).world.ticks >= w.ticks
    decreases s.Retries(p) - i
  {
    var (tried, w') := Attempt(s, tape, p, hash, w);
    if tried.Raised? && !tried.failure.BadOutput? && i < s.Retries(p) {
      RetryAdvances(s, tape, p, hash, i + 1, w');
    }
  }
}
