/**
 * A session: the jobs of one run, each of which may depend on the answers before it, and what the
 * breakers of a fresh gateway go through meanwhile.
 */
module Sessions {
  import opened Common
  import opened Folds
  import opened MonotonicClock
  import opened CircuitBreakers
  import opened Reasoning
  import opened Adapters
  import opened Gateway
  import opened Failover
  import BreakerRefinement
  import Router

  /** The next request, if any, given the responses so far (None for a degraded job). */
  type Plan = seq<Option<Json>> -> Option<Request>

  datatype SessionRun = SessionRun(asked: seq<Request>, answers: seq<JobAnswer>, traces: seq<seq<CallRecord>>, after: Stage)

  function DataOf(answer: JobAnswer): Option<Json> {
    if answer.Answered? then Some(answer.data) else None
  }

  /** At most `n` further jobs of the plan. */
  function Session(s: Settings, tape: Tape, plan: Plan, n: nat, known: seq<Option<Json>>, st: Stage): SessionRun {
    if n == 0 || plan(known).None? then SessionRun([], [], [], st)
    else
      var req := plan(known).value;
      var job := RunJob(s, tape, req, st);
      var rest := Session(s, tape, plan, n - 1, known + [DataOf(job.answer)], job.after);
      SessionRun([req] + rest.asked, [job.answer] + rest.answers, [job.records] + rest.traces, rest.after)
  }

  function Flatten(traces: seq<seq<CallRecord>>): seq<CallRecord> {
    if traces == [] then [] else traces[0] + Flatten(traces[1..])
  }

  ghost predicate DistinctPrompts(asked: seq<Request>) {
    forall i, j :: 0 <= i < j < |asked| ==> asked[i].prompt.hash != asked[j].prompt.hash
  }

  // The breaker of one provider, over a whole session.

  /** One time the session reached a provider: what its breaker saw, and the record left. */
  datatype Call = Call(visit: BreakerRefinement.Visit, record: CallRecord)

  function VisitsOf(calls: seq<Call>): (visits: seq<BreakerRefinement.Visit>)
    ensures |visits| == |calls|
    ensures forall i :: 0 <= i < |calls| ==> visits[i] == calls[i].visit
  {
    seq(|calls|, i requires 0 <= i < |calls| => calls[i].visit)
  }

  function RecordsOf(calls: seq<Call>): (records: seq<CallRecord>)
    ensures |records| == |calls|
    ensures forall i :: 0 <= i < |calls| ==> records[i] == calls[i].record
  {
    seq(|calls|, i requires 0 <= i < |calls| => calls[i].record)
  }

  predicate OfProvider(r: CallRecord, name: string) { r.provider == name }

  function RecordsFrom(name: string, records: seq<CallRecord>): seq<CallRecord> {
    Keep((r: CallRecord) => OfProvider(r, name), records)
  }

  /** The calls a walk makes to one provider. */
  function WalkCalls(s: Settings, tape: Tape, req: Request, chain: seq<ProviderCfg>, i: nat, st: Stage, name: string)
    : seq<Call>
    requires i <= |chain|
    decreases |chain| - i
  {
    if i == |chain| then []
    else
      var v := Visit(s, tape, req, i, chain[i], st);
      (if chain[i].name == name then [Call(PassOf(s, tape, req, i, chain[i], st), v.record)] else [])
      + if v.data.Some? then [] else WalkCalls(s, tape, req, chain, i + 1, v.after, name)
  }

  function JobCalls(s: Settings, tape: Tape, req: Request, st: Stage, name: string): seq<Call> {
    WalkCalls(s, tape, req, ChainFor(s, req.runId), 0, st, name)
  }

  function SessionCalls(s: Settings, tape: Tape, plan: Plan, n: nat, known: seq<Option<Json>>, st: Stage, name: string)
    : seq<Call>
  {
    if n == 0 || plan(known).None? then []
    else
      var req := plan(known).value;
      var job := RunJob(s, tape, req, st);
      JobCalls(s, tape, req, st, name)
      + SessionCalls(s, tape, plan, n - 1, known + [DataOf(job.answer)], job.after, name)
  }

  /** The breaker is where its calls took it, in order, and the skips are the calls it did not allow. */
  ghost predicate Explains(cfg: BreakerCfg, b: Breaker, calls: seq<Call>) {
    var visits := VisitsOf(calls);
    && b == BreakerRefinement.After(cfg, visits) && BreakerRefinement.InOrder(visits)
    && forall j :: 0 <= j < |calls| ==>
         (calls[j].record.outcome.CircuitOpen? <==> !BreakerRefinement.Allowed(cfg, visits, j))
  }

  /** Every call so far has ended by the time the clock shows from now on. */
  ghost predicate Past(calls: seq<Call>, tape: Tape, ticks: nat) {
    forall j, k: nat :: 0 <= j < |calls| && k >= ticks ==> calls[j].visit.ended <= tape(k)
  }

  lemma ExplainsSnoc(cfg: BreakerCfg, b: Breaker, calls: seq<Call>, call: Call, tape: Tape, ticks: nat)
    requires Explains(cfg, b, calls) && Past(calls, tape, ticks)
    requires call.visit.asked == tape(ticks) && call.visit.asked <= call.visit.ended
    requires call.record.outcome.CircuitOpen? <==> !BreakerRefinement.Pass(cfg, b, call.visit).1
    ensures Explains(cfg, BreakerRefinement.Pass(cfg, b, call.visit).0, calls + [call])
  {
    hide BreakerRefinement.Pass;
    var all := calls + [call];
    var visits, more := VisitsOf(calls), VisitsOf(all);
    assert more == visits + [call.visit] && more[..|calls|] == visits;
    forall j | 0 <= j < |all|
      ensures all[j].record.outcome.CircuitOpen? <==> !BreakerRefinement.Allowed(cfg, more, j)
    {
      if j < |calls| {
        assert more[..j] == visits[..j] && more[j] == visits[j];
        assert BreakerRefinement.Allowed(cfg, more, j) == BreakerRefinement.Allowed(cfg, visits, j);
      }
    }
  }

  lemma PastSnoc(calls: seq<Call>, call: Call, tape: Tape, ticks: nat, ticks': nat)
    requires Past(calls, tape, ticks) && ticks <= ticks'
    requires forall k: nat :: k >= ticks' ==> call.visit.ended <= tape(k)
    ensures Past(calls + [call], tape, ticks')
  {}

  lemma PastLater(calls: seq<Call>, tape: Tape, ticks: nat, ticks': nat)
    requires Past(calls, tape, ticks) && ticks <= ticks'
    ensures Past(calls, tape, ticks')
  {}

  lemma {:induction false} WalkExplains(s: Settings, tape: Tape, req: Request, chain: seq<ProviderCfg>, i: nat,
                                        soFar: JobAnswer, st: Stage, name: string, past: seq<Call>)
    requires i <= |chain| && Monotone(tape)
    requires Explains(s.breaker, BreakerOf(st.breakers, name), past) && Past(past, tape, st.world.ticks)
    ensures var w, calls := Walk(s, tape, req, chain, i, soFar, st), past + WalkCalls(s, tape, req, chain, i, st, name);
      && Explains(s.breaker, BreakerOf(w.after.breakers, name), calls) && Past(calls, tape, w.after.world.ticks)
    decreases |chain| - i
  {
    hide Visit, PassOf, Explains, Past;
    if i == |chain| {
      assert past + [] == past;
    } else {
      var p := chain[i];
      var v, pass := Visit(s, tape, req, i, p, st), PassOf(s, tape, req, i, p, st);
      VisitIsOnePass(s, tape, req, i, p, st);
      var call := Call(pass, v.record);
      var here := if p.name == name then [call] else [];
      if p.name == name {
        ExplainsSnoc(s.breaker, BreakerOf(st.breakers, name), past, call, tape, st.world.ticks);
        PastSnoc(past, call, tape, st.world.ticks, v.after.world.ticks);
      } else {
        PastLater(past, tape, st.world.ticks, v.after.world.ticks);
        assert past + here == past;
      }
      if v.data.None? {
        var degraded := Degraded(req.job, v.reason, p.name, s.ModelFor(p, req.job));
        WalkExplains(s, tape, req, chain, i + 1, degraded, v.after, name, past + here);
        var rest := WalkCalls(s, tape, req, chain, i + 1, v.after, name);
        assert past + here + rest == past + (here + rest);
      } else {
        assert past + (here + []) == past + here;
      }
    }
  }

  lemma {:induction false} WalkCallsAreRecords(s: Settings, tape: Tape, req: Request, chain: seq<ProviderCfg>, i: nat,
                                               soFar: JobAnswer, st: Stage, name: string)
    requires i <= |chain|
    ensures RecordsOf(WalkCalls(s, tape, req, chain, i, st, name))
         == RecordsFrom(name, Walk(s, tape, req, chain, i, soFar, st).records)
    decreases |chain| - i
  {
    hide Visit, PassOf;
    if i < |chain| {
      var v := Visit(s, tape, req, i, chain[i], st);
      VisitIsHonest(s, tape, req, i, chain[i], st);
      if v.data.None? {
        var degraded := Degraded(req.job, v.reason, chain[i].name, s.ModelFor(chain[i], req.job));
        WalkCallsAreRecords(s, tape, req, chain, i + 1, degraded, v.after, name);
        var rest := Walk(s, tape, req, chain, i + 1, degraded, v.after).records;
        RecordsFromConcat(name, [v.record], rest);
      }
      OneRecord(name, v.record);
    }
  }

  lemma JobExplains(s: Settings, tape: Tape, req: Request, st: Stage, name: string, past: seq<Call>)
    requires Monotone(tape)
    requires Explains(s.breaker, BreakerOf(st.breakers, name), past) && Past(past, tape, st.world.ticks)
    ensures var job, calls := RunJob(s, tape, req, st), JobCalls(s, tape, req, st, name);
      && Explains(s.breaker, BreakerOf(job.after.breakers, name), past + calls)
      && Past(past + calls, tape, job.after.world.ticks)
      && RecordsOf(calls) == RecordsFrom(name, job.records)
  {
    hide Walk, Explains, Past, BreakerOf;
    var chain := ChainFor(s, req.runId);
    if chain == [] {
      assert past + [] == past;
    } else {
      WalkExplains(s, tape, req, chain, 0, BeforeFirst(s, req, chain), st, name, past);
      WalkCallsAreRecords(s, tape, req, chain, 0, BeforeFirst(s, req, chain), st, name);
    }
  }

  lemma {:induction false} SessionExplains(s: Settings, tape: Tape, plan: Plan, n: nat, known: seq<Option<Json>>,
                                           st: Stage, name: string, past: seq<Call>)
    requires Monotone(tape)
    requires Explains(s.breaker, BreakerOf(st.breakers, name), past) && Past(past, tape, st.world.ticks)
    ensures var run, calls := Session(s, tape, plan, n, known, st), SessionCalls(s, tape, plan, n, known, st, name);
      && Explains(s.breaker, BreakerOf(run.after.breakers, name), past + calls)
      && RecordsOf(calls) == RecordsFrom(name, Flatten(run.traces))
  {
    hide RunJob, JobCalls, Explains, Past, BreakerOf, RecordsFrom;
    if n == 0 || plan(known).None? {
      assert past + [] == past;
      NoRecords(name);
    } else {
      var req := plan(known).value;
      var job, calls := RunJob(s, tape, req, st), JobCalls(s, tape, req, st, name);
      JobExplains(s, tape, req, st, name, past);
      var known' := known + [DataOf(job.answer)];
      SessionExplains(s, tape, plan, n - 1, known', job.after, name, past + calls);
      var rest := SessionCalls(s, tape, plan, n - 1, known', job.after, name);
      assert past + calls + rest == past + (calls + rest);
      var run := Session(s, tape, plan, n - 1, known', job.after);
      assert ([job.records] + run.traces)[1..] == run.traces;
      RecordsFromConcat(name, job.records, Flatten(run.traces));
      assert RecordsOf(calls + rest) == RecordsOf(calls) + RecordsOf(rest);
    }
  }

  lemma OneRecord(name: string, r: CallRecord)
    ensures RecordsFrom(name, [r]) == if r.provider == name then [r] else []
  {
    var p := (x: CallRecord) => OfProvider(x, name);
    assert Keep(p, [r]) == (if p([r][0]) then [[r][0]] else []) + Keep(p, [r][1..]);
    assert [r][1..] == [] && Keep(p, []) == [];
  }

  lemma NoRecords(name: string)
    ensures RecordsFrom(name, []) == []
  {}

  lemma RecordsFromConcat(name: string, a: seq<CallRecord>, b: seq<CallRecord>)
    ensures RecordsFrom(name, a + b) == RecordsFrom(name, a) + RecordsFrom(name, b)
  {
    KeepConcat((r: CallRecord) => OfProvider(r, name), a, b);
  }

  lemma FreshSessionExplains(s: Settings, tape: Tape, plan: Plan, n: nat, world: World, name: string)
    requires Monotone(tape)
    ensures var run := Session(s, tape, plan, n, [], Stage(map[], world));
      var calls := SessionCalls(s, tape, plan, n, [], Stage(map[], world), name);
      Explains(s.breaker, BreakerOf(run.after.breakers, name), calls) && RecordsOf(calls) == RecordsFrom(name, Flatten(run.traces))
  {
    var start := Stage(map[], world);
    assert VisitsOf([]) == [];
    SessionExplains(s, tape, plan, n, [], start, name, []);
    hide Session, SessionCalls, Explains;
    var calls := SessionCalls(s, tape, plan, n, [], start, name);
    assert [] + calls == calls;
  }

  /** In the gateway too, probes of a provider that keeps failing are at least a cool-down apart. */
  lemma GatewayProbesAreSpaced(s: Settings, tape: Tape, plan: Plan, n: nat, world: World, name: string, i: nat, j: nat)
    requires Monotone(tape)
    requires var calls := SessionCalls(s, tape, plan, n, [], Stage(map[], world), name);
      && i < j < |calls| && (forall k :: i <= k < j ==> calls[k].visit.failed)
      && BreakerRefinement.After(s.breaker, VisitsOf(calls)[..i + 1]).state.Open?
      && !calls[i].record.outcome.CircuitOpen? && !calls[j].record.outcome.CircuitOpen?
    ensures var calls := SessionCalls(s, tape, plan, n, [], Stage(map[], world), name);
      calls[j].visit.asked - calls[i].visit.ended >= s.breaker.halfOpenAfterMs
  {
    hide Session, SessionCalls, Explains, BreakerRefinement.After;
    var calls := SessionCalls(s, tape, plan, n, [], Stage(map[], world), name);
    var run := Session(s, tape, plan, n, [], Stage(map[], world));
    FreshSessionExplains(s, tape, plan, n, world, name);
    ExplainedProbesAreSpaced(s, BreakerOf(run.after.breakers, name), calls, i, j);
  }

  lemma ExplainedProbesAreSpaced(s: Settings, b: Breaker, calls: seq<Call>, i: nat, j: nat)
    requires Explains(s.breaker, b, calls)
    requires i < j < |calls| && forall k :: i <= k < j ==> calls[k].visit.failed
    requires BreakerRefinement.After(s.breaker, VisitsOf(calls)[..i + 1]).state.Open?
    requires !calls[i].record.outcome.CircuitOpen? && !calls[j].record.outcome.CircuitOpen?
    ensures calls[j].visit.asked - calls[i].visit.ended >= s.breaker.halfOpenAfterMs
  {
    hide BreakerRefinement.After, BreakerRefinement.Pass;
    var visits := VisitsOf(calls);
    assert BreakerRefinement.Allowed(s.breaker, visits, i) && BreakerRefinement.Allowed(s.breaker, visits, j);
    assert forall k :: i <= k < j ==> visits[k].failed;
    BreakerRefinement.ProbesAreSpaced(s.breaker, visits, i, j);
  }

  /**
   * Over a whole session of a fresh gateway, under a clock that never goes back, the breaker of each
   * provider is where that provider's calls took it; each call left one record; and a call was
   * skipped exactly when the plain history of failures does not let it through.
   */
  lemma GatewayFollowsHistory(s: Settings, tape: Tape, plan: Plan, n: nat, world: World, name: string)
    requires Monotone(tape)
    ensures var run := Session(s, tape, plan, n, [], Stage(map[], world));
      var calls := SessionCalls(s, tape, plan, n, [], Stage(map[], world), name);
      var visits := VisitsOf(calls);
      && BreakerOf(run.after.breakers, name) == BreakerRefinement.After(s.breaker, visits)
      && BreakerRefinement.InOrder(visits)
      && RecordsOf(calls) == RecordsFrom(name, Flatten(run.traces))
      && forall j :: 0 <= j < |calls| ==>
           (calls[j].record.outcome.CircuitOpen? <==>
              !BreakerRefinement.Lets(s.breaker, BreakerRefinement.Story(s.breaker, visits[..j]), visits[j].asked))
  {
    FreshSessionExplains(s, tape, plan, n, world, name);
    var calls := SessionCalls(s, tape, plan, n, [], Stage(map[], world), name);
    hide Session, SessionCalls, BreakerRefinement.Lets, BreakerRefinement.Story, BreakerRefinement.Pass;
    forall j | 0 <= j < |calls|
      ensures calls[j].record.outcome.CircuitOpen? <==>
        !BreakerRefinement.Lets(s.breaker, BreakerRefinement.Story(s.breaker, VisitsOf(calls)[..j]), VisitsOf(calls)[j].asked)
    {
      BreakerRefinement.AllowsExactlyOutsideCoolDown(s.breaker, VisitsOf(calls), j);
    }
  }
}

/**
 * Failures in a row. The records of a session say how many of a provider's latest attempts failed in
 * a row, and that bounds, and on a clock that stands still determines, what its breaker does.
 */
module Streaks {
  import opened Common
  import opened MonotonicClock
  import opened CircuitBreakers
  import opened Reasoning
  import opened Adapters
  import opened Gateway
  import opened Failover
  import opened Sessions
  import Router

  /** How many of the provider's last records, taken from the end, are not successes. */
  function Streak(records: seq<CallRecord>, name: string): nat {
    if records == [] then 0
    else
      var before, last := Streak(records[..|records| - 1], name), records[|records| - 1];
      if last.provider != name then before else if last.outcome.Success? then 0 else before + 1
  }

  /** The clock of the shipped wiring, which reads zero throughout, and of any instantaneous replay. */
  ghost predicate Stopped(tape: Tape) { forall k: nat :: tape(k) == tape(0) }

  /** What a breaker can be after `n` failures in a row; on a stopped clock, what it is. */
  ghost predicate Follows(cfg: BreakerCfg, tape: Tape, b: Breaker, n: nat) {
    && (n < cfg.failureThreshold ==> b.state.Closed? && b.openedAt.None? && |b.failures| <= n)
    && (Stopped(tape) ==>
          if n < cfg.failureThreshold
          then |b.failures| == n && forall i :: 0 <= i < n ==> b.failures[i] == tape(0)
          else b == Trip(tape(0)))
  }

  lemma StreakSnoc(records: seq<CallRecord>, r: CallRecord, name: string)
    ensures Streak(records + [r], name)
         == if r.provider != name then Streak(records, name) else if r.outcome.Success? then 0 else Streak(records, name) + 1
  {
    assert (records + [r])[..|records|] == records;
  }

  /** Records of other providers leave the streak alone. */
  lemma {:induction false} StreakIgnores(past: seq<CallRecord>, records: seq<CallRecord>, name: string)
    requires forall k :: 0 <= k < |records| ==> records[k].provider != name
    ensures Streak(past + records, name) == Streak(past, name)
  {
    if records == [] {
      assert past + records == past;
    } else {
      var front, last := records[..|records| - 1], records[|records| - 1];
      StreakIgnores(past, front, name);
      StreakSnoc(past + front, last, name);
      assert past + front + [last] == past + records;
    }
  }

  /** Only providers and successes matter to a streak. */
  lemma {:induction false} StreakDependsOn(past: seq<CallRecord>, a: seq<CallRecord>, b: seq<CallRecord>, name: string)
    requires |a| == |b|
    requires forall k :: 0 <= k < |a| ==> a[k].provider == b[k].provider && (a[k].outcome.Success? <==> b[k].outcome.Success?)
    ensures Streak(past + a, name) == Streak(past + b, name)
  {
    if a == [] {
      assert a == b;
    } else {
      var n := |a| - 1;
      StreakDependsOn(past, a[..n], b[..n], name);
      StreakSnoc(past + a[..n], a[n], name);
      StreakSnoc(past + b[..n], b[n], name);
      assert past + a[..n] + [a[n]] == past + a && past + b[..n] + [b[n]] == past + b;
    }
  }

  // Breakers follow streaks.

  lemma {:induction false} PruneShrinks(failures: seq<int>, horizon: int)
    ensures |Prune(failures, horizon)| <= |failures|
    ensures (forall i :: 0 <= i < |failures| ==> failures[i] >= horizon) ==> Prune(failures, horizon) == failures
  {
    if failures != [] && failures[0] < horizon {
      PruneShrinks(failures[1..], horizon);
    }
  }

  lemma FailFollows(cfg: BreakerCfg, tape: Tape, b: Breaker, ticks: nat, n: nat)
    requires cfg.Valid() && Follows(cfg, tape, b, n) && n < cfg.failureThreshold
    ensures Follows(cfg, tape, FailAt(cfg, b, tape, ticks).0, n + 1)
  {
    var now := tape(ticks);
    PruneShrinks(b.failures + [now], now - cfg.windowMs);
  }

  lemma VisitFollows(s: Settings, tape: Tape, req: Request, i: nat, p: ProviderCfg, st: Stage, n: nat)
    requires s.breaker.Valid() && Follows(s.breaker, tape, BreakerOf(st.breakers, p.name), n)
    ensures var v := Visit(s, tape, req, i, p, st);
      && v.after.breakers == st.breakers[p.name := BreakerOf(v.after.breakers, p.name)]
      && Follows(s.breaker, tape, BreakerOf(v.after.breakers, p.name), if v.record.outcome.Success? then 0 else n + 1)
      && (n < s.breaker.failureThreshold ==> !v.record.outcome.CircuitOpen?)
      && (Stopped(tape) && n >= s.breaker.failureThreshold ==> v.record.outcome.CircuitOpen?)
  {
    hide Retry, FailAt;
    var b := BreakerOf(st.breakers, p.name);
    VisitIsHonest(s, tape, req, i, p, st);
    if n < s.breaker.failureThreshold {
      var call := TryProvider(s, tape, req, i, p, st.world);
      FailFollows(s.breaker, tape, b, call.world.ticks, n);
    } else {
      assert Stopped(tape) ==> tape(st.world.ticks) == tape(0);
    }
  }

  /** Every breaker is what its provider's streak makes of it. */
  ghost predicate AllFollow(cfg: BreakerCfg, tape: Tape, breakers: map<string, Breaker>, past: seq<CallRecord>) {
    forall name :: Follows(cfg, tape, BreakerOf(breakers, name), Streak(past, name))
  }

  /** A skip needs a streak as long as the threshold; on a stopped clock such a streak is a skip. */
  ghost predicate SkipFollows(cfg: BreakerCfg, tape: Tape, before: seq<CallRecord>, r: CallRecord) {
    var n := Streak(before, r.provider);
    && (n < cfg.failureThreshold ==> !r.outcome.CircuitOpen?)
    && (Stopped(tape) && n >= cfg.failureThreshold ==> r.outcome.CircuitOpen?)
  }

  ghost predicate SkipsFollow(cfg: BreakerCfg, tape: Tape, past: seq<CallRecord>, records: seq<CallRecord>) {
    forall k :: 0 <= k < |records| ==> SkipFollows(cfg, tape, past + records[..k], records[k])
  }

  lemma SkipsConcat(cfg: BreakerCfg, tape: Tape, past: seq<CallRecord>, a: seq<CallRecord>, b: seq<CallRecord>)
    requires SkipsFollow(cfg, tape, past, a) && SkipsFollow(cfg, tape, past + a, b)
    ensures SkipsFollow(cfg, tape, past, a + b)
  {
    hide SkipFollows;
    var all := a + b;
    forall k | 0 <= k < |all| ensures SkipFollows(cfg, tape, past + all[..k], all[k]) {
      if k < |a| {
        assert all[..k] == a[..k];
      } else {
        assert past + all[..k] == past + a + b[..k - |a|];
      }
    }
  }

  lemma SkipsOne(cfg: BreakerCfg, tape: Tape, past: seq<CallRecord>, r: CallRecord)
    requires SkipFollows(cfg, tape, past, r)
    ensures SkipsFollow(cfg, tape, past, [r])
  {
    hide SkipFollows;
    assert past + [r][..0] == past;
  }

  lemma AllFollowVisit(s: Settings, tape: Tape, req: Request, i: nat, p: ProviderCfg, st: Stage, past: seq<CallRecord>)
    requires s.breaker.Valid() && AllFollow(s.breaker, tape, st.breakers, past)
    ensures var v := Visit(s, tape, req, i, p, st);
      AllFollow(s.breaker, tape, v.after.breakers, past + [v.record]) && SkipsFollow(s.breaker, tape, past, [v.record])
  {
    hide Visit, Follows;
    var v := Visit(s, tape, req, i, p, st);
    VisitIsHonest(s, tape, req, i, p, st);
    assert Follows(s.breaker, tape, BreakerOf(st.breakers, p.name), Streak(past, p.name));
    VisitFollows(s, tape, req, i, p, st, Streak(past, p.name));
    SkipsOne(s.breaker, tape, past, v.record);
    forall name ensures Follows(s.breaker, tape, BreakerOf(v.after.breakers, name), Streak(past + [v.record], name)) {
      StreakSnoc(past, v.record, name);
      assert Follows(s.breaker, tape, BreakerOf(st.breakers, name), Streak(past, name));
    }
  }

  lemma {:induction false} WalkFollows(s: Settings, tape: Tape, req: Request, chain: seq<ProviderCfg>, i: nat,
                                       soFar: JobAnswer, st: Stage, past: seq<CallRecord>)
    requires i <= |chain| && s.breaker.Valid() && AllFollow(s.breaker, tape, st.breakers, past)
    ensures var w := Walk(s, tape, req, chain, i, soFar, st);
      AllFollow(s.breaker, tape, w.after.breakers, past + w.records) && SkipsFollow(s.breaker, tape, past, w.records)
    decreases |chain| - i
  {
    hide Visit, AllFollow, SkipsFollow;
    if i == |chain| {
      assert past + [] == past;
      NothingSkips(s.breaker, tape, past);
    } else {
      var v := Visit(s, tape, req, i, chain[i], st);
      AllFollowVisit(s, tape, req, i, chain[i], st, past);
      if v.data.None? {
        var degraded := Degraded(req.job, v.reason, chain[i].name, s.ModelFor(chain[i], req.job));
        WalkFollows(s, tape, req, chain, i + 1, degraded, v.after, past + [v.record]);
        var rest := Walk(s, tape, req, chain, i + 1, degraded, v.after).records;
        SkipsConcat(s.breaker, tape, past, [v.record], rest);
        assert past + [v.record] + rest == past + ([v.record] + rest);
      }
    }
  }

  lemma NothingSkips(cfg: BreakerCfg, tape: Tape, past: seq<CallRecord>)
    ensures SkipsFollow(cfg, tape, past, [])
  {}

  lemma JobFollows(s: Settings, tape: Tape, req: Request, st: Stage, past: seq<CallRecord>)
    requires s.breaker.Valid() && AllFollow(s.breaker, tape, st.breakers, past)
    ensures var job := RunJob(s, tape, req, st);
      AllFollow(s.breaker, tape, job.after.breakers, past + job.records) && SkipsFollow(s.breaker, tape, past, job.records)
  {
    hide Walk, AllFollow, SkipsFollow;
    var chain := ChainFor(s, req.runId);
    if chain == [] {
      assert past + [] == past;
      NothingSkips(s.breaker, tape, past);
    } else {
      WalkFollows(s, tape, req, chain, 0, BeforeFirst(s, req, chain), st, past);
    }
  }

  lemma {:induction false} SessionFollows(s: Settings, tape: Tape, plan: Plan, n: nat, known: seq<Option<Json>>,
                                          st: Stage, past: seq<CallRecord>)
    requires s.breaker.Valid() && AllFollow(s.breaker, tape, st.breakers, past)
    ensures SkipsFollow(s.breaker, tape, past, Flatten(Session(s, tape, plan, n, known, st).traces))
  {
    hide RunJob, AllFollow, SkipsFollow;
    if n == 0 || plan(known).None? {
      NothingSkips(s.breaker, tape, past);
    } else {
      var req := plan(known).value;
      var job := RunJob(s, tape, req, st);
      JobFollows(s, tape, req, st, past);
      var known' := known + [DataOf(job.answer)];
      SessionFollows(s, tape, plan, n - 1, known', job.after, past + job.records);
      var rest := Session(s, tape, plan, n - 1, known', job.after).traces;
      assert ([job.records] + rest)[1..] == rest;
      SkipsConcat(s.breaker, tape, past, job.records, Flatten(rest));
    }
  }

  lemma FreshBreakersFollow(cfg: BreakerCfg, tape: Tape)
    requires cfg.Valid()
    ensures AllFollow(cfg, tape, map[], [])
  {}

  /** The session of a fresh gateway skips as its own records say. */
  lemma FreshSessionFollows(s: Settings, tape: Tape, plan: Plan, n: nat, world: World)
    requires s.breaker.Valid()
    ensures SkipsFollow(s.breaker, tape, [], Flatten(Session(s, tape, plan, n, [], Stage(map[], world)).traces))
  {
    FreshBreakersFollow(s.breaker, tape);
    SessionFollows(s, tape, plan, n, [], Stage(map[], world), []);
  }

  /**
   * On a stopped clock an open breaker never lets a probe through: once a provider has failed a
   * threshold of times in a row, every later attempt at it is skipped, however long the session.
   */
  lemma StoppedBreakerNeverRecovers(s: Settings, tape: Tape, plan: Plan, n: nat, world: World, i: nat, j: nat)
    requires s.breaker.Valid() && Stopped(tape)
    requires var records := Flatten(Session(s, tape, plan, n, [], Stage(map[], world)).traces);
      i <= j < |records| && Streak(records[..i], records[j].provider) >= s.breaker.failureThreshold
    ensures Flatten(Session(s, tape, plan, n, [], Stage(map[], world)).traces)[j].outcome.CircuitOpen?
  {
    FreshSessionFollows(s, tape, plan, n, world);
    hide Session;
    StreakPersists(s.breaker, tape, Flatten(Session(s, tape, plan, n, [], Stage(map[], world)).traces), i, j);
  }

  lemma {:induction false} StreakPersists(cfg: BreakerCfg, tape: Tape, records: seq<CallRecord>, i: nat, j: nat)
    requires Stopped(tape) && SkipsFollow(cfg, tape, [], records)
    requires i <= j < |records| && Streak(records[..i], records[j].provider) >= cfg.failureThreshold
    ensures Streak(records[..j], records[j].provider) >= cfg.failureThreshold && records[j].outcome.CircuitOpen?
    decreases j - i
  {
    hide Streak, Stopped;
    var name := records[j].provider;
    assert [] + records[..i] == records[..i];
    assert SkipFollows(cfg, tape, [] + records[..i], records[i]);
    hide SkipsFollow;
    if i < j {
      assert records[..i + 1] == records[..i] + [records[i]];
      StreakSnoc(records[..i], records[i], name);
      hide SkipFollows;
      StreakPersists(cfg, tape, records, i + 1, j);
    }
  }

  // Jobs leave one record a provider.

  ghost predicate DistinctProviders(records: seq<CallRecord>) {
    forall k, l :: 0 <= k < l < |records| ==> records[k].provider != records[l].provider
  }

  lemma JobVisitsOnce(s: Settings, tape: Tape, req: Request, st: Stage)
    requires s.Valid()
    ensures DistinctProviders(RunJob(s, tape, req, st).records)
  {
    hide RunJob, ChainFor;
    var records, chain := RunJob(s, tape, req, st).records, ChainFor(s, req.runId);
    FailoverTrace(s, tape, req, st);
    ChainVisitsEnabledOnce(s, req.runId);
    forall k, l | 0 <= k < l < |records| ensures records[k].provider != records[l].provider {
      assert chain[k].name != chain[l].name;
    }
  }

  /** Within a job, a streak is what it was before the job. */
  lemma StreakWithinJob(past: seq<CallRecord>, records: seq<CallRecord>, k: nat)
    requires k < |records| && DistinctProviders(records)
    ensures Streak(past + records[..k], records[k].provider) == Streak(past, records[k].provider)
  {
    StreakIgnores(past, records[..k], records[k].provider);
  }

  /** A job lengthens a streak by one at most. */
  lemma {:induction false} JobAddsOne(past: seq<CallRecord>, records: seq<CallRecord>, name: string)
    requires DistinctProviders(records)
    ensures Streak(past + records, name) <= Streak(past, name) + 1
  {
    if records == [] {
      assert past + records == past;
    } else {
      var front, last := records[..|records| - 1], records[|records| - 1];
      StreakSnoc(past + front, last, name);
      assert past + front + [last] == past + records;
      if last.provider == name {
        StreakIgnores(past, front, name);
      } else {
        JobAddsOne(past, front, name);
      }
    }
  }

  /** No attempt comes after `threshold` failures of its provider in a row. */
  ghost predicate NeverTrips(threshold: nat, past: seq<CallRecord>, records: seq<CallRecord>) {
    forall k :: 0 <= k < |records| ==> Streak(past + records[..k], records[k].provider) < threshold
  }

  lemma {:induction false} FewJobs(s: Settings, tape: Tape, plan: Plan, n: nat, known: seq<Option<Json>>, st: Stage,
                                   past: seq<CallRecord>, done: nat)
    requires s.Valid() && done + n <= s.breaker.failureThreshold
    requires forall name :: Streak(past, name) <= done
    ensures NeverTrips(s.breaker.failureThreshold, past, Flatten(Session(s, tape, plan, n, known, st).traces))
  {
    hide RunJob;
    if n > 0 && plan(known).Some? {
      var req := plan(known).value;
      var job := RunJob(s, tape, req, st);
      JobVisitsOnce(s, tape, req, st);
      var known' := known + [DataOf(job.answer)];
      forall name ensures Streak(past + job.records, name) <= done + 1 {
        JobAddsOne(past, job.records, name);
      }
      FewJobs(s, tape, plan, n - 1, known', job.after, past + job.records, done + 1);
      var rest := Session(s, tape, plan, n - 1, known', job.after).traces;
      assert ([job.records] + rest)[1..] == rest;
      NeverTripsConcat(s.breaker.failureThreshold, past, job.records, Flatten(rest));
    }
  }

  lemma NeverTripsConcat(threshold: nat, past: seq<CallRecord>, a: seq<CallRecord>, b: seq<CallRecord>)
    requires DistinctProviders(a) && (forall name :: Streak(past, name) < threshold)
    requires NeverTrips(threshold, past + a, b)
    ensures NeverTrips(threshold, past, a + b)
  {
    var all := a + b;
    forall k | 0 <= k < |all| ensures Streak(past + all[..k], all[k].provider) < threshold {
      if k < |a| {
        assert all[..k] == a[..k];
        StreakWithinJob(past, a, k);
      } else {
        assert past + all[..k] == past + a + b[..k - |a|];
      }
    }
  }

  /** A session of no more jobs than the threshold cannot trip a fresh breaker. */
  lemma FewJobsNeverTrip(s: Settings, tape: Tape, plan: Plan, n: nat, st: Stage)
    requires s.Valid() && n <= s.breaker.failureThreshold
    ensures NeverTrips(s.breaker.failureThreshold, [], Flatten(Session(s, tape, plan, n, [], st).traces))
  {
    FewJobs(s, tape, plan, n, [], st, [], 0);
  }
}
