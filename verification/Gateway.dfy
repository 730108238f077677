/**
 * Provider adapters as the gateway sees them: something that answers or fails.
 *
 * A live adapter is a tape of answers, so a statement about all tapes is a statement about every
 * behaviour a vendor can show. A replaying adapter serves one provider's recorded attempts.
 */
module Adapters {
  import opened Common
  import opened Reasoning

  datatype Answer =
    | Reply(result: RawResult)
    | Raises(failure: Failure)

  /** Recorded attempts by prompt hash, each queue in recorded order. */
  type Queues = map<string, seq<CallRecord>>

  datatype Adapter =
    | Live(answers: nat -> Answer, calls: nat)
    | Replaying(queues: Queues)

  function QueueFor(queues: Queues, hash: string): seq<CallRecord> {
    if hash in queues then queues[hash] else []
  }

  /** A recorded attempt as the answer that reproduces it. */
  function FromRecord(codec: Codec, record: CallRecord): Answer {
    match record.outcome
    case Timeout => Raises(TimedOut)
    case Error => Raises(CallError)
    case CircuitOpen => Raises(CallError)
    case Success =>
      var response := if record.response.Some? then record.response.value else Null;
      Reply(RawResult(codec.dump(response), record.inputTokens, record.outputTokens, record.finishReason))
  }

  function ServeNext(codec: Codec, queues: Queues, hash: string): (Answer, Queues) {
    var queue := QueueFor(queues, hash);
    if queue == [] then (Raises(CallError), queues)
    else (FromRecord(codec, queue[0]), queues[hash := queue[1..]])
  }

  function Complete(codec: Codec, adapter: Adapter, hash: string): (Answer, Adapter) {
    match adapter
    case Live(answers, calls) => (answers(calls), Live(answers, calls + 1))
    case Replaying(queues) =>
      var (answer, rest) := ServeNext(codec, queues, hash);
      (answer, Replaying(rest))
  }

  /** The attempts of provider `name` among `records`, queued by prompt hash. */
  function QueuesOf(name: string, records: seq<CallRecord>): Queues {
    if records == [] then map[]
    else
      var before := QueuesOf(name, records[..|records| - 1]);
      var last := records[|records| - 1];
      if last.provider == name
      then before[last.promptHash := QueueFor(before, last.promptHash) + [last]]
      else before
  }

  /** One replaying adapter for each provider that left a record. */
  function ReplayAdapters(records: seq<CallRecord>): map<string, Adapter> {
    map name | name in (set r | r in records :: r.provider) :: Replaying(QueuesOf(name, records))
  }

  class ReplayProvider {
    const name: string
    const codec: Codec
    var queues: Queues

    constructor (name: string, codec: Codec, records: seq<CallRecord>)
      ensures this.name == name && this.codec == codec
      ensures queues == QueuesOf(name, records)
    {
      this.name, this.codec := name, codec;
      queues := map[];
      new;
      for i := 0 to |records|
        invariant queues == QueuesOf(name, records[..i])
      {
        var record := records[i];
        assert records[..i + 1][..i] == records[..i];
        if record.provider == name {
          queues := queues[record.promptHash := QueueFor(queues, record.promptHash) + [record]];
        }
      }
      assert records[..|records|] == records;
    }

    method Complete(prompt: Prompt) returns (answer: Answer)
      modifies this
      ensures (answer, queues) == old(ServeNext(codec, queues, prompt.hash))
    {
      var queue := QueueFor(queues, prompt.hash);
      if queue == [] {
        return Raises(CallError);
      }
      queues := queues[prompt.hash := queue[1..]];
      answer := FromRecord(codec, queue[0]);
    }
  }
}

/**
 * The failover gateway: for one job, walk the provider chain, retrying each provider under its
 * deadline and behind its breaker, leave one Call Record per visited provider, and return the first
 * validated response or a degraded marker.
 *
 * The functions define what a walk computes from the gateway's state; class `LLMGateway` computes it
 * step by step over breaker objects, adapters, the clock and the record sink.
 */
module Gateway {
  import opened Common
  import opened MonotonicClock
  import opened CircuitBreakers
  import opened Reasoning
  import opened Adapters
  import Router

  /** What a call can change outside the gateway: the adapters and the clock position. */
  datatype World = World(adapters: map<string, Adapter>, ticks: nat)

  /** A single attempt: a result within the deadline, or how it failed. */
  datatype Tried = Got(result: RawResult, elapsed: nat) | Raised(failure: Failure)

  datatype Retried = Retried(last: Tried, used: nat, world: World)

  datatype Called = Called(data: Option<Json>, record: CallRecord, failure: Failure, world: World)

  /** The gateway's whole mutable state apart from the sink. */
  datatype Stage = Stage(breakers: map<string, Breaker>, world: World)

  datatype Visited = Visited(data: Option<Json>, record: CallRecord, reason: Reason, after: Stage)

  datatype Walked = Walked(answer: JobAnswer, records: seq<CallRecord>, after: Stage)

  // One attempt, and the retries of one provider.

  function Attempt(s: Settings, tape: Tape, p: ProviderCfg, hash: string, w: World): (Tried, World) {
    var started := w.(ticks := w.ticks + 1);
    if p.name !in w.adapters then (Raised(CallError), started)
    else
      var (answer, adapter) := Complete(s.codec, w.adapters[p.name], hash);
      var called := started.(adapters := w.adapters[p.name := adapter]);
      match answer
      case Raises(failure) => (Raised(failure), called)
      case Reply(result) =>
        var elapsed := Max(0, tape(called.ticks) - tape(w.ticks));
        var done := called.(ticks := called.ticks + 1);
        (if elapsed > s.TimeoutMs(p) then Raised(TimedOut) else Got(result, elapsed), done)
  }

  /** Attempts `i`, `i + 1`, ... up to the provider's budget; bad output is not retried. */
  function Retry(s: Settings, tape: Tape, p: ProviderCfg, hash: string, i: nat, w: World): Retried
    decreases s.Retries(p) - i
  {
    var (tried, w') := Attempt(s, tape, p, hash, w);
    if tried.Raised? && !tried.failure.BadOutput? && i < s.Retries(p)
    then Retry(s, tape, p, hash, i + 1, w')
    else Retried(tried, i, w')
  }

  // Call Records.

  function FailureRecord(s: Settings, req: Request, i: nat, p: ProviderCfg, outcome: Outcome, latency: nat)
    : CallRecord
  {
    CallRecord(req.runId, req.job, i, p.name, s.ModelFor(p, req.job), req.prompt.version,
               req.prompt.hash, req.prompt.text, None, None, latency, None, None, None, 0, None, outcome)
  }

  function SuccessRecord(s: Settings, req: Request, i: nat, p: ProviderCfg, result: RawResult, data: Json,
                         latency: nat, retries: nat)
    : CallRecord
  {
    CallRecord(req.runId, req.job, i, p.name, s.ModelFor(p, req.job), req.prompt.version,
               req.prompt.hash, req.prompt.text, Some(data), Some(s.codec.hash(data)), latency,
               result.inputTokens, result.outputTokens,
               s.cost(s.ModelFor(p, req.job), result.inputTokens, result.outputTokens),
               retries, result.finishReason, Success)
  }

  /** One provider with retry, deadline and structured-output validation. */
  function TryProvider(s: Settings, tape: Tape, req: Request, i: nat, p: ProviderCfg, w: World): Called {
    var run := Retry(s, tape, p, req.prompt.hash, 0, w);
    match run.last
    case Raised(failure) =>
      var outcome := if failure.TimedOut? then Timeout else Error;
      Called(None, FailureRecord(s, req, i, p, outcome, 0), failure, run.world)
    case Got(result, elapsed) =>
      var data := s.codec.parse(result.text);
      if data.None? || !s.codec.valid(req.job, data.value)
      then Called(None, FailureRecord(s, req, i, p, Error, elapsed), BadOutput, run.world)
      else Called(data, SuccessRecord(s, req, i, p, result, data.value, elapsed, run.used), CallError, run.world)
  }

  // The chain.

  function BreakerOf(breakers: map<string, Breaker>, name: string): Breaker {
    if name in breakers then breakers[name] else FRESH
  }

  /** The provider's breaker has let the call through. */
  function VisitAdmitted(s: Settings, tape: Tape, req: Request, i: nat, p: ProviderCfg, st: Stage): Visited
    requires p.name in st.breakers
  {
    var call := TryProvider(s, tape, req, i, p, st.world);
    if call.data.Some? then
      Visited(call.data, call.record, Exhausted, Stage(st.breakers[p.name := FRESH], call.world))
    else
      var (failed, ticks) := FailAt(s.breaker, st.breakers[p.name], tape, call.world.ticks);
      Visited(None, call.record, Failed(p.name, call.failure),
              Stage(st.breakers[p.name := failed], call.world.(ticks := ticks)))
  }

  function Visit(s: Settings, tape: Tape, req: Request, i: nat, p: ProviderCfg, st: Stage): Visited {
    var (seen, ticks) := ResolveAt(s.breaker, BreakerOf(st.breakers, p.name), tape, st.world.ticks);
    var asked := Stage(st.breakers[p.name := seen], st.world.(ticks := ticks));
    if seen.state.Open?
    then Visited(None, FailureRecord(s, req, i, p, CircuitOpen, 0), SkippedOpen(p.name), asked)
    else VisitAdmitted(s, tape, req, i, p, asked)
  }

  function Walk(s: Settings, tape: Tape, req: Request, chain: seq<ProviderCfg>, i: nat, soFar: JobAnswer, st: Stage)
    : Walked
    requires i <= |chain|
    decreases |chain| - i
  {
    if i == |chain| then Walked(soFar, [], st)
    else
      var v := Visit(s, tape, req, i, chain[i], st);
      if v.data.Some? then Walked(Answered(v.data.value), [v.record], v.after)
      else
        var degraded := Degraded(req.job, v.reason, chain[i].name, s.ModelFor(chain[i], req.job));
        var rest := Walk(s, tape, req, chain, i + 1, degraded, v.after);
        Walked(rest.answer, [v.record] + rest.records, rest.after)
  }

  function Enabled(providers: seq<ProviderCfg>): seq<ProviderCfg> {
    if providers == [] then []
    else (if providers[0].enabled then [providers[0]] else []) + Enabled(providers[1..])
  }

  function ChainFor(s: Settings, runId: string): seq<ProviderCfg> {
    Router.Order(s.strategy, Enabled(s.providers), s.seedFraction(runId))
  }

  function NobodyEnabled(job: Job): JobAnswer { Degraded(job, NoProviders, "none", "none") }

  function BeforeFirst(s: Settings, req: Request, chain: seq<ProviderCfg>): JobAnswer
    requires chain != []
  {
    var last := chain[|chain| - 1];
    Degraded(req.job, Exhausted, last.name, s.ModelFor(last, req.job))
  }

  function RunJob(s: Settings, tape: Tape, req: Request, st: Stage): Walked {
    var chain := ChainFor(s, req.runId);
    if chain == [] then Walked(NobodyEnabled(req.job), [], st)
    else Walk(s, tape, req, chain, 0, BeforeFirst(s, req, chain), st)
  }

  /** What is left of a walk once `emitted` has been recorded. */
  ghost predicate Continues(whole: Walked, emitted: seq<CallRecord>, rest: Walked) {
    whole.answer == rest.answer && whole.records == emitted + rest.records && whole.after == rest.after
  }

  lemma WalkOneStep(s: Settings, tape: Tape, req: Request, chain: seq<ProviderCfg>, i: nat, soFar: JobAnswer, st: Stage,
                    whole: Walked, emitted: seq<CallRecord>)
    requires i < |chain| && Continues(whole, emitted, Walk(s, tape, req, chain, i, soFar, st))
    ensures var v := Visit(s, tape, req, i, chain[i], st);
      if v.data.Some? then whole == Walked(Answered(v.data.value), emitted + [v.record], v.after)
      else
        var degraded := Degraded(req.job, v.reason, chain[i].name, s.ModelFor(chain[i], req.job));
        Continues(whole, emitted + [v.record], Walk(s, tape, req, chain, i + 1, degraded, v.after))
  {
    var v := Visit(s, tape, req, i, chain[i], st);
    if v.data.None? {
      var degraded := Degraded(req.job, v.reason, chain[i].name, s.ModelFor(chain[i], req.job));
      var rest := Walk(s, tape, req, chain, i + 1, degraded, v.after);
      assert emitted + ([v.record] + rest.records) == emitted + [v.record] + rest.records;
    }
  }

  lemma Overwrite<K, V>(m: map<K, V>, k: K, first: V, second: V)
    ensures m[k := first][k := second] == m[k := second]
  {}

  class LLMGateway {
    const s: Settings
    const clock: Clock
    var breakers: map<string, CircuitBreaker>
    var adapters: map<string, Adapter>
    var sink: seq<CallRecord>

    /** Breaker objects share the clock and the configuration, and no two providers share one. */
    ghost predicate Valid()
      reads this
    {
      && (forall n :: n in breakers ==> breakers[n].cfg == s.breaker && breakers[n].clock == clock)
      && (forall m, n :: m in breakers && n in breakers && m != n ==> breakers[m] != breakers[n])
    }

    ghost function State(): Stage
      reads this, clock, breakers.Values
    {
      Stage(map n | n in breakers :: breakers[n].Value(), World(adapters, clock.ticks))
    }

    constructor (s: Settings, clock: Clock, adapters: map<string, Adapter>)
      ensures Valid() && this.s == s && this.clock == clock && sink == [] && breakers == map[]
      ensures State() == Stage(map[], World(adapters, clock.ticks))
    {
      this.s, this.clock, this.adapters := s, clock, adapters;
      breakers, sink := map[], [];
    }

    /** The provider's breaker, created closed on first use. */
    method LookUp(name: string) returns (breaker: CircuitBreaker)
      requires Valid()
      modifies this`breakers
      ensures Valid() && name in breakers && breaker == breakers[name]
      ensures name in old(breakers) ==> breakers == old(breakers)
      ensures name !in old(breakers) ==> fresh(breaker) && breakers == old(breakers)[name := breaker]
      ensures State().breakers == old(State().breakers)[name := old(BreakerOf(State().breakers, name))]
    {
      if name !in breakers {
        var b := new CircuitBreaker(s.breaker, clock);
        breakers := breakers[name := b];
      }
      breaker := breakers[name];
    }

    /** Ask a breaker whether a call may go ahead. */
    method Ask(name: string) returns (allowed: bool)
      requires Valid() && name in breakers
      modifies clock, breakers[name]
      ensures var st := old(State());
        var (seen, ticks) := ResolveAt(s.breaker, st.breakers[name], clock.tape, st.world.ticks);
        && allowed == !seen.state.Open?
        && State().breakers == st.breakers[name := seen] && clock.ticks == ticks
    {
      hide ResolveAt;
      var breaker := breakers[name];
      allowed := breaker.Allows();
      assert forall n :: n in breakers && n != name ==> breakers[n].Value() == old(breakers[n].Value());
    }

    /** Look the provider's breaker up and ask it. */
    method Admit(name: string) returns (allowed: bool)
      requires Valid()
      modifies this`breakers, clock, breakers.Values
      ensures Valid() && name in breakers
      ensures forall b :: b in breakers.Values ==> b in old(breakers.Values) || fresh(b)
      ensures var st := old(State());
        var (seen, ticks) := ResolveAt(s.breaker, BreakerOf(st.breakers, name), clock.tape, st.world.ticks);
        && allowed == !seen.state.Open?
        && State() == Stage(st.breakers[name := seen], st.world.(ticks := ticks))
    {
      hide ResolveAt, BreakerOf;
      ghost var st := State();
      var _ := LookUp(name);
      ghost var looked := State();
      allowed := Ask(name);
      Overwrite(st.breakers, name, looked.breakers[name], State().breakers[name]);
    }

    /** Tell the provider's breaker how the call ended. */
    method Settle(name: string, succeeded: bool)
      requires Valid() && name in breakers
      modifies clock, breakers[name]
      ensures var st := old(State());
        var (failed, ticks) := FailAt(s.breaker, st.breakers[name], clock.tape, st.world.ticks);
        && State().breakers == st.breakers[name := if succeeded then FRESH else failed]
        && clock.ticks == if succeeded then st.world.ticks else ticks
    {
      hide FailAt;
      var breaker := breakers[name];
      assert breaker.Value() == old(State()).breakers[name];
      if succeeded {
        breaker.RecordSuccess();
      } else {
        breaker.RecordFailure();
      }
      assert forall n :: n in breakers && n != name ==> breakers[n].Value() == old(breakers[n].Value());
    }

    method CallOnce(p: ProviderCfg, prompt: Prompt) returns (tried: Tried)
      modifies this`adapters, clock
      ensures (tried, World(adapters, clock.ticks))
           == old(Attempt(s, clock.tape, p, prompt.hash, World(adapters, clock.ticks)))
    {
      var start := clock.Now();
      if p.name !in adapters {
        return Raised(CallError);
      }
      var (answer, adapter) := Complete(s.codec, adapters[p.name], prompt.hash);
      adapters := adapters[p.name := adapter];
      match answer {
        case Raises(failure) =>
          tried := Raised(failure);
        case Reply(result) =>
          var end := clock.Now();
          var elapsed := Max(0, end - start);
          tried := if elapsed > s.TimeoutMs(p) then Raised(TimedOut) else Got(result, elapsed);
      }
    }

    method CallWithRetries(p: ProviderCfg, prompt: Prompt) returns (tried: Tried, used: nat)
      modifies this`adapters, clock
      ensures Retried(tried, used, World(adapters, clock.ticks))
           == old(Retry(s, clock.tape, p, prompt.hash, 0, World(adapters, clock.ticks)))
    {
      used := 0;
      tried := CallOnce(p, prompt);
      while tried.Raised? && !tried.failure.BadOutput? && used < s.Retries(p)
        invariant (if tried.Raised? && !tried.failure.BadOutput? && used < s.Retries(p)
                   then Retry(s, clock.tape, p, prompt.hash, used + 1, World(adapters, clock.ticks))
                   else Retried(tried, used, World(adapters, clock.ticks)))
               == old(Retry(s, clock.tape, p, prompt.hash, 0, World(adapters, clock.ticks)))
        decreases s.Retries(p) - used
      {
        used := used + 1;
        tried := CallOnce(p, prompt);
      }
    }

    method CallProvider(req: Request, i: nat, p: ProviderCfg) returns (data: Option<Json>, record: CallRecord,
                        failure: Failure)
      modifies this`adapters, clock
      ensures Called(data, record, failure, World(adapters, clock.ticks))
           == old(TryProvider(s, clock.tape, req, i, p, World(adapters, clock.ticks)))
    {
      var tried, used := CallWithRetries(p, req.prompt);
      data, failure := None, CallError;
      match tried {
        case Raised(f) =>
          failure := f;
          record := FailureRecord(s, req, i, p, if f.TimedOut? then Timeout else Error, 0);
        case Got(result, elapsed) =>
          var parsed := s.codec.parse(result.text);
          if parsed.None? || !s.codec.valid(req.job, parsed.value) {
            failure := BadOutput;
            record := FailureRecord(s, req, i, p, Error, elapsed);
          } else {
            data := parsed;
            record := SuccessRecord(s, req, i, p, result, parsed.value, elapsed, used);
          }
      }
    }

    /** Call the provider, record what came of it, and tell its breaker. */
    method CallAdmitted(req: Request, i: nat, p: ProviderCfg) returns (data: Option<Json>, reason: Reason)
      requires Valid() && p.name in breakers
      modifies this`adapters, this`sink, clock, breakers[p.name]
      ensures var v := old(VisitAdmitted(s, clock.tape, req, i, p, State()));
        data == v.data && reason == v.reason && sink == old(sink) + [v.record] && State() == v.after
    {
      hide TryProvider, FailAt;
      ghost var st := State();
      var record, failure;
      data, record, failure := CallProvider(req, i, p);
      sink := sink + [record];
      reason := if data.Some? then Exhausted else Failed(p.name, failure);
      assert State().breakers == st.breakers;
      Settle(p.name, data.Some?);
    }

    /** One provider of the chain: breaker, call, record, breaker update. */
    method VisitProvider(req: Request, i: nat, p: ProviderCfg) returns (data: Option<Json>, reason: Reason)
      requires Valid()
      modifies this, clock, breakers.Values
      ensures Valid()
      ensures forall b :: b in breakers.Values ==> b in old(breakers.Values) || fresh(b)
      ensures var v := old(Visit(s, clock.tape, req, i, p, State()));
        data == v.data && reason == v.reason && sink == old(sink) + [v.record] && State() == v.after
    {
      hide VisitAdmitted, ResolveAt, FailureRecord, BreakerOf;
      var allowed := Admit(p.name);
      if !allowed {
        var skipped := FailureRecord(s, req, i, p, CircuitOpen, 0);
        sink := sink + [skipped];
        data, reason := None, SkippedOpen(p.name);
      } else {
        data, reason := CallAdmitted(req, i, p);
      }
    }

    method Run(req: Request) returns (answer: JobAnswer)
      requires Valid()
      modifies this, clock, breakers.Values
      ensures Valid()
      ensures forall b :: b in breakers.Values ==> b in old(breakers.Values) || fresh(b)
      ensures var job := old(RunJob(s, clock.tape, req, State()));
        answer == job.answer && sink == old(sink) + job.records && State() == job.after
    {
      hide Visit;
      var chain := ChainFor(s, req.runId);
      if chain == [] {
        return NobodyEnabled(req.job);
      }
      answer := BeforeFirst(s, req, chain);
      ghost var whole := RunJob(s, clock.tape, req, State());
      ghost var emitted: seq<CallRecord> := [];
      for i := 0 to |chain|
        invariant Valid()
        invariant forall b :: b in breakers.Values ==> b in old(breakers.Values) || fresh(b)
        invariant sink == old(sink) + emitted
        invariant Continues(whole, emitted, Walk(s, clock.tape, req, chain, i, answer, State()))
      {
        ghost var st := State();
        ghost var v := Visit(s, clock.tape, req, i, chain[i], st);
        WalkOneStep(s, clock.tape, req, chain, i, answer, st, whole, emitted);
        var data, reason := VisitProvider(req, i, chain[i]);
        emitted := emitted + [v.record];
        if data.Some? {
          return Answered(data.value);
        }
        answer := Degraded(req.job, reason, chain[i].name, s.ModelFor(chain[i], req.job));
      }
    }
  }
}
