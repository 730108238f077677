# Market state engine: a verified model

The engine computes a market state from prices, indicators, events and news, lets unreliable LLM
providers add a sentiment and a narrative, checks the result and publishes it. This project models
the parts of it whose correctness spans several functions or a whole history, and proves what they
promise. `dafny verify dfyconfig.toml` checks everything.

## Contents

| file | what it models |
|---|---|
| `Common.dfy` | options, clamps, facts about reals, text order, sorting and folds that forget order |
| `CircuitBreaker.dfy` | the injected clock, the three-state breaker, and its refinement of a plain history of failures |
| `Reasoning.dfy` | Call Records, settings, and the router's failover order |
| `Gateway.dfy` | live and replaying adapters, and the failover gateway |
| `Retries.dfy` | how many attempts a provider gets, and when it answers, from the tapes alone |
| `Failover.dfy` | what one job's trace of Call Records says |
| `Session.dfy` | sessions of dependent jobs: the calls each breaker answers, and how failures in a row open it |
| `Replay.dfy` | the replay check, the record-then-replay theorem, and exactly when each of them fails |
| `RunLedger.dfy` | the database tables, the run service and the scheduler |
| `RunContents.dfy` | what a committed run leaves in every table, after one trigger and after whole histories |
| `EventTrigger.dfy` | the persistent debounce of macro events, over every history including crashes |
| `Submissions.dfy` | exactly when a submission runs, waits, fails or is answered |
| `Scoring.dfy`, `Regime.dfy` | rounding, trend, risk and confidence scores; the health index and the regime |
| `Formulas.dfy` | every score, the index and the regime written out over the raw inputs |
| `Rules.dfy` | rule matching, regime guards, conflict resolution, event attribution |
| `RuleMatching.dfy` | which rules match and what they say, from the events and the book |
| `Pipeline.dfy` | scoring, assembly, composition and guardrails as one run, and what holds of every run |
| `PublishedAssets.dfy` | what a published run says of each asset, its regime and its flags |
| `Findings.dfy` | the findings of any run, and when it may be published |
| `ReadBack.dfy` | the replay check against the stored records as the database orders them |
| `ReplayExamples.dfy` | settings and runs that meet the hypotheses of the replay theorems |
| `PipelineReplay.dfy` | the pipeline over the gateway: a replayed run publishes the same document up to its sequence |
| `Indicators.dfy` | moving averages, MACD, RSI and ATR over series of any length |
| `IndicatorFormulas.dfy` | the same in closed form: what each bar weighs |
| `News.dfy` | news weighting, ranking and the capped digest |
| `Aggregation.dfy` | the multi-source median with its audit flags |
| `AggregationContents.dfy` | which snapshots count, when there is an aggregate, and what it says |
| `Bars.dfy` | folding hourly candles into six-hour bars |
| `Stores.dfy` | last-good snapshots, capitalisation samples, run paging, provider health, call metrics |

## Main results

- **Record, then replay.** Any session of jobs with different prompts, over any live providers, breaker
  states and clock, replayed within its deadlines from its records in any order, asks the same requests,
  gets the same answers and leaves the same records up to latency, retries used and a fixed translation
  of outcomes, as long as no attempt that matters meets a breaker the replay itself has opened
  (`RecordThenReplay`). At most `failure_threshold` jobs never open one (`FewJobsNeverTrip`), and then
  the replay check passes if and only if no recorded attempt was skipped or timed out with retries left
  (`ReplayVerifiesExactlyWhen`). On the stopped clock the application wires in, both questions are
  settled for sessions of any length by reading the records: the session is reproduced if and only if
  no provider succeeded after a threshold of failures in a row (`StoppedReplayReproducesExactlyWhen`),
  and the check passes if and only if, besides, the skips are exactly the attempts after such a row and
  nothing timed out with retries left (`StoppedReplayVerifiesExactlyWhen`). A session that also ran on a
  stopped clock is always reproduced, and passes exactly when nothing timed out with retries left
  (`StoppedSessionReplays`).
- **The check on stored records.** Read back by creation time and attempt index, the records pass the
  check, whatever the database does with ties, if and only if every attempt comes back under its own
  outcome and creation times are in step with the jobs: never decreasing, and increasing from one job
  to the next
  (`EveryReadBackPassesExactlyWhen`, `StoppedReadBackPassesExactlyWhen`).
- **A replayed run publishes the same document** at the moment of the stored run, but for the run
  sequence, which restarts at one; both deterministic fingerprints match even when the replay check
  does not pass (`ReplayPublishesSameRun`), with any threshold of at least two (`RunsAreReplayable`).
- **Retries.** A provider answers exactly when its first attempt not worth repeating comes within the
  budget, in time and with acceptable output; the record carries that attempt's number and output
  (`RetriesExactly`, `ProviderAnswersExactlyWhen`).
- **Debounce.** After every history of submissions, duplicates, failures, overlaps, scheduled runs and
  crashes, no event is in two triggered batches, triggered and pending events partition the complete
  ones, triggered rows are a cool-down apart, and the run ledger is intact
  (`EveryHistoryIsDebounced`); a submission triggers all that is pending or nothing
  (`SubmissionTriggersAllOrNothing`). A new event starts a run exactly when its value is known, every
  triggered row is a cool-down old, nothing else runs and the run finishes (`SubmissionEndsExactly`), so
  after any history such a submission leaves nothing waiting (`QuietSubmissionClearsPending`).
- **Runs are stored whole.** Over every history, crashes included, the tables hold exactly the committed
  runs, each with its own trigger, inputs, document and degradation, and their Call Records one run
  after the other (`HistoryStoresEveryRun`).
- **No run is blocked.** Whatever the LLM answers, the guardrails find nothing and the run is published
  (`EveryRunIsPublished`), every number of it fits its contract range (`EveryRunFitsContract`), and its
  deterministic core does not depend on the answers (`ReasonerNeverTouchesCore`). It holds exactly the
  configured assets that have features, each with the scores of its own features, the rules activated
  for it and what was heard and told about it (`RunHoldsEveryAsset`).
- **Rules are complete.** An asset is activated exactly when some active rule has its condition met by
  the last surprises and, under its guard, an effect on that asset (`ActivatedExactlyWhen`), and each
  candidate occurs as often as the matching rules say it (`CandidatesAreWhatRulesSay`).
- **Numbers are written out.** Trend and risk are exact weighted means whose clamps never act, the index
  and the regime follow from totals and thresholds, averages from closed forms (`TrendExactly`,
  `RiskExactly`, `IndexExactly`, `StateExactly`, `EmaInClosedForm`, `RsiExactly`).
- **The breaker refines a history.** A breaker is a window onto the plain list of failures since the
  last reset (`BreakerRefinesHistory`, `AllowsExactlyOutsideCoolDown`), and through every session of the
  gateway each provider's breaker is where its own calls took it: a call is skipped exactly when that
  history does not let it through (`GatewayFollowsHistory`), and probes of a provider that keeps failing
  are a cool-down apart (`GatewayProbesAreSpaced`).
- **Order does not matter** where it should not: the rulebook as a whole (`MatchForgetsRuleOrder`), news
  digest, source aggregation, regime, router, six-hour bars. Averages and indicators commute with
  changes of scale; the exceptions are exact (`EmaStateUnderAffineChange`, `RsiLaws`).

## How the source is modelled

- Times are integers (milliseconds). A clock is a tape of readings, a live provider a tape of answers,
  so a statement about every tape covers every behaviour. `Monotone` is assumed only where named.
- The application builds its gateway without a clock, so breakers and deadlines see a clock that stands
  still (`src/market_state_engine/reasoning/gateway.py:64-65`, `:93`); `Stopped` is that clock. The
  shipped settings are two retries and a threshold of five (`config/models/providers.yaml`).
- A replay takes the id and the previous regime from the stored document. Features, news decay and
  evidence are functions of the time of the run, and `SameMoment` names the hypothesis that the replay's
  clock shows the stored run's time.
- Floats are exact reals, rounding is half-even. The router's seed fraction and news decay are functions
  of their input.
- JSON text, hashing and schema validation are functions in a `Codec`; `Lawful` states the only law
  used, that whatever the codec reads it reads again from the text it writes for it. Lawful codecs exist
  (`ReplayExamples.WrappingCodecIsLawful`). Prompts carry their hash.
- Each stateful class is proved to move an abstract value by a function of the same shape, and the laws
  are proved of that function. The gateway holds its breakers as objects and its adapters as values.
- A database session works on a draft that is stored as a whole or not at all.
- The scheduler's lock is a flag; a concurrent run is one that finds it set.

## Where the code differs from its documentation

- The `run_failure` log row is written inside the session that the re-raised exception rolls back, so
  a failed run leaves no row (`RunLedger.OnlyCommittedRunsLeaveRows`).
- Replay is documented as faithful. Timeouts on providers with retries come back as errors
  (`ReplayTheorem.TimeoutReplaysAsError` is such a run), and so do attempts skipped behind a breaker that
  the replay finds closed; `ReplayTheorem.ReplayVerifiesExactlyWhen` and
  `ReplayTheorem.StoppedReplayVerifiesExactlyWhen` say exactly when nothing differs. Answers are lost
  only after a threshold of failures in a row (`ReplayTheorem.ThresholdOneLosesSecondJob` is such a
  session, `ReplayTheorem.StoppedReplayReproducesExactlyWhen` the condition).
- An open breaker is documented to let a probe through after its cool-down. On the stopped clock of the
  application it never does: after a threshold of failures in a row a provider is skipped for good
  (`Streaks.StoppedBreakerNeverRecovers`).
- Regime confidence is documented to rest on the distance from the nearest decision boundary. In
  transition any single threshold counts as one, so the margin vanishes on it however far either regime
  is (`RegimeFormulas.TransitionMarginVanishesExactlyWhen`); in risk-on and risk-off it is that distance
  (`RegimeFormulas.MarginIsTight`).
- The replay check compares with records ordered by creation time. Jobs recorded at one instant can come
  back out of order and fail it although the run is reproduced (`ReadBack.EveryReadBackPassesExactlyWhen`),
  and a time on the full second is written without a fraction, so it sorts behind its whole second
  (`ReadBack.FullSecondIsOutOfStep`).
- A replayed run does not keep its run sequence: the harness numbers it in an empty database
  (`PipelineReplay.ReplayPublishesSameRun`).
- An event first stored with its consensus only can never receive its actual value, since a later
  submission under its id is ignored (`DebounceHistory.StoredEventIsFinal`).
- A zero gap between the moving averages counts as below, so mirroring prices does not always mirror
  the moving-average state, and a flat series reads as below and diverging
  (`IndicatorMath.EmaStateUnderAffineChange`). A flat series has RSI 100 (`IndicatorMath.RsiLaws`).
- The health monitor's latency window holds the last successes, which can be older than the outcomes in
  its outcome window (`CallStatistics.ForgottenSuccessKeepsLatency`): the two agree exactly when no
  success is older than the outcome window or the window is all successes
  (`CallStatistics.WindowsAgreeExactlyWhen`).
- The cap on the news digest spares the best item about a primary asset exactly when fewer chosen items
  than the cap rank before it (`DigestLaws.CoverageExactlyWhen`). Distinct ids, which the feed reader
  ensures, make that so; forty items of one id do not (`DigestLaws.RepeatedIdsStarveDigest`).

## Model

| member | source | states |
|---|---|---|
| `CircuitBreakers.CircuitBreaker.constructor` | src/market_state_engine/reasoning/reliability/circuit_breaker.py:34-39 | a breaker starts closed with no failures |
| `CircuitBreakers.CircuitBreaker.MaybeHalfOpen` | src/market_state_engine/reasoning/reliability/circuit_breaker.py:51-57 | an open breaker becomes half-open exactly when the cool-down has elapsed, reading the clock only while open |
| `CircuitBreakers.CircuitBreaker.Allows` | src/market_state_engine/reasoning/reliability/circuit_breaker.py:47-49 | a call may go ahead unless the breaker, looked at now, is open |
| `CircuitBreakers.CircuitBreaker.DropExpired` | src/market_state_engine/reasoning/reliability/circuit_breaker.py:59-62 | expired failures leave the front of the list until an unexpired one is met |
| `CircuitBreakers.CircuitBreaker.RecordSuccess` | src/market_state_engine/reasoning/reliability/circuit_breaker.py:64-68 | a success closes the breaker and forgets every failure |
| `CircuitBreakers.CircuitBreaker.RecordFailure` | src/market_state_engine/reasoning/reliability/circuit_breaker.py:70-79 | a failure trips a half-open breaker, or one whose recent failures reach the threshold |
| `CircuitBreakers.CircuitBreaker.DoTrip` | src/market_state_engine/reasoning/reliability/circuit_breaker.py:81-84 | tripping opens the breaker now and clears its failures |
| `BreakerRefinement.PruneKeepsRecent` | src/market_state_engine/reasoning/reliability/circuit_breaker.py:59-62 | pruning from the front of an ascending list keeps exactly the failures inside the window |
| `BreakerRefinement.FailureStep` | src/market_state_engine/reasoning/reliability/circuit_breaker.py:70-79 | counting failures since the last reset, the breaker opens exactly when those inside the window reach the threshold |
| `BreakerRefinement.PassRefinesNext` | src/market_state_engine/reasoning/reliability/circuit_breaker.py:33-84 | one ask-then-record pass moves the breaker as the history moves, and lets the call through exactly when the history does |
| `BreakerRefinement.BreakerRefinesHistory` | src/market_state_engine/reasoning/reliability/circuit_breaker.py:33-84 | over every run of calls the breaker is a window onto the plain list of failures since the last reset |
| `BreakerRefinement.AllowsExactlyOutsideCoolDown` | src/market_state_engine/reasoning/reliability/circuit_breaker.py:41-57 | every call is let through while closed, and once open from the end of the cool-down on and not before |
| `BreakerRefinement.ProbesAreSpaced` | src/market_state_engine/reasoning/reliability/circuit_breaker.py:51-84 | probes of a provider that keeps failing are at least a cool-down apart |
| `Router.PickWeighted` | src/market_state_engine/reasoning/reliability/router.py:51-66 | the loop picks the provider whose cumulative weight first exceeds the target and puts it in front of the others |
| `Router.OrderIsPermutation` | src/market_state_engine/reasoning/reliability/router.py:42-66 | either strategy visits the same providers, each once |
| `Router.OrderForgetsListing` | src/market_state_engine/reasoning/reliability/router.py:22-49 | the failover order does not depend on how the configuration lists the providers |
| `Router.OrderExactly` | src/market_state_engine/reasoning/reliability/router.py:42-66 | the chain is the providers by ascending priority number and then name; under the weighted strategy the one whose share holds the seed fraction is moved to the front and the others keep their order |
| `Router.SharesAreWeights` | src/market_state_engine/reasoning/reliability/router.py:51-66 | the shares start at zero and are as wide as the weights, negative ones counting as zero |
| `Router.WeightedPickOwnsItsShare` | src/market_state_engine/reasoning/reliability/router.py:51-66 | a provider is picked exactly when the seed fraction falls in its share of the total weight, both ways, for every provider of the list |
| `Adapters.ReplayProvider.constructor` | src/market_state_engine/reasoning/adapters/replay.py:28-35 | the queues hold the provider's recorded attempts by prompt hash, in recorded order |
| `Adapters.ReplayProvider.Complete` | src/market_state_engine/reasoning/adapters/replay.py:40-64 | each call serves and removes the next recorded attempt for its prompt; an empty queue is a call error |
| `Gateway.LLMGateway.constructor` | src/market_state_engine/reasoning/gateway.py:73-103 | a gateway starts with no breaker and nothing recorded |
| `Gateway.LLMGateway.LookUp` | src/market_state_engine/reasoning/reliability/circuit_breaker.py:95-100 | a provider's breaker is created closed on first use and is its own object ever after |
| `Gateway.LLMGateway.Ask` | src/market_state_engine/reasoning/gateway.py:143 | asking a breaker moves that breaker only |
| `Gateway.LLMGateway.Admit` | src/market_state_engine/reasoning/gateway.py:141-143 | looking up and asking a breaker gives the state's answer and changes one entry |
| `Gateway.LLMGateway.Settle` | src/market_state_engine/reasoning/gateway.py:167-171 | telling a breaker how the call ended resets it or counts a failure, and touches no other |
| `Gateway.LLMGateway.CallOnce` | src/market_state_engine/reasoning/reliability/timeout.py:30-39 | one attempt within the deadline, or a call error or timeout; a provider without adapter fails |
| `Gateway.LLMGateway.CallWithRetries` | src/market_state_engine/reasoning/reliability/retry.py:45-64 | attempts repeat up to the retry budget on call errors and timeouts, not on bad output |
| `Retries.RetriesExactly` | src/market_state_engine/reasoning/reliability/retry.py:45-64 | the retries used are the number of the first attempt not worth repeating, or the whole budget; the outcome is that attempt's, and the provider has been asked once more than that |
| `Retries.UnboundExhaustsBudget` | src/market_state_engine/reasoning/gateway.py:255-262 | a provider without adapter fails every attempt of its budget |
| `Gateway.LLMGateway.CallProvider` | src/market_state_engine/reasoning/gateway.py:181-253 | the answer is validated structured output with a success record, or nothing with a timeout or error record |
| `Retries.ProviderAnswersExactlyWhen` | src/market_state_engine/reasoning/gateway.py:181-306 | a provider answers exactly when its first attempt not worth repeating is within the budget, in time and acceptable, and its record carries that attempt's number, latency, output and cost; otherwise it leaves a timeout exactly when the budget ran out on one, else an error |
| `Gateway.LLMGateway.CallAdmitted` | src/market_state_engine/reasoning/gateway.py:162-172 | a call that may go ahead leaves one record and settles its breaker |
| `Gateway.LLMGateway.VisitProvider` | src/market_state_engine/reasoning/gateway.py:138-172 | every visited provider leaves exactly one record, a skipped one too |
| `Retries.VisitRecords` | src/market_state_engine/reasoning/gateway.py:138-172 | a skipped visit costs nothing and names the open breaker; any other leaves the record of asking the provider, and no answer is explained by how that ended |
| `Gateway.LLMGateway.Run` | src/market_state_engine/reasoning/gateway.py:124-179 | the loop over the chain computes the walk: answer, records in order, and final breakers, adapters and clock |
| `Failover.ChainVisitsEnabledOnce` | src/market_state_engine/reasoning/gateway.py:125-138 | the chain is the enabled providers, each once |
| `Failover.VisitIsHonest` | src/market_state_engine/reasoning/gateway.py:264-306 | a record says success exactly when a validated response is returned, and carries it with its hash |
| `Failover.WalkTrace` | src/market_state_engine/reasoning/gateway.py:138-179 | from any point of the chain the remaining records number the remaining providers along a prefix |
| `Failover.FailoverTrace` | src/market_state_engine/reasoning/gateway.py:124-179 | records are numbered 0, 1, 2, ... along a prefix of the chain, only the last can be a success, an answer is returned exactly then, and a degraded marker exactly when every provider failed, naming the last |
| `Retries.DegradedNamesLast` | src/market_state_engine/reasoning/gateway.py:124-179 | a degraded job gives the reason of the last provider it visited, as that provider's record has it |
| `Failover.VisitIsOnePass` | src/market_state_engine/reasoning/gateway.py:141-172 | each visit is one ask-then-record pass of that provider's breaker at nondecreasing times, and leaves the other breakers alone |
| `Sessions.GatewayFollowsHistory` | src/market_state_engine/reasoning/gateway.py:111-179 | through a whole session each provider's breaker is where its own calls, in time order, took it; each call left one record; and a call was skipped exactly when the plain history of failures does not let it through |
| `Sessions.GatewayProbesAreSpaced` | src/market_state_engine/reasoning/gateway.py:138-172 | in every session, calls let through to a provider that keeps failing from an open breaker are at least a cool-down apart |
| `Streaks.SessionFollows` | src/market_state_engine/reasoning/gateway.py:138-172 | from any breakers that agree with the records so far, a session never skips a provider before a threshold of non-successes of it in a row, and on a stopped clock always after |
| `Streaks.StoppedBreakerNeverRecovers` | src/market_state_engine/reasoning/gateway.py:85-103 | on a stopped clock, once a provider of a fresh gateway has failed a threshold of times in a row, every later attempt of the session is skipped, so no probe is ever made |
| `Streaks.FewJobsNeverTrip` | src/market_state_engine/reasoning/gateway.py:124-179 | a session of no more jobs than the threshold never gets a provider to that many non-successes in a row before an attempt |
| `ReplayVerification.ComparePair` | src/market_state_engine/reasoning/replay.py:62-91 | two records are compared field by field over the replay-critical fields |
| `ReplayVerification.VerifyReplay` | src/market_state_engine/reasoning/replay.py:78-93 | the diffs are the count difference and every differing field of the paired records |
| `ReplayVerification.NoDiffMeansSameTrace` | src/market_state_engine/reasoning/replay.py:62-93 | no diff means equally many records, pairwise equal on the replay-critical fields, and conversely |
| `ReplayVerification.DiffsExactly` | src/market_state_engine/reasoning/replay.py:78-93 | the check reports every difference of count or compared field, with both values, and nothing else |
| `ReplayTheorem.ReplayAttempt` | src/market_state_engine/reasoning/adapters/replay.py:40-64 | a replayed attempt consumes the head of its own queue and no other |
| `ReplayTheorem.RetryOnRecord` | src/market_state_engine/reasoning/reliability/retry.py:45-64 | one held record replays as itself, except that a timeout with retries left becomes a call error |
| `ReplayTheorem.ReplayVisit` | src/market_state_engine/reasoning/gateway.py:138-253 | a replayed visit reproduces the recorded one under the outcome translation |
| `ReplayTheorem.ReplayWalk` | src/market_state_engine/reasoning/gateway.py:138-179 | a replayed walk visits the same providers and ends the same way |
| `ReplayTheorem.ReplayJob` | src/market_state_engine/reasoning/gateway.py:124-179 | a replayed job gives the same answer and records and leaves later prompts' queues alone |
| `ReplayTheorem.ReplaySession` | src/market_state_engine/reasoning/gateway.py:111-179 | jobs that depend on earlier answers replay one after the other |
| `ReplayTheorem.HeldForWholeSession` | src/market_state_engine/reasoning/replay.py:39-43 | adapters built from the stored records, in any order, hold for each job exactly its record |
| `ReplayTheorem.RecordThenReplay` | src/market_state_engine/reasoning/replay.py:39-43 | a replayed session asks the same requests, gets the same answers and leaves the same records up to the outcome translation, for all live behaviours and any number of jobs, unless an attempt that matters comes after a threshold of failures in a row |
| `ReplayTheorem.ReplayVerifiesExactlyWhen` | src/market_state_engine/reasoning/replay.py:78-93 | short of such a row of failures, the replay check passes exactly when no recorded attempt was skipped by a breaker or timed out with retries left |
| `ReplayTheorem.StoppedReplayVerifiesExactlyWhen` | src/market_state_engine/reasoning/replay.py:78-93 | on a stopped clock, for sessions of any length, the check passes exactly when the skipped attempts are those after a threshold of their provider's failures in a row and no other timed out with retries left |
| `ReplayTheorem.StoppedReplayReproducesExactlyWhen` | src/market_state_engine/reasoning/replay.py:39-43 | on a stopped clock, a session of any length is reproduced exactly when no provider was recorded to succeed after a threshold of its failures in a row |
| `ReplayTheorem.StoppedSessionReplays` | src/market_state_engine/evaluation/replay_harness.py:95-135 | with both clocks stopped, a session of a fresh gateway of any length is reproduced, and the check passes exactly when no attempt timed out with retries left |
| `ReadBack.SessionIsKeyed` | src/market_state_engine/reasoning/gateway.py:124-179 | in a session with different prompts provider and prompt identify a record, and each job numbers its attempts from 0 |
| `ReadBack.ReadsBackAsEmittedExactlyWhen` | src/market_state_engine/persistence/repositories.py:167-173 | the stored records come back in the order of emission, whatever happens to ties, exactly when creation times never decrease and increase from one job to the next |
| `ReadBack.CheckPassesExactlyWhen` | src/market_state_engine/evaluation/replay_harness.py:95-135 | for any arrangement of the stored records that are both replayed and compared with, the check passes exactly when it is the order of emission and every attempt comes back under its own outcome |
| `ReadBack.EveryReadBackPassesExactlyWhen` | src/market_state_engine/evaluation/replay_harness.py:95-135 | the check passes on every possible read-back exactly when creation times are in step with the jobs and every attempt comes back under its own outcome |
| `ReadBack.StoppedReadBackPassesExactlyWhen` | src/market_state_engine/evaluation/replay_harness.py:95-135 | the same with both clocks stopped, for sessions of any length: exactly when creation times are in step and nothing timed out with retries left |
| `ReadBack.FullSecondIsOutOfStep` | src/market_state_engine/reasoning/gateway.py:68-69 | a record created on the full second followed by another of the same second is out of step, because the former's time sorts last as text |
| `ReplayTheorem.ThresholdOneLosesSecondJob` | src/market_state_engine/evaluation/replay_harness.py:95-135 | with a threshold of one on a stopped clock, the replay of a recorded session that first degraded and then answered does not reproduce it, and the replay check says so |
| `ReplayTheorem.FailThenAnswerHappens` | src/market_state_engine/reasoning/gateway.py:138-179 | such a session exists: a live provider that fails once and answers after the cool-down |
| `ReplayTheorem.TimeoutReplaysAsError` | src/market_state_engine/reasoning/reliability/retry.py:45-64 | a provider with retries that never answers leaves a timeout whose replay is an error, so the replay check fails, whatever the clocks |
| `ReplayExamples.WrappingCodecIsLawful` | src/market_state_engine/reasoning/adapters/replay.py:58-64 | there is a codec that refuses some texts, tells all others apart, and reads back what it writes |
| `ReplayExamples.LostSessionExists` | src/market_state_engine/reasoning/gateway.py:138-179 | concrete settings, a live world and its stored records for which every replay on a stopped clock loses an answer |
| `ReplayExamples.ReportedTimeoutExists` | src/market_state_engine/reasoning/reliability/retry.py:45-64 | concrete settings and a world, for any number of retries but none, whose recorded timeout the check always reports |
| `PipelineReplay.ReplayPublishesSameRun` | src/market_state_engine/evaluation/replay_harness.py:95-135 | a run replayed from its stored inputs and records at the moment of the stored run, in a database of its own, publishes the same document but for the sequence, which becomes one; both deterministic fingerprints match |
| `PipelineReplay.TalkAsks` | src/market_state_engine/pipeline/orchestrator.py:83-150 | a run asks for sentiment exactly when it has evidence, and then, whatever came of it, for the synthesis over the run it led to |
| `PipelineReplay.RunHears` | src/market_state_engine/pipeline/orchestrator.py:83-150 | the first answer is heard as the sentiment if there was evidence, the last as the synthesis |
| `PipelineReplay.RunIgnoresSequence` | src/market_state_engine/pipeline/orchestrator.py:83-150 | the sequence of a run reaches the document as its sequence and nothing else, and the document remembers its id and previous regime |
| `PipelineReplay.RunsAreReplayable` | src/market_state_engine/pipeline/orchestrator.py:83-150 | with a threshold of at least two no breaker stands in the way of replaying a run, whatever happened live |
| `RunLedger.RunService.Execute` | src/market_state_engine/pipeline/runner.py:62-123 | one run commits all its rows, or a single no-op row for a known id, or nothing when the work raises |
| `RunLedger.RunService.LogOutcome` | src/market_state_engine/pipeline/runner.py:104-121 | the log rows of a completed run, in order, each stamped when written |
| `RunLedger.RunService.LogCalls` | src/market_state_engine/pipeline/runner.py:106-113 | one provider-call row per Call Record, in order |
| `RunLedger.Scheduler.Trigger` | src/market_state_engine/pipeline/scheduler.py:65-101 | a run in flight refuses another; otherwise identity is assigned, given events replace ingested ones, and the lock is released however the run ends |
| `RunLedger.SequencesCountUp` | src/market_state_engine/persistence/repositories.py:150-153 | the next sequence number is one more than the number of committed runs |
| `RunLedger.RunRowsCount` | src/market_state_engine/pipeline/runner.py:75-121 | a completed run logs exactly one start and one finish row, under its own id |
| `RunLedger.CommitKeepsLedger` | src/market_state_engine/pipeline/runner.py:95-121 | committing a run extends the ledger by one run with its input, output, start and finish |
| `RunLedger.TriggerKeepsLedger` | src/market_state_engine/pipeline/scheduler.py:65-101 | however a trigger ends, the n-th run has sequence n and every run exactly one input, output, start and finish row |
| `RunLedger.OnlyCommittedRunsLeaveRows` | src/market_state_engine/persistence/session.py:68-78 | a refused or failed run leaves the database unchanged; repeating a stored id adds one log row and nothing else |
| `RunContents.TriggerEndsExactly` | src/market_state_engine/pipeline/scheduler.py:65-101 | a trigger is refused exactly while a run is in flight, raises exactly when ingestion or the pipeline of a new id does, is a no-op for a stored id, and otherwise ends with the run's own status |
| `RunContents.RunIsStored` | src/market_state_engine/pipeline/runner.py:95-113 | a run that goes through adds its run, input and output row, with its document, ingest and degradation under the next sequence, and all its Call Records |
| `RunContents.RunIsLogged` | src/market_state_engine/pipeline/runner.py:75-121 | it logs its start, each provider call in order with its outcome, its degradation and its finish, each stamped with its own reading of the clock |
| `RunContents.HistoryStoresEveryRun` | src/market_state_engine/pipeline/runner.py:62-123 | over every history the tables hold exactly the committed runs in order, each with what it brought, and the stored calls are theirs one run after the other |
| `EventTriggers.EventTrigger.Record` | src/market_state_engine/pipeline/event_trigger.py:186-198 | one log row is committed, stamped with the current time |
| `EventTriggers.EventTrigger.AddIfAbsent` | src/market_state_engine/persistence/repositories.py:248-281 | an event is stored once; a known id returns the stored row and changes nothing |
| `EventTriggers.EventTrigger.Submit` | src/market_state_engine/pipeline/event_trigger.py:54-100 | submission stores, accepts, debounces or runs, in that order of checks |
| `EventTriggers.EventTrigger.ExecutePending` | src/market_state_engine/pipeline/event_trigger.py:102-162 | the whole pending batch runs, and one row says it was triggered, debounced by an overlap, or failed |
| `DebounceHistory.KeepPendingMembers` | src/market_state_engine/pipeline/event_trigger.py:164-177 | pending means stored, complete and in no triggered batch |
| `DebounceHistory.DebouncedPartitions` | src/market_state_engine/pipeline/event_trigger.py:164-177 | triggered and pending ids are disjoint, without repeats, together exactly the complete events, and pending is in chronological order |
| `DebounceHistory.TriggeredRowKeeps` | src/market_state_engine/pipeline/event_trigger.py:145-154 | marking the whole pending batch after the cool-down keeps the debounce invariant |
| `DebounceHistory.BatchKeeps` | src/market_state_engine/pipeline/event_trigger.py:102-162 | running the batch keeps the invariant however the run ends |
| `DebounceHistory.SubmitKeeps` | src/market_state_engine/pipeline/event_trigger.py:54-100 | a submission keeps the invariant whatever it finds |
| `DebounceHistory.EveryHistoryIsDebounced` | src/market_state_engine/pipeline/event_trigger.py:54-184 | over every history, crashes included: at most once per event, a partition of the complete events, rows a cool-down apart, and the run ledger intact |
| `DebounceHistory.BatchMarksAllOrNothing` | src/market_state_engine/pipeline/event_trigger.py:102-162 | a batch that ran is marked as a whole and leaves nothing pending; one that did not leaves everything pending |
| `DebounceHistory.SubmissionTriggersAllOrNothing` | src/market_state_engine/pipeline/event_trigger.py:54-162 | a submission starts a run over exactly the pending events including its own, or marks nothing |
| `Submissions.SubmissionEndsExactly` | src/market_state_engine/pipeline/event_trigger.py:54-162 | a new event starts a run exactly when its value is known, every triggered row is a cool-down old, nothing else runs and the run finishes; it is debounced exactly when it has to wait; and what surprise and status are answered |
| `Submissions.SubmissionIsLogged` | src/market_state_engine/pipeline/event_trigger.py:54-162 | the accepted row and event, and as the last row that the batch was triggered, failed, or waits, with its ids or its size |
| `Submissions.RepeatedSubmission` | src/market_state_engine/pipeline/event_trigger.py:67-73 | a known id is answered with its stored surprise and nothing is written |
| `Submissions.QuietSubmissionClearsPending` | src/market_state_engine/pipeline/event_trigger.py:54-184 | after any history a submission outside the cool-down whose run completes leaves every complete event triggered and nothing pending |
| `Submissions.PendingIsChronological` | src/market_state_engine/persistence/repositories.py:286-291 | what waits is in the order of scheduled time and then id |
| `DebounceHistory.StoredEventIsFinal` | src/market_state_engine/persistence/repositories.py:248-281 | a stored event never changes, so one without actual value never triggers a run |
| `Signals.MeanDeviationBound` | src/market_state_engine/scoring/confidence.py:14-26 | for any number of signals in [-1, 1] the mean absolute deviation is at most one, so the clamp of the concordance never acts |
| `ScoreFormulas.DeviationIsTwiceTheExcess` | src/market_state_engine/scoring/confidence.py:14-26 | the mean deviation is twice what lies above the mean, shared among all |
| `Signals.ConfidenceNeverClamped` | src/market_state_engine/scoring/confidence.py:29-34 | for any number of signals present or expected, zero and fewer than present included, confidence is the half-half blend of completeness and agreement and stays in [0, 1] |
| `Signals.SubsignalsInRange` | src/market_state_engine/scoring/trend.py:18-35 | every trend signal lies in [-1, 1] with positive weight |
| `Signals.AgreeingIndicatorsBoundTrend` | src/market_state_engine/scoring/trend.py:18-39 | agreeing bullish indicators keep the trend at -0.175 or above, bearish ones at 0.175 or below |
| `Signals.TrendBandIsTight` | src/market_state_engine/scoring/trend.py:18-39 | the band cannot be narrowed |
| `Signals.TrendIsMonotone` | src/market_state_engine/scoring/trend.py:18-39 | the trend does not fall when any of its signals improves |
| `ScoreFormulas.TrendExactly` | src/market_state_engine/scoring/trend.py:18-39 | the trend is the weighted mean of the features that are there, at 30, 25, 15, 15 and 15 percent, and its clamp never acts; zero without any |
| `ScoreFormulas.TrendFollowsReadings` | src/market_state_engine/scoring/trend.py:18-39 | a better standing of the averages or MACD, a higher RSI or a stronger change never lowers the trend |
| `ScoreFormulas.RiskExactly` | src/market_state_engine/scoring/risk.py:10-19 | risk is the weighted mean of volatility, event and volume, at 50, 30 and 20 percent, each by its own scale |
| `ScoreFormulas.NearestIsNearest` | src/market_state_engine/scoring/engine.py:93-96 | the event of the risk is the first at the least distance, past or future |
| `ScoreFormulas.Round4Exactly` | src/market_state_engine/scoring/engine.py:69-76 | scores are published as the nearest ten-thousandth, the even one on a tie |
| `Signals.RiskIsMonotone` | src/market_state_engine/scoring/risk.py:10-19 | risk does not fall when volatility or volume grows or the nearest event comes closer |
| `HealthIndex.IndexInRange` | src/market_state_engine/scoring/mhi.py:13-43 | the index lies in 0 to 100 for all inputs and weights |
| `HealthIndex.BlendFollowsDominance` | src/market_state_engine/scoring/mhi.py:13-43 | raising components never lowers the rounded blend |
| `HealthIndex.IndexIsMonotone` | src/market_state_engine/scoring/mhi.py:13-43 | the index does not fall when trend or sentiment rise or risk or volatility fall |
| `ScoreFormulas.IndexExactly` | src/market_state_engine/scoring/mhi.py:13-43 | the index is 50 without weight and otherwise the hundredfold weighted mean of its components rounded to the nearest, ties to even |
| `ScoreFormulas.IndexIsUncut` | src/market_state_engine/scoring/mhi.py:13-43 | with non-negative weights and scores in range the mean needs no cut |
| `Regimes.ClassifyForgetsOrderAndLowSensitivity` | src/market_state_engine/scoring/regime.py:30-126 | the regime depends only on the collections of sensitive assets and of events |
| `Regimes.ReorderingAndDroppingAreInvisible` | src/market_state_engine/scoring/regime.py:43-91 | reordering assets or dropping insensitive ones changes nothing |
| `Regimes.ClassifyFitsContract` | src/market_state_engine/scoring/regime.py:43-126 | confidence lies in [0, 1], the change flag is consistent, and the regime is event-driven exactly when a material event is active |
| `Regimes.RegimeFollowsMarket` | src/market_state_engine/scoring/regime.py:43-112 | without an active event, falling trends and rising risks only move the regime towards risk-off |
| `RegimeFormulas.StateExactly` | src/market_state_engine/scoring/regime.py:30-126 | event-driven exactly when an event matters, else risk-off or risk-on exactly when the totals of the sensitive assets are past both thresholds per head, else transition |
| `RegimeFormulas.ActiveMattersMost` | src/market_state_engine/scoring/regime.py:30-42 | the active event has the greatest surprise either way among those within two days, ties by id |
| `RegimeFormulas.ConfidenceExactly` | src/market_state_engine/scoring/regime.py:43-126 | confidence is half depth and half agreement of the sensitive assets with their mean trend, and the drivers are the event or the two averages |
| `RegimeFormulas.MarginKeepsState` | src/market_state_engine/scoring/regime.py:99-126 | moving both averages by less than the margin, at the regime's scale, never changes the regime |
| `RegimeFormulas.MarginIsTight` | src/market_state_engine/scoring/regime.py:99-126 | in risk-off and risk-on, short of the full margin, any greater move can leave the regime |
| `RegimeFormulas.TransitionMarginVanishesExactlyWhen` | src/market_state_engine/scoring/regime.py:99-126 | in transition the margin is zero exactly when an average sits on a threshold, however far either regime is |
| `Conflict.ResolveForgetsOrder` | src/market_state_engine/rules/conflict.py:46-108 | with distinct sources the outcome does not depend on candidate order |
| `Conflict.ResolveForgetsRuleOrder` | src/market_state_engine/rules/conflict.py:46-108 | the outcome does not change when rules are rearranged, each with its candidates in their order, even if a rule says two things of one asset |
| `Conflict.StrongestWins` | src/market_state_engine/rules/conflict.py:46-108 | the winner has the greatest strength; the outcome is contested and neutral exactly when both directions occur at that strength |
| `Conflict.StrengthPrevails` | src/market_state_engine/rules/conflict.py:46-108 | the outcome is dominant, major, moderate or minor as the strongest candidate is |
| `RuleEngine.BuildConditionVars` | src/market_state_engine/rules/engine.py:38-49 | the loop keeps the last surprise of each event type, and the CPI alias |
| `RuleEngine.Match` | src/market_state_engine/rules/engine.py:57-93 | the loops collect the candidates of matching rules and settle each asset once |
| `RuleEngine.MatchForgetsRuleOrder` | src/market_state_engine/rules/engine.py:57-93 | rearranging a rulebook with unique ids changes no activation and no contested asset, only the order in which the latter are listed |
| `RuleEngine.GuardNeverStrengthens` | src/market_state_engine/rules/matcher.py:48-70 | what a guard leaves of a rule is nothing or all its effects, each of the same asset, direction and horizon, no stronger and no more certain; unchanged where the guard applies and uncertain elsewhere |
| `RuleEngine.LookupsAgree` | src/market_state_engine/rules/engine.py:38-66 | the variable and the event kept for a type come from the same, last, event |
| `RuleEngine.AttributedEventSatisfiesCondition` | src/market_state_engine/rules/engine.py:57-116 | the event an activation names is one whose surprise satisfies the matched condition |
| `RuleEngine.ActivationsAreJustified` | src/market_state_engine/rules/engine.py:57-116 | every activation is the resolved effect of a matching rule, with decay in [0, 1], and names the event of the rule's type |
| `RuleMatching.VariablesAreLastSurprises` | src/market_state_engine/rules/engine.py:38-49 | a variable has a value exactly when some event names it, by type or by the CPI alias, and then the surprise of the last that does |
| `RuleMatching.MatchesExactlyWhen` | src/market_state_engine/rules/matcher.py:32-76 | a rule matches exactly when it is active and its variable has a value that compares with the literal as the operator says |
| `RuleMatching.GuardsExactly` | src/market_state_engine/rules/matcher.py:48-70 | outside its regimes a rule is silenced, or each of its effects made uncertain, and minor if downgraded; inside them nothing changes |
| `RuleMatching.CandidatesAreWhatRulesSay` | src/market_state_engine/rules/engine.py:57-79 | a candidate occurs exactly as often as the matching rules say it under their guards |
| `RuleMatching.ActivatedExactlyWhen` | src/market_state_engine/rules/engine.py:57-93 | an asset is activated exactly when some rule of the book is met and, not silenced, has an effect on it |
| `RuleMatching.ActivationIsOfItsRule` | src/market_state_engine/rules/engine.py:57-116 | the one activation of an asset is of a met rule of the book, with the resolved effect, and decays with the distance to the last event of the rule's type |
| `Guardrails.CheckDegradedHonesty` | src/market_state_engine/guardrails/checks.py:23-50 | the loop reports exactly the assets that carry output of a failed job |
| `Guardrails.CheckCausalLinks` | src/market_state_engine/guardrails/checks.py:53-68 | the nested loops report exactly the links without an activated rule |
| `Guardrails.CheckTrend` | src/market_state_engine/guardrails/checks.py:71-99 | the loop reports exactly the trends that contradict their indicators |
| `Guardrails.Validate` | src/market_state_engine/guardrails/engine.py:34-43 | findings are appended to the flags, and only a critical one blocks publication |
| `Guardrails.FindingsAreSilent` | src/market_state_engine/guardrails/checks.py:23-140 | what a run must satisfy for no check to report anything, and conversely |
| `GuardrailFindings.FindingsExactly` | src/market_state_engine/guardrails/checks.py:23-140 | of any run, exactly the findings it deserves are reported, each with its severity and place |
| `GuardrailFindings.PublishedExactlyWhen` | src/market_state_engine/guardrails/engine.py:34-43 | a run is published exactly when no failed job left its output and every causal link has its rule activated |
| `Orchestrator.Score` | src/market_state_engine/scoring/engine.py:48-91 | the loop scores the configured assets that have features and classifies the regime from them |
| `Orchestrator.ComposeRun` | src/market_state_engine/pipeline/orchestrator.py:242-291 | composition adds sentiment and narrative per asset and rewrites the degradation flags |
| `Orchestrator.RunOnce` | src/market_state_engine/pipeline/orchestrator.py:83-150 | one run end to end computes the composed document and the publish decision |
| `Publication.LinksFollowActivations` | src/market_state_engine/assembly/deterministic_state.py:155-176 | every causal link of an asset has its rule among the asset's activated rules |
| `Publication.LinksExplainResolution` | src/market_state_engine/assembly/deterministic_state.py:155-176 | a contested asset lists its rule without a causal link; any other has one link in the winning direction |
| `Publication.RoundedTrendNeverContradicts` | src/market_state_engine/guardrails/checks.py:71-99 | a published trend, rounding included, cannot contradict its own indicators |
| `Publication.EveryRunFitsContract` | src/market_state_engine/pipeline/orchestrator.py:83-150 | in every published run trend, risk, confidence, sentiment, index and decay of every asset, and the confidence and driver weights of the regime, lie in their contract ranges |
| `Publication.BaseRunIsClean` | src/market_state_engine/assembly/deterministic_state.py:69-114 | assembly produces no finding of its own |
| `Publication.EveryRunIsPublished` | src/market_state_engine/pipeline/orchestrator.py:83-150 | for every input and every reasoner there is no finding, the run is published, and its flags are the conflict flags followed by the degradation flags |
| `PublishedAssets.RunHoldsEveryAsset` | src/market_state_engine/pipeline/orchestrator.py:83-150 | the run holds exactly the configured assets with features, in order, each with the rounded scores and index of its own features, the rules and links activated for it, the sentiment heard on it and what was synthesized about it |
| `PublishedAssets.RunClassifiesEveryAsset` | src/market_state_engine/scoring/engine.py:48-91 | its regime is classified from the unrounded scores of exactly those assets |
| `PublishedAssets.RunIsFlagged` | src/market_state_engine/pipeline/orchestrator.py:242-291 | its flags are one warning per contested asset, then one for degradation and one per failed job; it carries its id and sequence |
| `Noninterference.ScoringIgnoresSentiment` | src/market_state_engine/scoring/engine.py:48-91 | sentiment enters nothing but the health index |
| `Noninterference.ReasonerNeverTouchesCore` | src/market_state_engine/evaluation/replay_harness.py:176-201 | two reasoners lead to the same regime, scores, rules and causal links; health indices differ only where sentiments do |
| `IndicatorMath.Ema` | src/market_state_engine/features/indicators.py:39-47 | the running average is the last element of the series |
| `IndicatorMath.BuildEmaSeries` | src/market_state_engine/features/indicators.py:50-56 | the series holds one average per value from the period on |
| `IndicatorMath.Rsi` | src/market_state_engine/features/indicators.py:13-36 | the two accumulating loops compute RSI from Wilder's averages of rises and falls; too short a series is refused |
| `IndicatorMath.Atr` | src/market_state_engine/features/indicators.py:104-124 | the loops compute Wilder's average of the true ranges over the last close; mismatched, short or zero-priced series are refused |
| `IndicatorMath.EmaStaysWithin` | src/market_state_engine/features/indicators.py:39-56 | every average lies between the extremes of its inputs |
| `IndicatorFormulas.EmaInClosedForm` | src/market_state_engine/features/indicators.py:39-56 | an average of period p gives the latest value the weight 2 / (p + 1) and each earlier one its share of the rest, the first p values by their mean |
| `IndicatorFormulas.WilderInClosedForm` | src/market_state_engine/features/indicators.py:25-32 | Wilder's average gives the latest value the weight 1 / p |
| `IndicatorMath.EmaIsAffine` | src/market_state_engine/features/indicators.py:39-56 | moving averages commute with changes of price scale and level |
| `IndicatorMath.MacdUnderAffineChange` | src/market_state_engine/features/indicators.py:59-82 | scaling leaves the MACD state alone, mirroring exchanges bullish and bearish, a flat series is neutral |
| `IndicatorMath.JumpCrossesMacd` | src/market_state_engine/features/indicators.py:59-82 | after a flat stretch a jump up is a bullish cross and a jump down a bearish one |
| `IndicatorFormulas.MacdStateExactly` | src/market_state_engine/features/indicators.py:59-82 | the state tells on which side of its 9-bar average the difference of the 12- and 26-bar averages is, and whether it got there with the last bar |
| `IndicatorMath.EmaStateUnderAffineChange` | src/market_state_engine/features/indicators.py:85-101 | scaling leaves the state alone; mirroring mirrors it exactly when both gaps are non-zero |
| `IndicatorMath.JumpCrossesEma` | src/market_state_engine/features/indicators.py:85-101 | after a flat stretch a jump up is a crossing, a jump down reads as below and diverging |
| `IndicatorFormulas.EmaStateExactly` | src/market_state_engine/features/indicators.py:85-101 | the state tells whether the 20-bar average leads the 50-bar one, crossed with the last bar, and has not come closer |
| `IndicatorMath.RsiLaws` | src/market_state_engine/features/indicators.py:13-36 | RSI lies in [0, 100], ignores scale and level, and mirrors to 100 minus itself exactly when the series is not flat |
| `IndicatorMath.RsiExtremes` | src/market_state_engine/features/indicators.py:13-36 | a series that never falls has RSI 100, one that never rises and is not flat has RSI 0 |
| `IndicatorFormulas.RsiExactly` | src/market_state_engine/features/indicators.py:13-36 | RSI is the percentage of upward movement in all movement, both averaged over fourteen steps; 100 without downward movement |
| `IndicatorMath.AtrLaws` | src/market_state_engine/features/indicators.py:104-124 | ATR% does not depend on the price unit and is not negative for positive prices |
| `IndicatorFormulas.AtrExactly` | src/market_state_engine/features/indicators.py:104-124 | ATR% is the closed-form average of the true ranges in percent of the last close |
| `IndicatorFormulas.TrueRangeIsSpan` | src/market_state_engine/features/indicators.py:111-117 | the true range is the span of the bar together with the close before it |
| `News.WeighItem` | src/market_state_engine/news/weigher.py:204-257 | the loop gives an item one weight per relevant target and the greatest of them |
| `News.SelectItems` | src/market_state_engine/news/weigher.py:127-153 | the loops take the representatives, then the best-ranked items up to the cap, in ranking order |
| `News.BuildDigest` | src/market_state_engine/news/weigher.py:155-300 | relevant fresh items are weighed, ranked and capped |
| `News.EffectiveIsExactProduct` | src/market_state_engine/news/weigher.py:101-111 | an effective weight is exactly the product of its three published operands |
| `News.WeightExactly` | src/market_state_engine/news/weigher.py:204-257 | a weight is source quality, listed or default, times relevance times decay, each cut to the unit range |
| `News.HalfLifeExactly` | src/market_state_engine/news/weigher.py:69-95 | the half-life is that of the event type, else the default, else twelve hours, and positive |
| `News.RankedByStrongestWeight` | src/market_state_engine/news/weigher.py:208-257 | an item carries exactly the targets it is relevant to and ranks by the greatest weight among them |
| `DigestLaws.CappedDigest` | src/market_state_engine/news/weigher.py:127-153 | the digest is a subsequence of the ranking of the exact length, holds the best item about each coverable primary asset, and passes an item over only for such a representative |
| `DigestLaws.CoverageExactlyWhen` | src/market_state_engine/news/weigher.py:127-153 | distinct ids or not, at any cap: the first item about a primary asset is kept, and the asset mentioned at all, exactly when fewer chosen items than the cap rank before it |
| `DigestLaws.RepeatedIdsStarveCoverage` | src/market_state_engine/news/weigher.py:137-153 | at the cap of forty, forty items of one id ranked before the only item about gold leave the digest silent about gold |
| `DigestLaws.RepeatedIdsStarveDigest` | src/market_state_engine/news/weigher.py:155-300 | forty copies of an item about bitcoin and a weaker one about gold give a digest of the forty copies, silent about gold |
| `DigestLaws.StarvedDigestExists` | src/market_state_engine/news/weigher.py:155-300 | there are tables and items of which the digest is silent about gold although a relevant and fresh item is about it |
| `DigestLaws.DigestForgetsOrder` | src/market_state_engine/news/weigher.py:155-300 | with distinct ids the digest does not depend on the order of the items |
| `DigestLaws.DigestIsCapped` | src/market_state_engine/news/weigher.py:127-300 | a digest of distinct ids has as many items as are relevant and fresh, up to forty, in ranking order, and mentions every primary asset some relevant and fresh item is about |
| `DigestLaws.DigestExactly` | src/market_state_engine/news/weigher.py:127-300 | for distinct ids: as many entries as newsworthy items up to forty, each weighed from such an item, stronger before weaker, covering bitcoin, ether, gold and oil where there is news of them |
| `Aggregation.ValidObservations` | src/market_state_engine/ingestion/real/aggregate.py:105-141 | the loop keeps the acceptable snapshots of unrepeated sources, sorted by source |
| `Aggregation.ValidMembers` | src/market_state_engine/ingestion/real/aggregate.py:105-141 | exactly the qualifying snapshots count, and their values are positive |
| `AggregateContents.CountsExactlyWhen` | src/market_state_engine/ingestion/real/aggregate.py:105-141 | a snapshot counts exactly when it is a configured, fresh, positive dollar quote of the symbol and the only one of its source |
| `AggregateContents.ValidBySource` | src/market_state_engine/ingestion/real/aggregate.py:105-141 | the valid ones come by source, each source once |
| `Aggregation.Audit` | src/market_state_engine/ingestion/real/aggregate.py:59-82 | the loop audits every source and flags those too far from the median |
| `Aggregation.AggregateSnapshots` | src/market_state_engine/ingestion/real/aggregate.py:20-102 | the median with its observations and flags, or nothing when the policy is not met |
| `Aggregation.MajorityHoldsMedian` | src/market_state_engine/ingestion/real/aggregate.py:41-45 | when more than half of the values lie in an interval so does the median |
| `Aggregation.MedianIsRobust` | src/market_state_engine/ingestion/real/aggregate.py:44-47 | among three sources the median lies between the other two whichever is off |
| `Aggregation.MedianBetweenExtremes` | src/market_state_engine/ingestion/real/aggregate.py:41-42 | the median lies between the least and the greatest value |
| `Aggregation.PairDeviatesByHalf` | src/market_state_engine/ingestion/real/aggregate.py:173-179 | each of a pair deviates from the median by half the pairwise deviation |
| `AggregateContents.MedianUnderAffineChange` | src/market_state_engine/ingestion/real/aggregate.py:41-42 | the median follows every change of unit and level, and mirrors under negation |
| `AggregationLaws.AggregateForgetsOrder` | src/market_state_engine/ingestion/real/aggregate.py:20-141 | the aggregate does not depend on the order of the snapshots, repeated sources included |
| `AggregateContents.AggregatedExactlyWhen` | src/market_state_engine/ingestion/real/aggregate.py:20-57 | there is an aggregate exactly when enough sources are valid and, if they are two, they are within the allowed percentage of their mean |
| `AggregateContents.AggregateSays` | src/market_state_engine/ingestion/real/aggregate.py:59-102 | the median of the valid sources with one observation each, and exactly the inherited flags, the one for missing sources and one for each source too far from the median |
| `AggregationLaws.AcceptedPairIsUnflagged` | src/market_state_engine/ingestion/real/aggregate.py:44-82 | a published pair never carries a deviation flag |
| `AggregationLaws.MedianSourceIsUnflagged` | src/market_state_engine/ingestion/real/aggregate.py:59-82 | with an odd number of sources the one that delivers the median is not flagged |
| `AggregationLaws.AggregateIsAsOfNewest` | src/market_state_engine/ingestion/real/aggregate.py:84-97 | the aggregate is as recent as its most recent source |
| `SixHourBars.ParseRows` | src/market_state_engine/ingestion/real/gate.py:161-178 | the first bad row decides how parsing fails |
| `SixHourBars.FillBuckets` | src/market_state_engine/ingestion/real/gate.py:136-139 | the dictionary holds, in key order, the candles split at six-hour boundaries |
| `SixHourBars.SixHour` | src/market_state_engine/ingestion/real/gate.py:132-158 | the folded bars or the reason for refusing |
| `BarLaws.BucketsPartition` | src/market_state_engine/ingestion/real/gate.py:136-139 | the buckets laid end to end are the candles in time order, each in its own six hours |
| `BarLaws.VolumeIsConserved` | src/market_state_engine/ingestion/real/gate.py:141-152 | bar volumes add up to the candle volumes before the cut |
| `BarLaws.BarsAreCoherent` | src/market_state_engine/ingestion/real/gate.py:141-152 | bar times are strictly increasing multiples of six hours, high and low are the attained extremes, close is the last, and low <= close <= high is inherited |
| `BarLaws.SlotCount` | src/market_state_engine/ingestion/real/gate.py:136-152 | there are as many bars as distinct six-hour slots the candles fall into |
| `BarLaws.SlotsExactly` | src/market_state_engine/ingestion/real/gate.py:136-139 | a slot is a six-hour stretch from time zero that some row falls into |
| `BarLaws.FoldSucceedsExactly` | src/market_state_engine/ingestion/real/gate.py:153-158 | bars come back exactly when every row is valid and the rows fall into at least 130 six-hour slots; they are one for each of the latest 130 slots in order, and low <= close <= high carries over from the rows |
| `BarLaws.RefusesExactly` | src/market_state_engine/ingestion/real/gate.py:153-178 | a refusal names the first row that cannot be read and why, or the number of slots short of 130 |
| `BarLaws.BarsForgetOrder` | src/market_state_engine/ingestion/real/gate.py:135-158 | with distinct timestamps the bars do not depend on row order |
| `Stores.LastGoodStore.Upsert` | src/market_state_engine/persistence/repositories.py:376-399 | an upsert keeps the stored snapshot exactly when the new one is older |
| `Stores.LastGoodIsNewest` | src/market_state_engine/persistence/repositories.py:376-399 | what is stored is the last write among those with the greatest timestamp |
| `Stores.SampleStore.Upsert` | src/market_state_engine/persistence/repositories.py:334-349 | a sample overwrites the row of its key or adds one |
| `Stores.SamplesAreLastWrites` | src/market_state_engine/persistence/repositories.py:334-349 | one row per key, holding the last write of that key |
| `Stores.ListRecentLaws` | src/market_state_engine/persistence/repositories.py:351-367 | the newest rows, as many as fit, in ascending order, and everything left out is older |
| `Stores.FollowCursors` | src/market_state_engine/api/app.py:78-84 | following the cursors over a fixed database lists every run exactly once, in a known number of requests |
| `CallStatistics.HealthMonitor.Record` | src/market_state_engine/reasoning/reliability/health.py:46-57 | the windows are the last outcomes, and the last successful latencies, of the provider's history |
| `CallStatistics.WindowsAgreeExactlyWhen` | src/market_state_engine/reasoning/reliability/health.py:46-57 | the latencies kept are those of the outcomes kept exactly when no success is older than the outcome window or the window is all successes |
| `CallStatistics.ForgottenSuccessKeepsLatency` | src/market_state_engine/reasoning/reliability/health.py:46-57 | one success and then a window of errors leave only errors in view and the old latency still averaged |
| `CallStatistics.CollectPerProvider` | src/market_state_engine/evaluation/metrics.py:58-74 | the loop totals each provider's own calls |
| `CallStatistics.TotalsGrow` | src/market_state_engine/evaluation/metrics.py:58-74 | each call counts once, its retries always, and its tokens only if it succeeded |
| `CallStatistics.ProvidersAddUp` | src/market_state_engine/evaluation/metrics.py:50-87 | per-provider counts add up to the totals, whatever is counted |

## Left out

- Provider SDKs, HTTP clients, feeds and their parsing, API routes, authentication and logging: input and output around the model.
- Prompt texts, keyword relevance tables, JSON Schema contents and hash functions: functions of their input here.
- Collations of the database: stored creation times compare by code point.
- Wording of reasons, flag details and summaries: codes stand for them.
- Backoff sleeps between retries: they do not touch the model's state.
- The `rule_activations` table, prices, global features, versions and data gaps of the published document: copied through unchanged.
- The health monitor inside the gateway: it is modelled by itself, and nothing reads it on the failover path.
- Exponential decay: a function of elapsed hours and half-life, clamped as the source clamps it.
- Floating-point rounding, infinities and not-a-number, including a seed fraction that rounds up to one.
- Integrity errors of concurrent inserts, and failures of the database itself.
- Feature extraction (price changes, volume ratio, surprise), market capitalisation enrichment, mock ingestors, report formats and configuration loading: easy members.
- PipelineReplay.ReplayPublishesSameRun: a replay at another time than the stored run's is not covered, because features, news decay and evidence are computed anew from that time.
- Gateway.LLMGateway.CallOnce: adapters are values held by the gateway, so two gateways sharing one adapter object are not modelled.
- EventTriggers.EventTrigger.Submit: submissions are serialised by their lock and appear one after the other; a run in flight elsewhere is the busy flag.
- RunLedger.RunService.Execute: the session is one draft assigned at commit; savepoints and isolation levels are not modelled.
- CallStatistics.ProvidersAddUp: estimated cost is left out, because costs are rounded per provider and need not add up.
