/**
 * Replay of a whole run: the pipeline's two LLM jobs, recorded and replayed over the stored inputs,
 * lead to the same document up to the run sequence, which the replay's own database counts anew.
 */
module PipelineReplay {
  import opened Common
  import opened MonotonicClock
  import Regimes
  import Signals
  import RuleEngine
  import opened RunModel
  import opened Orchestrator
  import opened Guardrails
  import opened Publication
  import opened Noninterference
  import opened Reasoning
  import opened Gateway
  import opened Sessions
  import opened Streaks
  import opened ReplayTheorem

  /** What the narration job is told of the run: neither its sequence nor its flags. */
  datatype StateVector = StateVector(runId: string, regime: Regimes.RegimeResult, assets: seq<AssetState>)

  datatype AssetState = AssetState(symbol: string, scores: Scores, healthIndex: int)

  function StateOf(a: Asset): AssetState { AssetState(a.symbol, a.scores, a.healthIndex) }

  function StatesOf(assets: seq<Asset>): seq<AssetState> {
    if assets == [] then [] else [StateOf(assets[0])] + StatesOf(assets[1..])
  }

  function StateVectorOf(run: Run): StateVector { StateVector(run.runId, run.regime, StatesOf(run.assets)) }

  /**
   * How the pipeline words its two requests and reads their validated responses. The first depends on
   * the run id and, through the news digest, on the time of the run; the second on the state vector
   * and on what of the first response is about the assets in evidence.
   */
  datatype Dialogue = Dialogue(
    askSentiment: (string, int) -> Request,
    askSynthesis: (StateVector, Option<Json>, seq<string>) -> Request,
    readSentiment: Json -> map<string, real>,
    readSynthesis: Json -> Synthesis)

  /** Configuration, rules and the stored snapshots, which yield features and evidence at a given time. */
  datatype Inputs = Inputs(
    cfg: Config,
    book: RuleEngine.Rulebook,
    features: int -> FeatureSet,
    evidence: int -> seq<string>)

  function Heard(d: Dialogue, evidence: seq<string>, data: Option<Json>): Option<map<string, real>> {
    HeardSentiment(evidence, Reasoner(if data.Some? then Some(d.readSentiment(data.value)) else None, None))
  }

  function Synthesize(d: Dialogue, x: Inputs, ctx: Context, now: int, data: Option<Json>): Request {
    var evidence := x.evidence(now);
    var base := BaseRun(x.cfg, x.book, ctx, x.features(now), Heard(d, evidence, data));
    d.askSynthesis(StateVectorOf(base), data, evidence)
  }

  /** Sentiment first when there is evidence, then synthesis over the run it leads to; nothing more. */
  function PlanOf(d: Dialogue, x: Inputs, ctx: Context, now: int): Plan {
    (known: seq<Option<Json>>) =>
      if x.evidence(now) == [] then
        if known == [] then Some(Synthesize(d, x, ctx, now, None)) else None
      else if known == [] then Some(d.askSentiment(ctx.runId, now))
      else if |known| == 1 then Some(Synthesize(d, x, ctx, now, known[0]))
      else None
  }

  /** The reasoner the pipeline experiences, given the answers in the order they were asked. */
  function ReasonerOf(d: Dialogue, evidence: seq<string>, answers: seq<JobAnswer>): Reasoner {
    var data := (i: nat) => if i < |answers| then DataOf(answers[i]) else None;
    var sentiment := if evidence == [] then None else data(0);
    var synthesis := if evidence == [] then data(0) else data(1);
    Reasoner(if sentiment.Some? then Some(d.readSentiment(sentiment.value)) else None,
             if synthesis.Some? then Some(d.readSynthesis(synthesis.value)) else None)
  }

  /** The two jobs of a run. */
  function Talk(d: Dialogue, x: Inputs, ctx: Context, now: int, s: Settings, tape: Tape, st: Stage): SessionRun {
    Session(s, tape, PlanOf(d, x, ctx, now), 2, [], st)
  }

  /** One run of the pipeline, in a context and at a time, over the gateway in state `st`. */
  function RunOver(d: Dialogue, x: Inputs, ctx: Context, now: int, s: Settings, tape: Tape, st: Stage): PipelineResult {
    var evidence := x.evidence(now);
    RunPipeline(x.cfg, x.book, ctx, x.features(now), evidence, ReasonerOf(d, evidence, Talk(d, x, ctx, now, s, tape, st).answers))
  }

  /** A run without evidence asks for the synthesis only; one with evidence asks for the sentiment first. */
  lemma TalkAsks(d: Dialogue, x: Inputs, ctx: Context, now: int, s: Settings, tape: Tape, st: Stage)
    ensures var talk, evidence := Talk(d, x, ctx, now, s, tape, st), x.evidence(now);
      && |talk.asked| == |talk.answers| == (if evidence == [] then 1 else 2)
      && (evidence == [] ==> talk.asked == [Synthesize(d, x, ctx, now, None)])
      && (evidence != [] ==>
            talk.asked == [d.askSentiment(ctx.runId, now), Synthesize(d, x, ctx, now, DataOf(talk.answers[0]))])
  {
    hide RunJob, Synthesize;
    var plan, evidence := PlanOf(d, x, ctx, now), x.evidence(now);
    var first := plan([]).value;
    var job := RunJob(s, tape, first, st);
    var known := [DataOf(job.answer)];
    assert [] + known == known;
    var rest := Session(s, tape, plan, 1, known, job.after);
    if evidence != [] {
      var job' := RunJob(s, tape, plan(known).value, job.after);
      var last := Session(s, tape, plan, 0, known + [DataOf(job'.answer)], job'.after);
      assert rest.asked == [plan(known).value] + last.asked && rest.answers == [job'.answer] + last.answers;
    }
  }

  /** What the run hears: the first answer as its sentiment, if there was evidence, and the last as its synthesis. */
  lemma RunHears(d: Dialogue, x: Inputs, ctx: Context, now: int, s: Settings, tape: Tape, st: Stage)
    ensures var answers, evidence := Talk(d, x, ctx, now, s, tape, st).answers, x.evidence(now);
      var r := ReasonerOf(d, evidence, answers);
      && answers != []
      && r.synthesis == (match answers[|answers| - 1] case Answered(data) => Some(d.readSynthesis(data)) case _ => None)
      && r.sentiment == (if evidence == [] then None
                         else match answers[0] case Answered(data) => Some(d.readSentiment(data)) case _ => None)
  {
    TalkAsks(d, x, ctx, now, s, tape, st);
    hide Talk;
  }

  // The context of a replay.

  /** Id and previous regime from the stored document; the sequence of the first run of a new database. */
  function ReplayContext(stored: Run): Context { Context(stored.runId, 1, stored.regime.previous) }

  /** What the full deterministic fingerprint hashes: the core and the health indices. */
  datatype Fingerprint = Fingerprint(core: Core, health: seq<int>)

  function HealthOf(assets: seq<Asset>): seq<int> {
    if assets == [] then [] else [assets[0].healthIndex] + HealthOf(assets[1..])
  }

  function FingerprintOf(run: Run): Fingerprint { Fingerprint(CoreOf(run), HealthOf(run.assets)) }

  lemma BaseIgnoresSequence(cfg: Config, book: RuleEngine.Rulebook, ctx: Context, n: nat, fs: FeatureSet,
                            sentiment: Option<map<string, real>>)
    ensures BaseRun(cfg, book, ctx.(sequence := n), fs, sentiment) == BaseRun(cfg, book, ctx, fs, sentiment).(sequence := n)
  {
    BaseRunIsClean(cfg, book, ctx, fs, sentiment);
    BaseRunIsClean(cfg, book, ctx.(sequence := n), fs, sentiment);
    hide ScoreFirst, Regimes.Classify, RuleEngine.MatchRules, AssembleAssets, Findings, ConflictFlags;
  }

  /** A run carries its id and previous regime into the document, and its sequence nowhere else. */
  lemma RunIgnoresSequence(cfg: Config, book: RuleEngine.Rulebook, ctx: Context, n: nat, fs: FeatureSet,
                           evidence: seq<string>, r: Reasoner)
    ensures var result := RunPipeline(cfg, book, ctx, fs, evidence, r);
      && RunPipeline(cfg, book, ctx.(sequence := n), fs, evidence, r) == result.(run := result.run.(sequence := n))
      && result.run.runId == ctx.runId && result.run.regime.previous == ctx.previous
  {
    EveryRunIsPublished(cfg, book, ctx, fs, evidence, r);
    EveryRunIsPublished(cfg, book, ctx.(sequence := n), fs, evidence, r);
    var sentiment := HeardSentiment(evidence, r);
    BaseIgnoresSequence(cfg, book, ctx, n, fs, sentiment);
    BaseRemembers(cfg, book, ctx, fs, sentiment);
    hide BaseRun, RuleEngine.MatchRules, Findings, ComposeAssets, WithoutCode, ConflictFlags, DegradationFlags, AnyCritical;
  }

  lemma BaseRemembers(cfg: Config, book: RuleEngine.Rulebook, ctx: Context, fs: FeatureSet, sentiment: Option<map<string, real>>)
    ensures var base := BaseRun(cfg, book, ctx, fs, sentiment);
      base.runId == ctx.runId && base.regime.previous == ctx.previous
  {
    hide ScoreFirst, RuleEngine.MatchRules, AssembleAssets, Findings, ConflictFlags, Regimes.AggregatesOf, Regimes.ActiveEvent;
  }

  lemma PlanIgnoresSequence(d: Dialogue, x: Inputs, ctx: Context, n: nat, now: int)
    ensures forall known :: PlanOf(d, x, ctx.(sequence := n), now)(known) == PlanOf(d, x, ctx, now)(known)
  {
    hide BaseRun, HeardSentiment;
    forall data ensures Synthesize(d, x, ctx.(sequence := n), now, data) == Synthesize(d, x, ctx, now, data) {
      BaseIgnoresSequence(x.cfg, x.book, ctx, n, x.features(now), Heard(d, x.evidence(now), data));
    }
  }

  /** Plans that ask alike lead to the same session. */
  lemma {:induction false} AlikePlans(s: Settings, tape: Tape, plan: Plan, plan': Plan, n: nat, known: seq<Option<Json>>,
                                      st: Stage)
    requires forall k :: plan(k) == plan'(k)
    ensures Session(s, tape, plan, n, known, st) == Session(s, tape, plan', n, known, st)
  {
    hide RunJob;
    if n > 0 && plan(known).Some? {
      var job := RunJob(s, tape, plan(known).value, st);
      AlikePlans(s, tape, plan, plan', n - 1, known + [DataOf(job.answer)], job.after);
    }
  }

  lemma SameAnswersSameReasoner(d: Dialogue, evidence: seq<string>, a: seq<JobAnswer>, b: seq<JobAnswer>)
    requires |a| == |b| && forall i :: 0 <= i < |a| ==> SameAnswer(a[i], b[i])
    ensures ReasonerOf(d, evidence, a) == ReasonerOf(d, evidence, b)
  {
    assert forall i :: 0 <= i < |a| ==> DataOf(a[i]) == DataOf(b[i]);
  }

  /** The replay's clock shows the time of the stored run; features and news decay are computed from it. */
  predicate SameMoment(now: int, now': int) { now == now' }

  lemma TalkReplays(d: Dialogue, x: Inputs, ctx: Context, n: nat, now: int, s: Settings, live: Tape, st: Stage, tape: Tape,
                    stored: seq<CallRecord>)
    requires s.Valid() && s.codec.Lawful() && WithinDeadlines(s, tape)
    requires Recorded(Talk(d, x, ctx, now, s, live, st), stored)
    requires Replayable(s, tape, [], Flatten(Talk(d, x, ctx, now, s, live, st).traces))
    ensures ReasonerOf(d, x.evidence(now), Talk(d, x, ctx.(sequence := n), now, s, tape, ReplayStart(stored)).answers)
         == ReasonerOf(d, x.evidence(now), Talk(d, x, ctx, now, s, live, st).answers)
  {
    var plan, plan' := PlanOf(d, x, ctx, now), PlanOf(d, x, ctx.(sequence := n), now);
    PlanIgnoresSequence(d, x, ctx, n, now);
    hide PlanOf, ReasonerOf, Recorded, Replayable, RecordsReproduced;
    AlikePlans(s, tape, plan', plan, 2, [], ReplayStart(stored));
    RecordThenReplay(s, live, st, plan, 2, tape, stored);
    hide Session;
    SameAnswersSameReasoner(d, x.evidence(now), Talk(d, x, ctx, now, s, live, st).answers,
                            Replay(s, tape, plan, 2, stored).answers);
  }

  /**
   * A run replayed from its stored inputs and records, the latter in whatever order they are read
   * back, at the moment of the stored run, in a database of its own: whatever the live providers,
   * breakers and clock did, it publishes the same document but for the sequence, which restarts at
   * one; so both deterministic fingerprints match.
   */
  lemma ReplayPublishesSameRun(d: Dialogue, x: Inputs, ctx: Context, now: int, now': int, s: Settings, live: Tape, st: Stage,
                               tape: Tape, stored: seq<CallRecord>)
    requires s.Valid() && s.codec.Lawful() && WithinDeadlines(s, tape) && SameMoment(now, now')
    ensures var talk, result := Talk(d, x, ctx, now, s, live, st), RunOver(d, x, ctx, now, s, live, st);
      Recorded(talk, stored) && Replayable(s, tape, [], Flatten(talk.traces)) ==>
        var replay := RunOver(d, x, ReplayContext(result.run), now', s, tape, ReplayStart(stored));
        && replay == result.(run := result.run.(sequence := 1))
        && FingerprintOf(replay.run) == FingerprintOf(result.run)
  {
    var talk, result := Talk(d, x, ctx, now, s, live, st), RunOver(d, x, ctx, now, s, live, st);
    var evidence := x.evidence(now);
    var r := ReasonerOf(d, evidence, talk.answers);
    RunIgnoresSequence(x.cfg, x.book, ctx, 1, x.features(now), evidence, r);
    hide RunPipeline, Talk, ReasonerOf, Recorded, Replayable, CoreOfAssets;
    assert ReplayContext(result.run) == ctx.(sequence := 1);
    if Recorded(talk, stored) && Replayable(s, tape, [], Flatten(talk.traces)) {
      TalkReplays(d, x, ctx, 1, now, s, live, st, tape, stored);
    }
  }

  /** With a threshold of at least two breakers never stand in the way of a replayed run. */
  lemma RunsAreReplayable(d: Dialogue, x: Inputs, ctx: Context, now: int, s: Settings, live: Tape, st: Stage, tape: Tape)
    requires s.Valid() && s.breaker.failureThreshold >= 2
    ensures Replayable(s, tape, [], Flatten(Talk(d, x, ctx, now, s, live, st).traces))
  {
    FewJobsNeverTrip(s, live, PlanOf(d, x, ctx, now), 2, st);
    hide PlanOf, Session, NeverTrips, Replayable;
    UntrippedIsReplayable(s, tape, Talk(d, x, ctx, now, s, live, st));
  }
}
