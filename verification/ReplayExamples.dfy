/** Settings and runs that meet the hypotheses of the replay theorems, the failing ones included. */
module ReplayExamples {
  import opened Common
  import opened MonotonicClock
  import opened CircuitBreakers
  import opened Reasoning
  import opened Adapters
  import opened Gateway
  import opened ReplayVerification
  import opened Sessions
  import opened Streaks
  import opened ReplayTheorem

  function Wrapped(text: string): Json { Object(map["text" := Text(text)]) }

  function Read(text: string): Option<Json> { if text == "" then None else Some(Wrapped(text)) }

  function Write(data: Json): string {
    if data.Object? && "text" in data.members && data.members["text"].Text? then data.members["text"].chars else ""
  }

  /** A codec that wraps each text in an object and refuses the empty one. */
  function WrappingCodec(): Codec { Codec(Read, Write, Write, (job: Job, data: Json) => true) }

  /** Lawful codecs exist that refuse some texts and tell all others apart. */
  lemma WrappingCodecIsLawful()
    ensures WrappingCodec().Lawful()
    ensures forall text :: WrappingCodec().parse(text).Some? <==> text != ""
    ensures forall a, b :: WrappingCodec().parse(a) == WrappingCodec().parse(b) <==> a == b
  {
    forall text ensures Write(Wrapped(text)) == text {}
    forall a, b ensures Read(a) == Read(b) <==> a == b {
      if Read(a) == Read(b) && a != "" {
        assert Write(Wrapped(a)) == Write(Wrapped(b));
      }
    }
  }

  function Only(retries: nat): ProviderCfg { ProviderCfg("only", true, 0, 1, "model", "model", Some(retries), None) }

  /** One provider, and a breaker that trips at the first failure. */
  function Fragile(retries: nat): Settings {
    Settings([Only(retries)], Priority, retries, 1, BreakerCfg(1, 1, 1), (id: string) => 0.0, WrappingCodec(),
             (model: string, input: Option<nat>, output: Option<nat>) => None)
  }

  function Ask(hash: string): Request { Request("run", Sentiment, Prompt("", "", hash)) }

  /** Asks one thing first and another ever after. */
  function TwoQuestions(): Plan { (known: seq<Option<Json>>) => Some(Ask(if known == [] then "first" else "second")) }

  lemma TwoQuestionsDiffer(s: Settings, tape: Tape, st: Stage)
    ensures DistinctPrompts(Session(s, tape, TwoQuestions(), 2, [], st).asked)
  {
    hide RunJob;
    var plan := TwoQuestions();
    var job := RunJob(s, tape, Ask("first"), st);
    var known := [DataOf(job.answer)];
    assert [] + known == known;
    var rest := Session(s, tape, plan, 1, known, job.after);
    assert Session(s, tape, plan, 2, [], st).asked == [Ask("first")] + rest.asked;
    var job' := RunJob(s, tape, Ask("second"), job.after);
    assert rest.asked == [Ask("second")] + Session(s, tape, plan, 0, known + [DataOf(job'.answer)], job'.after).asked;
    assert rest.asked == [Ask("second")];
    assert "first"[0] != "second"[0];
  }

  /** A recorded session that a replay on a stopped clock loses does exist. */
  lemma LostSessionExists() returns (live: Tape, w: World, stored: seq<CallRecord>)
    ensures var s, plan := Fragile(0), TwoQuestions();
      && s.Valid() && s.codec.Lawful() && Monotone(live)
      && Recorded(Session(s, live, plan, 2, [], Stage(map[], w)), stored)
    ensures var s, plan := Fragile(0), TwoQuestions();
      forall tape :: Stopped(tape) ==>
        !SessionReproduced(s, Session(s, live, plan, 2, [], Stage(map[], w)), Replay(s, tape, plan, 2, stored))
  {
    var s, plan := Fragile(0), TwoQuestions();
    WrappingCodecIsLawful();
    live, w := FailThenAnswerHappens(s, plan, Only(0), RawResult("yes", None, None, None));
    stored := Flatten(Session(s, live, plan, 2, [], Stage(map[], w)).traces);
    TwoQuestionsDiffer(s, live, Stage(map[], w));
    hide Session, SessionReproduced;
    forall tape | Stopped(tape)
      ensures !SessionReproduced(s, Session(s, live, plan, 2, [], Stage(map[], w)), Replay(s, tape, plan, 2, stored))
    {
      ThresholdOneLosesSecondJob(s, live, Stage(map[], w), plan, tape, stored, Only(0));
    }
  }

  /** So does a world whose recorded timeout the replay check reports, for any number of retries but none. */
  lemma ReportedTimeoutExists(retries: nat) returns (w: World)
    requires retries > 0
    ensures var s, plan := Fragile(retries), TwoQuestions();
      && s.Valid() && s.codec.Lawful()
      && forall live, tape :: Stopped(tape) ==>
           var stored := Flatten(Session(s, live, plan, 1, [], Stage(map[], w)).traces);
           AllDiffs(stored, Flatten(Replay(s, tape, plan, 1, stored).traces)) != []
  {
    var s, plan := Fragile(retries), TwoQuestions();
    w := World(map["only" := Live((k: nat) => Raises(TimedOut), 0)], 0);
    WrappingCodecIsLawful();
    hide Session, AllDiffs, Replay;
    forall live, tape | Stopped(tape)
      ensures var stored := Flatten(Session(s, live, plan, 1, [], Stage(map[], w)).traces);
        AllDiffs(stored, Flatten(Replay(s, tape, plan, 1, stored).traces)) != []
    {
      StoppedIsWithinDeadlines(s, tape);
      TimeoutReplaysAsError(s, live, tape, Only(retries), plan, w,
                            Flatten(Session(s, live, plan, 1, [], Stage(map[], w)).traces));
    }
  }
}
