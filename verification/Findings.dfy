/** What the guardrails report of any run, assembled by this engine or not, and when they let it be published. */
module GuardrailFindings {
  import opened Common
  import opened Signals
  import opened RunModel
  import opened Guardrails

  ghost predicate Reported(run: Run, code: Code) { exists f :: f in run.flags && f.code == code }

  /** The run says that this job failed, or that it is degraded without saying by which job. */
  ghost predicate Down(run: Run, code: Code) {
    || Reported(run, code)
    || (run.isDegraded && !Reported(run, SentimentDegraded) && !Reported(run, SynthesisDegraded))
  }

  ghost predicate HeardThoughDown(run: Run, i: nat) {
    i < |run.assets| && run.assets[i].scores.sentiment.Some? && Down(run, SentimentDegraded)
  }

  ghost predicate ToldThoughDown(run: Run, i: nat) {
    i < |run.assets| && run.assets[i].summary.Some? && Down(run, SynthesisDegraded)
  }

  /** No asset of the run lists the rule this link goes by. */
  ghost predicate Dangles(run: Run, i: nat, j: nat) {
    && i < |run.assets| && j < |run.assets[i].causalLinks|
    && forall a, act :: a in run.assets && act in a.activatedRules ==> act.ruleId != run.assets[i].causalLinks[j].viaRule
  }

  /** Both indicators point one way, and the trend lies half the scale or more on the other side. */
  predicate AtOdds(run: Run, i: nat) {
    && i < |run.assets| && run.assets[i].indicators.Some?
    && var ind, trend := run.assets[i].indicators.value, run.assets[i].scores.trend;
       && ind.ema.Some? && ind.macd.Some?
       && var ema, macd := ind.ema.value, ind.macd.value;
          || (ema in [AboveDiverging, AboveConverging] && macd in [MacdState.Bullish, BullishCross] && trend <= -0.5)
          || (ema in [BelowDiverging, BelowConverging] && macd in [MacdState.Bearish, BearishCross] && trend >= 0.5)
  }

  /** The change flag of the regime is wrong. */
  predicate Misflagged(run: Run) { run.regime.changed == (run.regime.previous == Some(run.regime.state)) }

  /** The findings a run deserves, each with its severity and its place. */
  ghost predicate Deserved(run: Run, f: Flag) {
    match f.place
    case AtSentiment(i) => f == Flag(DegradedSentimentPresent, Critical, AtSentiment(i)) && HeardThoughDown(run, i)
    case AtSummary(i) => f == Flag(DegradedSummaryPresent, Critical, AtSummary(i)) && ToldThoughDown(run, i)
    case AtLink(i, j) => f == Flag(DanglingCausalLink, Critical, AtLink(i, j)) && Dangles(run, i, j)
    case AtTrend(i) => f == Flag(TrendIndicatorContradiction, Warning, AtTrend(i)) && AtOdds(run, i)
    case AtRegimeChange => f == Flag(RegimeChangeFlagInconsistent, Warning, AtRegimeChange) && Misflagged(run)
    case _ => false
  }

  lemma DownMeans(run: Run, code: Code)
    ensures JobFailed(run, code) <==> Down(run, code)
  {
    forall c ensures HasCode(run.flags, c) <==> Reported(run, c) {
      if HasCode(run.flags, c) {
        var i :| 0 <= i < |run.flags| && run.flags[i].code == c;
        assert run.flags[i] in run.flags;
      }
      if Reported(run, c) {
        var f :| f in run.flags && f.code == c;
        var i :| 0 <= i < |run.flags| && run.flags[i] == f;
      }
    }
  }

  lemma DanglesMeans(run: Run, i: nat, j: nat)
    requires i < |run.assets| && j < |run.assets[i].causalLinks|
    ensures Activated(run, run.assets[i].causalLinks[j].viaRule) <==> !Dangles(run, i, j)
  {
    var id := run.assets[i].causalLinks[j].viaRule;
    if Activated(run, id) {
      var m, k :| 0 <= m < |run.assets| && 0 <= k < |run.assets[m].activatedRules| && run.assets[m].activatedRules[k].ruleId == id;
      assert run.assets[m] in run.assets && run.assets[m].activatedRules[k] in run.assets[m].activatedRules;
    }
    if !Dangles(run, i, j) {
      var a, act :| a in run.assets && act in a.activatedRules && act.ruleId == id;
      var m :| 0 <= m < |run.assets| && run.assets[m] == a;
      var k :| 0 <= k < |a.activatedRules| && a.activatedRules[k] == act;
      assert run.assets[m].activatedRules[k].ruleId == id;
    }
  }

  lemma AtOddsMeans(run: Run, i: nat)
    requires i < |run.assets|
    ensures Contradicts(run.assets[i]) <==> AtOdds(run, i)
  {}

  lemma {:induction false} HonestyExactly(run: Run, n: nat, f: Flag)
    requires n <= |run.assets|
    ensures f in HonestyFindings(run, n) <==>
      || (f.place.AtSentiment? && f.place.asset < n && Deserved(run, f))
      || (f.place.AtSummary? && f.place.asset < n && Deserved(run, f))
  {
    DownMeans(run, SentimentDegraded);
    DownMeans(run, SynthesisDegraded);
    hide Down, JobFailed;
    if n > 0 {
      HonestyExactly(run, n - 1, f);
    }
  }

  lemma {:induction false} DanglingExactly(run: Run, i: nat, n: nat, f: Flag)
    requires i < |run.assets| && n <= |run.assets[i].causalLinks|
    ensures f in DanglingLinks(run, i, n) <==> f.place.AtLink? && f.place.asset == i && f.place.link < n && Deserved(run, f)
  {
    hide Dangles, Activated;
    if n > 0 {
      DanglingExactly(run, i, n - 1, f);
      DanglesMeans(run, i, n - 1);
    }
  }

  lemma {:induction false} LinksExactly(run: Run, n: nat, f: Flag)
    requires n <= |run.assets|
    ensures f in LinkFindings(run, n) <==> f.place.AtLink? && f.place.asset < n && Deserved(run, f)
  {
    hide Dangles, DanglingLinks;
    if n > 0 {
      LinksExactly(run, n - 1, f);
      DanglingExactly(run, n - 1, |run.assets[n - 1].causalLinks|, f);
      LinkInRange(run, f);
    }
  }

  lemma LinkInRange(run: Run, f: Flag)
    ensures f.place.AtLink? && Deserved(run, f) ==>
      f.place.asset < |run.assets| && f.place.link < |run.assets[f.place.asset].causalLinks|
  {}

  lemma {:induction false} TrendsExactly(run: Run, n: nat, f: Flag)
    requires n <= |run.assets|
    ensures f in TrendFindings(run, n) <==> f.place.AtTrend? && f.place.asset < n && Deserved(run, f)
  {
    hide AtOdds, Contradicts;
    if n > 0 {
      TrendsExactly(run, n - 1, f);
      AtOddsMeans(run, n - 1);
    }
  }

  /** The guardrails report exactly the findings a run deserves, whatever run it is. */
  lemma FindingsExactly(run: Run, f: Flag)
    ensures f in Findings(run) <==> Deserved(run, f)
  {
    HonestyExactly(run, |run.assets|, f);
    LinksExactly(run, |run.assets|, f);
    TrendsExactly(run, |run.assets|, f);
    PlacesInRange(run, f);
    hide Down, Dangles, AtOdds, HonestyFindings, LinkFindings, TrendFindings;
  }

  lemma PlacesInRange(run: Run, f: Flag)
    ensures Deserved(run, f) ==> f.place != WholeRun && !f.place.OnSymbol?
    ensures Deserved(run, f) && (f.place.AtSentiment? || f.place.AtSummary? || f.place.AtTrend? || f.place.AtLink?) ==>
      f.place.asset < |run.assets|
  {}

  /**
   * A run is published exactly when no failed job has left a sentiment or a summary and every causal
   * link has its rule activated; contradicting trends and a wrong change flag are only reported.
   */
  lemma PublishedExactlyWhen(run: Run)
    ensures !AnyCritical(Findings(run)) <==>
      && (forall i: nat :: !HeardThoughDown(run, i)) && (forall i: nat :: !ToldThoughDown(run, i))
      && (forall i: nat, j: nat :: !Dangles(run, i, j))
  {
    hide HeardThoughDown, ToldThoughDown, Dangles, AtOdds, Findings;
    var findings := Findings(run);
    forall f ensures f in findings <==> Deserved(run, f) {
      FindingsExactly(run, f);
    }
    if AnyCritical(findings) {
      var k :| 0 <= k < |findings| && findings[k].severity.Critical?;
      assert findings[k] in findings;
    } else {
      forall f | f in findings ensures !f.severity.Critical? {
        var k :| 0 <= k < |findings| && findings[k] == f;
      }
      forall i: nat ensures !HeardThoughDown(run, i) {
        assert Flag(DegradedSentimentPresent, Critical, AtSentiment(i)) !in findings;
      }
      forall i: nat ensures !ToldThoughDown(run, i) {
        assert Flag(DegradedSummaryPresent, Critical, AtSummary(i)) !in findings;
      }
      forall i: nat, j: nat ensures !Dangles(run, i, j) {
        assert Flag(DanglingCausalLink, Critical, AtLink(i, j)) !in findings;
      }
    }
  }
}
