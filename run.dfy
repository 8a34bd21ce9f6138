/** The evaluation driver `main`: select the scenarios, evaluate the chosen
    agents on each of them in order, and, when both agents ran, aggregate and
    compare. The clock, the agent library and the file writes are outside the
    model; what each evaluation of scenario `i` observed is given by the
    functions `bamlRun` and `vanillaRun`. */
module EvaluationRun {
  import opened Evaluation
  import opened Metrics
  import opened Wrappers

  /** The `--agent` choice. */
  datatype AgentChoice = BamlOnly | VanillaOnly | Both

  /** The results of evaluating `agentType` on each scenario in order, the
      `i`-th run observing `runs(i)`. */
  function Evaluations(agentType: string, scenarios: seq<TestScenario>, runs: nat -> AgentRun): (rs: seq<TestResult>)
    ensures |rs| == |scenarios|
    ensures forall i :: 0 <= i < |rs| ==> rs[i].agentType == agentType && rs[i].scenarioId == scenarios[i].id
  {
    var rs := seq(|scenarios|, i requires 0 <= i < |scenarios| => EvaluateAgent(agentType, scenarios[i], runs(i)));
    assert forall i :: 0 <= i < |rs| ==> rs[i] == EvaluateAgent(agentType, scenarios[i], runs(i));
    rs
  }

  /** The results `main` collects in `all_results`: the BAML results, then the
      Vanilla results, each when that agent was chosen. */
  function AllResults(agent: AgentChoice, scenarios: seq<TestScenario>, bamlRun: nat -> AgentRun,
                      vanillaRun: nat -> AgentRun): (r: seq<TestResult>)
    ensures |r| == (if agent == Both then 2 else 1) * |scenarios|
    ensures forall i :: 0 <= i < |r| ==>
      (r[i].agentType == "baml" && agent != VanillaOnly) || (r[i].agentType == "vanilla" && agent != BamlOnly)
  {
    (if agent != VanillaOnly then Evaluations("baml", scenarios, bamlRun) else []) +
    (if agent != BamlOnly then Evaluations("vanilla", scenarios, vanillaRun) else [])
  }

  /** Extending the scenario list by one extends the evaluations by one. */
  lemma EvaluationsSnoc(agentType: string, scenarios: seq<TestScenario>, i: nat, runs: nat -> AgentRun)
    requires i < |scenarios|
    ensures Evaluations(agentType, scenarios[..i + 1], runs) ==
      Evaluations(agentType, scenarios[..i], runs) + [EvaluateAgent(agentType, scenarios[i], runs(i))]
  {
  }

  /** `main` after the scenario selection: evaluates the chosen agents on
      `testScenarios` and returns `all_results` and, exactly when both agents
      were chosen and some result exists, the comparison of their metrics. */
  method EvaluateChosen(agent: AgentChoice, testScenarios: seq<TestScenario>,
                        bamlRun: nat -> AgentRun, vanillaRun: nat -> AgentRun)
    returns (allResults: seq<TestResult>, verdict: Option<Verdict>)
    ensures allResults == AllResults(agent, testScenarios, bamlRun, vanillaRun)
    ensures verdict.Some? <==> agent == Both && allResults != []
    ensures verdict.Some? ==>
      verdict.value == CompareMetrics(MetricsOf(allResults, "baml"), MetricsOf(allResults, "vanilla"))
  {
    allResults := [];
    if agent == BamlOnly || agent == Both {
      var bamlResults := [];
      for i := 0 to |testScenarios|
        invariant bamlResults == Evaluations("baml", testScenarios[..i], bamlRun)
        invariant allResults == bamlResults
      {
        EvaluationsSnoc("baml", testScenarios, i, bamlRun);
        var result := EvaluateBaml(testScenarios[i], bamlRun(i));
        bamlResults := bamlResults + [result];
        allResults := allResults + [result];
      }
      assert testScenarios[..|testScenarios|] == testScenarios;
    }
    ghost var before := allResults;
    if agent == VanillaOnly || agent == Both {
      var vanillaResults := [];
      for i := 0 to |testScenarios|
        invariant vanillaResults == Evaluations("vanilla", testScenarios[..i], vanillaRun)
        invariant allResults == before + vanillaResults
      {
        EvaluationsSnoc("vanilla", testScenarios, i, vanillaRun);
        var result := EvaluateVanilla(testScenarios[i], vanillaRun(i));
        vanillaResults := vanillaResults + [result];
        allResults := allResults + [result];
      }
      assert testScenarios[..|testScenarios|] == testScenarios;
    }
    verdict := None;
    if agent == Both && |allResults| > 0 {
      var bamlMetrics := CalculateMetrics(allResults, "baml");
      var vanillaMetrics := CalculateMetrics(allResults, "vanilla");
      verdict := Some(CompareMetrics(bamlMetrics, vanillaMetrics));
    }
  }

  /** `main`: selects the scenarios by `--scenarios` and evaluates them. */
  method RunEvaluation(agent: AgentChoice, choice: string, bamlRun: nat -> AgentRun, vanillaRun: nat -> AgentRun)
    returns (allResults: seq<TestResult>, verdict: Option<Verdict>)
    ensures allResults == AllResults(agent, SelectScenarios(choice, Scenarios()), bamlRun, vanillaRun)
    ensures verdict.Some? <==> agent == Both && allResults != []
    ensures verdict.Some? ==>
      verdict.value == CompareMetrics(MetricsOf(allResults, "baml"), MetricsOf(allResults, "vanilla"))
  {
    var testScenarios := SelectScenarios(choice, Scenarios());
    allResults, verdict := EvaluateChosen(agent, testScenarios, bamlRun, vanillaRun);
  }

  // -------------------------------------------------------------- lemmas

  /** A list holding only results of `agentType` is kept whole by the filter. */
  lemma {:induction false} OfAgentAll(rs: seq<TestResult>, agentType: string)
    requires forall i :: 0 <= i < |rs| ==> rs[i].agentType == agentType
    ensures OfAgent(rs, agentType) == rs
  {
    if rs != [] {
      OfAgentAll(rs[..|rs| - 1], agentType);
      assert rs == rs[..|rs| - 1] + [rs[|rs| - 1]];
    }
  }

  /** A list holding no result of `agentType` is emptied by the filter. */
  lemma {:induction false} OfAgentNone(rs: seq<TestResult>, agentType: string)
    requires forall i :: 0 <= i < |rs| ==> rs[i].agentType != agentType
    ensures OfAgent(rs, agentType) == []
  {
    if rs != [] {
      OfAgentNone(rs[..|rs| - 1], agentType);
    }
  }

  /** Filtering the results of two different agent types by the first keeps
      exactly the first agent's results. */
  lemma SplitResults(first: string, other: string, a: seq<TestResult>, b: seq<TestResult>)
    requires first != other
    requires forall i :: 0 <= i < |a| ==> a[i].agentType == first
    requires forall i :: 0 <= i < |b| ==> b[i].agentType == other
    ensures OfAgent(a + b, first) == a && OfAgent(b + a, first) == a
  {
    OfAgentAppend(a, b, first);
    OfAgentAppend(b, a, first);
    OfAgentAll(a, first);
    OfAgentNone(b, first);
  }

  /** With both agents, each agent's metrics are those of its own results. */
  lemma BothSplits(scenarios: seq<TestScenario>, bamlRun: nat -> AgentRun, vanillaRun: nat -> AgentRun)
    ensures OfAgent(AllResults(Both, scenarios, bamlRun, vanillaRun), "baml") == Evaluations("baml", scenarios, bamlRun)
    ensures OfAgent(AllResults(Both, scenarios, bamlRun, vanillaRun), "vanilla") == Evaluations("vanilla", scenarios, vanillaRun)
  {
    var b := Evaluations("baml", scenarios, bamlRun);
    var v := Evaluations("vanilla", scenarios, vanillaRun);
    assert AllResults(Both, scenarios, bamlRun, vanillaRun) == b + v;
    SplitResults("baml", "vanilla", b, v);
    SplitResults("vanilla", "baml", v, b);
  }

  /** A column whose every result holds the key lists that key's values in order. */
  lemma {:induction false} ColumnFull(rs: seq<TestResult>, field: Field, key: string)
    requires forall i :: 0 <= i < |rs| ==> key in Dict(rs[i], field)
    ensures |Column(rs, field, key)| == |rs|
    ensures forall i :: 0 <= i < |rs| ==> Column(rs, field, key)[i] == Dict(rs[i], field)[key]
  {
    if rs != [] {
      ColumnFull(rs[..|rs| - 1], field, key);
    }
  }

  /** Sums are monotone in every element. */
  lemma {:induction false} SumMonotone(xs: seq<real>, ys: seq<real>)
    requires |xs| == |ys|
    requires forall i :: 0 <= i < |xs| ==> xs[i] <= ys[i]
    ensures Sum(xs) <= Sum(ys)
  {
    if xs != [] {
      SumMonotone(xs[..|xs| - 1], ys[..|ys| - 1]);
    }
  }

  /** Dividing by the same positive number keeps the order. */
  lemma DivideMonotone(x: real, y: real, n: real)
    requires n > 0.0 && x <= y
    ensures x / n <= y / n
  {
    assert y / n - x / n == (y - x) / n;
  }

  /** The overall score each result records. */
  function Overall(r: TestResult): real {
    GetOr(r.accuracy, OverallKey)
  }

  /** On every scenario BAML scores at most what a completed Vanilla run
      scores: an error scores 0, and two completed runs use the same responder
      and so score the same. */
  lemma ScenarioScores(scenario: TestScenario, bamlRun: AgentRun, vanillaRun: AgentRun)
    requires vanillaRun.Completed?
    ensures Overall(EvaluateAgent("baml", scenario, bamlRun)) <= Overall(EvaluateAgent("vanilla", scenario, vanillaRun))
    ensures bamlRun.Completed? ==>
      Overall(EvaluateAgent("baml", scenario, bamlRun)) == Overall(EvaluateAgent("vanilla", scenario, vanillaRun))
  {
    AccuracyBounds(Respond(scenario.userInput), scenario);
  }

  /** The mean overall score of a list of constructed results. */
  lemma OverallAverage(rs: seq<TestResult>)
    requires rs != []
    requires forall i :: 0 <= i < |rs| ==> WellFormed(rs[i])
    ensures |Column(rs, Accuracy, OverallKey)| == |rs|
    ensures forall i :: 0 <= i < |rs| ==> Column(rs, Accuracy, OverallKey)[i] == Overall(rs[i])
    ensures Averages(rs, Accuracy, AccuracyKeys)[OverallKey] == Sum(Column(rs, Accuracy, OverallKey)) / |rs| as real
  {
    forall i | 0 <= i < |rs| ensures OverallKey in rs[i].accuracy {
      assert WellFormed(rs[i]);
    }
    ColumnFull(rs, Accuracy, OverallKey);
  }

  /** Every evaluation produces a well-formed result. */
  lemma EvaluationsWellFormed(agentType: string, scenarios: seq<TestScenario>, runs: nat -> AgentRun)
    ensures forall i :: 0 <= i < |scenarios| ==> WellFormed(Evaluations(agentType, scenarios, runs)[i])
  {
    forall i | 0 <= i < |scenarios| ensures WellFormed(Evaluations(agentType, scenarios, runs)[i]) {
      EvaluateAgentWellFormed(agentType, scenarios[i], runs(i));
    }
  }

  /** The mean overall accuracies of the two agents over the same scenarios:
      BAML's is at most Vanilla's when no Vanilla run failed, and the two are
      equal when no run of either agent failed. */
  lemma OverallComparison(scenarios: seq<TestScenario>, bamlRun: nat -> AgentRun, vanillaRun: nat -> AgentRun)
    requires forall i :: 0 <= i < |scenarios| ==> vanillaRun(i).Completed?
    ensures GetOr(MetricsOf(AllResults(Both, scenarios, bamlRun, vanillaRun), "baml").avgAccuracy, OverallKey) <=
            GetOr(MetricsOf(AllResults(Both, scenarios, bamlRun, vanillaRun), "vanilla").avgAccuracy, OverallKey)
    ensures (forall i :: 0 <= i < |scenarios| ==> bamlRun(i).Completed?) ==>
            GetOr(MetricsOf(AllResults(Both, scenarios, bamlRun, vanillaRun), "baml").avgAccuracy, OverallKey) ==
            GetOr(MetricsOf(AllResults(Both, scenarios, bamlRun, vanillaRun), "vanilla").avgAccuracy, OverallKey)
  {
    var b := Evaluations("baml", scenarios, bamlRun);
    var v := Evaluations("vanilla", scenarios, vanillaRun);
    BothSplits(scenarios, bamlRun, vanillaRun);
    if scenarios != [] {
      EvaluationsWellFormed("baml", scenarios, bamlRun);
      EvaluationsWellFormed("vanilla", scenarios, vanillaRun);
      OverallAverage(b);
      OverallAverage(v);
      var xs := Column(b, Accuracy, OverallKey);
      var ys := Column(v, Accuracy, OverallKey);
      forall i | 0 <= i < |xs| ensures xs[i] <= ys[i] {
        ScenarioScores(scenarios[i], bamlRun(i), vanillaRun(i));
      }
      SumMonotone(xs, ys);
      DivideMonotone(Sum(xs), Sum(ys), |scenarios| as real);
      if forall i :: 0 <= i < |scenarios| ==> bamlRun(i).Completed? {
        forall i | 0 <= i < |xs| ensures ys[i] <= xs[i] {
          ScenarioScores(scenarios[i], bamlRun(i), vanillaRun(i));
        }
        SumMonotone(ys, xs);
        DivideMonotone(Sum(ys), Sum(xs), |scenarios| as real);
      }
    }
  }

  /** BAML can only be declared the winner if some Vanilla run failed; when
      every run of both agents completes, the tie goes to Vanilla. */
  lemma BamlWinsOnlyOnVanillaErrors(scenarios: seq<TestScenario>, bamlRun: nat -> AgentRun, vanillaRun: nat -> AgentRun)
    requires forall i :: 0 <= i < |scenarios| ==> vanillaRun(i).Completed?
    ensures !CompareMetrics(
      MetricsOf(AllResults(Both, scenarios, bamlRun, vanillaRun), "baml"),
      MetricsOf(AllResults(Both, scenarios, bamlRun, vanillaRun), "vanilla")).bamlWins
  {
    OverallComparison(scenarios, bamlRun, vanillaRun);
  }
}
