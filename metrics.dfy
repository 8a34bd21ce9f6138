/** `calculate_metrics`: the aggregation of the results of one agent type into
    per-key average latencies and accuracies and the four flag rates. */
module Metrics {
  import opened Evaluation

  // -------------------------------------------------------- specification

  /** `[r for r in results if r.agent_type == agent_type]`. */
  function OfAgent(results: seq<TestResult>, agentType: string): (r: seq<TestResult>)
    ensures |r| <= |results|
    ensures forall i :: 0 <= i < |r| ==> r[i].agentType == agentType
  {
    if results == [] then []
    else
      var last := results[|results| - 1];
      var tail := if last.agentType == agentType then [last] else [];
      OfAgent(results[..|results| - 1], agentType) + tail
  }

  /** The two dictionaries of a result that are averaged. */
  datatype Field = Latency | Accuracy

  function Dict(r: TestResult, field: Field): map<string, real> {
    match field
    case Latency => r.latency
    case Accuracy => r.accuracy
  }

  /** `[r.<field>.get(key, 0) for r in results if key in r.<field>]`: the values
      recorded under `key`, in result order, skipping the results that lack it. */
  function Column(results: seq<TestResult>, field: Field, key: string): (xs: seq<real>)
    ensures |xs| <= |results|
  {
    if results == [] then []
    else
      var last := Dict(results[|results| - 1], field);
      var tail := if key in last then [last[key]] else [];
      Column(results[..|results| - 1], field, key) + tail
  }

  /** Python's `sum` over a list of numbers. */
  function Sum(xs: seq<real>): real {
    if xs == [] then 0.0 else Sum(xs[..|xs| - 1]) + xs[|xs| - 1]
  }

  /** `sum(values) / len(values) if values else 0`. */
  function Mean(xs: seq<real>): (m: real)
    ensures xs == [] ==> m == 0.0
  {
    if xs == [] then 0.0 else Sum(xs) / |xs| as real
  }

  /** The average dictionary: one entry per key, the mean of that key's column. */
  function Averages(results: seq<TestResult>, field: Field, keys: seq<string>): (avg: map<string, real>)
    ensures avg.Keys == set k | k in keys
  {
    map k | k in keys :: Mean(Column(results, field, k))
  }

  /** The four per-result flags that are turned into rates. */
  datatype Flag = HandoffSucceeded | ErrorOccurred | ContextRetained | IntentRecognized

  /** `if r.<flag>`, with Python truthiness for the numeric flags. */
  predicate Holds(r: TestResult, flag: Flag) {
    match flag
    case HandoffSucceeded => IsTruthy(r.handoffSuccess)
    case ErrorOccurred => r.errorOccurred
    case ContextRetained => IsTruthy(r.contextRetained)
    case IntentRecognized => IsTruthy(r.intentRecognized)
  }

  /** `sum(1 for r in results if r.<flag>)`. */
  function Count(results: seq<TestResult>, flag: Flag): (n: nat)
    ensures n <= |results|
  {
    if results == [] then 0
    else Count(results[..|results| - 1], flag) + (if Holds(results[|results| - 1], flag) then 1 else 0)
  }

  /** The share of `results` whose flag holds. */
  function Rate(results: seq<TestResult>, flag: Flag): (rate: real)
    requires results != []
    ensures 0.0 <= rate <= 1.0
    ensures rate == 0.0 <==> Count(results, flag) == 0
    ensures rate == 1.0 <==> Count(results, flag) == |results|
  {
    var n := |results| as real;
    var c := Count(results, flag) as real;
    assert c / n * n == c;
    c / n
  }

  /** The metrics of a list that holds only one agent's results: with no
      result, zero tests, empty averages and zero rates; otherwise the number
      of results, the averages over them and the four rates. */
  function Aggregate(rs: seq<TestResult>, agentType: string): (m: EvaluationMetrics)
    ensures m.agentType == agentType && m.totalTests == |rs|
    ensures rs == [] ==> m == EvaluationMetrics(agentType, 0, map[], map[], 0.0, 0.0, 0.0, 0.0)
    ensures rs != [] ==>
      && m.avgLatency.Keys == {AgentCreationKey, ConversationKey, TotalKey}
      && m.avgAccuracy.Keys == {OverallKey, IntentKey, ContextKey, HandoffKey}
    ensures 0.0 <= m.handoffSuccessRate <= 1.0 && 0.0 <= m.errorRate <= 1.0
    ensures 0.0 <= m.contextRetentionRate <= 1.0 && 0.0 <= m.intentRecognitionRate <= 1.0
  {
    if rs == [] then EvaluationMetrics(agentType, 0, map[], map[], 0.0, 0.0, 0.0, 0.0)
    else
      EvaluationMetrics(agentType, |rs|,
        Averages(rs, Latency, LatencyKeys), Averages(rs, Accuracy, AccuracyKeys),
        Rate(rs, HandoffSucceeded), Rate(rs, ErrorOccurred),
        Rate(rs, ContextRetained), Rate(rs, IntentRecognized))
  }

  /** The metrics `calculate_metrics` returns: those of the requested agent
      type's results. */
  function MetricsOf(results: seq<TestResult>, agentType: string): (m: EvaluationMetrics)
    ensures m.agentType == agentType && m.totalTests == |OfAgent(results, agentType)|
    ensures m.totalTests == 0 ==> m == EvaluationMetrics(agentType, 0, map[], map[], 0.0, 0.0, 0.0, 0.0)
    ensures 0.0 <= m.handoffSuccessRate <= 1.0 && 0.0 <= m.errorRate <= 1.0
    ensures 0.0 <= m.contextRetentionRate <= 1.0 && 0.0 <= m.intentRecognitionRate <= 1.0
  {
    Aggregate(OfAgent(results, agentType), agentType)
  }

  // -------------------------------------------------------- the aggregator

  /** The averaging loop of `calculate_metrics`, run once for the latency keys
      and once for the accuracy keys. */
  method AverageColumns(results: seq<TestResult>, field: Field, keys: seq<string>) returns (avg: map<string, real>)
    ensures avg == Averages(results, field, keys)
  {
    avg := map[];
    for j := 0 to |keys|
      invariant avg == Averages(results, field, keys[..j])
    {
      var key := keys[j];
      var values := Column(results, field, key);
      avg := avg[key := if |values| > 0 then Sum(values) / |values| as real else 0.0];
      assert keys[..j + 1] == keys[..j] + [key];
    }
    assert keys[..|keys|] == keys;
  }

  /** `calculate_metrics(results, agent_type)`. */
  method CalculateMetrics(results: seq<TestResult>, agentType: string) returns (m: EvaluationMetrics)
    ensures m == MetricsOf(results, agentType)
  {
    var agentResults := OfAgent(results, agentType);
    if agentResults == [] {
      return EvaluationMetrics(agentType, 0, map[], map[], 0.0, 0.0, 0.0, 0.0);
    }
    var avgLatency := AverageColumns(agentResults, Latency, LatencyKeys);
    var avgAccuracy := AverageColumns(agentResults, Accuracy, AccuracyKeys);
    var totalTests := |agentResults|;
    var handoff := Count(agentResults, HandoffSucceeded) as real / totalTests as real;
    var errors := Count(agentResults, ErrorOccurred) as real / totalTests as real;
    var context := Count(agentResults, ContextRetained) as real / totalTests as real;
    var intent := Count(agentResults, IntentRecognized) as real / totalTests as real;
    m := EvaluationMetrics(agentType, totalTests, avgLatency, avgAccuracy, handoff, errors, context, intent);
  }

  // -------------------------------------------------------------- lemmas

  /** Filtering by agent type distributes over concatenation. */
  lemma {:induction false} OfAgentAppend(a: seq<TestResult>, b: seq<TestResult>, agentType: string)
    ensures OfAgent(a + b, agentType) == OfAgent(a, agentType) + OfAgent(b, agentType)
  {
    if b == [] {
      assert a + b == a;
    } else {
      assert (a + b)[..|a + b| - 1] == a + b[..|b| - 1];
      OfAgentAppend(a, b[..|b| - 1], agentType);
    }
  }

  /** A result of another agent type is dropped by the filter. */
  lemma OfAgentOther(r: TestResult, agentType: string)
    requires r.agentType != agentType
    ensures OfAgent([r], agentType) == []
  {
    assert [r][..0] == [];
  }

  /** Results of other agent types, wherever they sit in the list, do not
      change the metrics of `agentType`. */
  lemma OtherAgentsIgnored(a: seq<TestResult>, r: TestResult, b: seq<TestResult>, agentType: string)
    requires r.agentType != agentType
    ensures MetricsOf(a + [r] + b, agentType) == MetricsOf(a + b, agentType)
  {
    OfAgentAppend(a + [r], b, agentType);
    OfAgentAppend(a, [r], agentType);
    OfAgentAppend(a, b, agentType);
    OfAgentOther(r, agentType);
    assert OfAgent(a + [r] + b, agentType) == OfAgent(a + b, agentType);
  }

  /** A result of the agent type is kept by the filter. */
  lemma OfAgentSame(r: TestResult, agentType: string)
    requires r.agentType == agentType
    ensures OfAgent([r], agentType) == [r]
  {
    assert [r][..0] == [];
  }

  /** The metrics only count the results of the requested agent type. */
  lemma TotalTestsCountsAgent(a: seq<TestResult>, r: TestResult, agentType: string)
    requires r.agentType == agentType
    ensures MetricsOf(a + [r], agentType).totalTests == MetricsOf(a, agentType).totalTests + 1
  {
    OfAgentAppend(a, [r], agentType);
    OfAgentSame(r, agentType);
  }

  /** Sums of values within bounds are within the scaled bounds. */
  lemma {:induction false} SumBounds(xs: seq<real>, lo: real, hi: real)
    requires forall i :: 0 <= i < |xs| ==> lo <= xs[i] <= hi
    ensures lo * |xs| as real <= Sum(xs) <= hi * |xs| as real
  {
    if xs != [] {
      SumBounds(xs[..|xs| - 1], lo, hi);
    }
  }

  /** The mean of values within bounds is within those bounds. */
  lemma MeanBounds(xs: seq<real>, lo: real, hi: real)
    requires xs != []
    requires forall i :: 0 <= i < |xs| ==> lo <= xs[i] <= hi
    ensures lo <= Mean(xs) <= hi
  {
    SumBounds(xs, lo, hi);
    QuotientBounds(Sum(xs), |xs| as real, lo, hi);
  }

  /** Dividing by a positive count keeps bounds scaled by that count. */
  lemma QuotientBounds(s: real, n: real, lo: real, hi: real)
    requires n > 0.0 && lo * n <= s <= hi * n
    ensures lo <= s / n <= hi
  {
    assert s / n - lo == (s - lo * n) / n;
    assert hi - s / n == (hi * n - s) / n;
  }

  /** Every value of a column is a value some result records under that key. */
  lemma {:induction false} ColumnFrom(results: seq<TestResult>, field: Field, key: string)
    ensures forall i :: 0 <= i < |Column(results, field, key)| ==>
      exists r :: r in results && key in Dict(r, field) && Column(results, field, key)[i] == Dict(r, field)[key]
  {
    if results != [] {
      var init := results[..|results| - 1];
      var last := results[|results| - 1];
      ColumnFrom(init, field, key);
      assert forall i :: 0 <= i < |Column(init, field, key)| ==>
        exists r :: r in init && key in Dict(r, field) && Column(init, field, key)[i] == Dict(r, field)[key];
      forall i | 0 <= i < |Column(results, field, key)|
        ensures exists r :: r in results && key in Dict(r, field) && Column(results, field, key)[i] == Dict(r, field)[key]
      {
        if i < |Column(init, field, key)| {
          var r :| r in init && key in Dict(r, field) && Column(init, field, key)[i] == Dict(r, field)[key];
          assert r in results && Column(results, field, key)[i] == Column(init, field, key)[i];
        } else {
          assert last in results && Column(results, field, key)[i] == Dict(last, field)[key];
        }
      }
      assert forall i :: 0 <= i < |Column(results, field, key)| ==>
      exists r :: r in results && key in Dict(r, field) && Column(results, field, key)[i] == Dict(r, field)[key];
    } else {
      assert |Column(results, field, key)| == 0;
    }
  }

  /** A column's values inherit the bounds of the values the results record. */
  lemma {:induction false} ColumnValues(results: seq<TestResult>, field: Field, key: string, lo: real, hi: real)
    requires forall r :: r in results && key in Dict(r, field) ==> lo <= Dict(r, field)[key] <= hi
    ensures forall i :: 0 <= i < |Column(results, field, key)| ==> lo <= Column(results, field, key)[i] <= hi
  {
    if results != [] {
      var init := results[..|results| - 1];
      assert forall r :: r in init ==> r in results;
      ColumnValues(init, field, key, lo, hi);
      assert results[|results| - 1] in results;
    }
  }

  /** Averages of values within `[lo, hi]` stay within `[lo, hi]` when 0 does too. */
  lemma AveragesBounded(results: seq<TestResult>, field: Field, keys: seq<string>, lo: real, hi: real)
    requires lo <= 0.0 <= hi
    requires forall r :: r in results ==> forall k :: k in Dict(r, field) ==> lo <= Dict(r, field)[k] <= hi
    ensures forall k :: k in Averages(results, field, keys) ==> lo <= Averages(results, field, keys)[k] <= hi
  {
    forall k | k in Averages(results, field, keys)
      ensures lo <= Averages(results, field, keys)[k] <= hi
    {
      var xs := Column(results, field, k);
      ColumnValues(results, field, k, lo, hi);
      if xs != [] {
        MeanBounds(xs, lo, hi);
      }
    }
  }

  /** The filtered results are among the inputs. */
  lemma {:induction false} OfAgentSubset(results: seq<TestResult>, agentType: string)
    ensures forall r :: r in OfAgent(results, agentType) ==> r in results && r.agentType == agentType
  {
    if results != [] {
      var init := results[..|results| - 1];
      OfAgentSubset(init, agentType);
      assert forall r :: r in init ==> r in results;
    }
  }

  /** For constructed (well-formed) results every average accuracy lies in
      [0, 1]. */
  lemma AccuracyAveragesBounded(results: seq<TestResult>, agentType: string)
    requires forall r :: r in results ==> WellFormed(r)
    ensures forall k :: k in MetricsOf(results, agentType).avgAccuracy ==>
      0.0 <= MetricsOf(results, agentType).avgAccuracy[k] <= 1.0
  {
    var rs := OfAgent(results, agentType);
    OfAgentSubset(results, agentType);
    forall r | r in rs ensures forall k :: k in r.accuracy ==> 0.0 <= r.accuracy[k] <= 1.0 {
      assert WellFormed(r);
    }
    AveragesBounded(rs, Accuracy, AccuracyKeys, 0.0, 1.0);
  }

  /** With non-negative clock readings every average latency is non-negative. */
  lemma LatencyAveragesNonNegative(results: seq<TestResult>, agentType: string, bound: real)
    requires 0.0 <= bound
    requires forall r :: r in results ==> forall k :: k in r.latency ==> 0.0 <= r.latency[k] <= bound
    ensures forall k :: k in MetricsOf(results, agentType).avgLatency ==>
      0.0 <= MetricsOf(results, agentType).avgLatency[k] <= bound
  {
    var rs := OfAgent(results, agentType);
    OfAgentSubset(results, agentType);
    AveragesBounded(rs, Latency, LatencyKeys, 0.0, bound);
  }

  /** Among well-formed results, a result has its hand-off flag exactly when it
      is not an error, so the two counts add up to the number of results; the
      same holds for the context and intent flags. */
  lemma {:induction false} FlagsComplementErrors(results: seq<TestResult>)
    requires forall i :: 0 <= i < |results| ==> WellFormed(results[i])
    ensures Count(results, HandoffSucceeded) + Count(results, ErrorOccurred) == |results|
    ensures Count(results, ContextRetained) + Count(results, ErrorOccurred) == |results|
    ensures Count(results, IntentRecognized) + Count(results, ErrorOccurred) == |results|
  {
    if results != [] {
      FlagsComplementErrors(results[..|results| - 1]);
      assert WellFormed(results[|results| - 1]);
    }
  }

  /** The share of the rest is one minus the share. */
  lemma ComplementShare(n: real, e: real)
    requires n > 0.0
    ensures (n - e) / n == 1.0 - e / n
  {
    assert (n - e) / n == n / n - e / n;
  }

  /** For well-formed results the hand-off, context and intent rates are each
      one minus the error rate. */
  lemma RatesComplement(rs: seq<TestResult>)
    requires rs != []
    requires forall i :: 0 <= i < |rs| ==> WellFormed(rs[i])
    ensures Rate(rs, HandoffSucceeded) == 1.0 - Rate(rs, ErrorOccurred)
    ensures Rate(rs, ContextRetained) == 1.0 - Rate(rs, ErrorOccurred)
    ensures Rate(rs, IntentRecognized) == 1.0 - Rate(rs, ErrorOccurred)
  {
    FlagsComplementErrors(rs);
    var n := |rs| as real;
    var e := Count(rs, ErrorOccurred) as real;
    ComplementShare(n, e);
    assert Rate(rs, ErrorOccurred) == e / n;
    assert Rate(rs, HandoffSucceeded) == (n - e) / n;
    assert Rate(rs, ContextRetained) == (n - e) / n;
    assert Rate(rs, IntentRecognized) == (n - e) / n;
  }

  /** So for constructed results the hand-off, context and intent rates of an
      agent are each one minus its error rate. */
  lemma RatesComplementErrorRate(results: seq<TestResult>, agentType: string)
    requires forall r :: r in results ==> WellFormed(r)
    requires OfAgent(results, agentType) != []
    ensures MetricsOf(results, agentType).handoffSuccessRate == 1.0 - MetricsOf(results, agentType).errorRate
    ensures MetricsOf(results, agentType).contextRetentionRate == 1.0 - MetricsOf(results, agentType).errorRate
    ensures MetricsOf(results, agentType).intentRecognitionRate == 1.0 - MetricsOf(results, agentType).errorRate
  {
    var rs := OfAgent(results, agentType);
    OfAgentSubset(results, agentType);
    assert forall i :: 0 <= i < |rs| ==> rs[i] in rs;
    RatesComplement(rs);
  }

  /** The overall average runs over every result, errors included, while the
      other three accuracy averages skip error results. */
  lemma {:induction false} ErrorsOnlyInOverall(results: seq<TestResult>)
    requires forall i :: 0 <= i < |results| ==> WellFormed(results[i])
    ensures |Column(results, Accuracy, OverallKey)| == |results|
    ensures |Column(results, Accuracy, IntentKey)| == |results| - Count(results, ErrorOccurred)
    ensures |Column(results, Accuracy, ContextKey)| == |results| - Count(results, ErrorOccurred)
    ensures |Column(results, Accuracy, HandoffKey)| == |results| - Count(results, ErrorOccurred)
  {
    if results != [] {
      ErrorsOnlyInOverall(results[..|results| - 1]);
      assert WellFormed(results[|results| - 1]);
    }
  }
}
