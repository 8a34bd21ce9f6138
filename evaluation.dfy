/** The evaluation framework's data, its fixed scenario table, the canned
    responder, the per-response accuracy scorer, the construction of one test
    result, the complexity filter and the winner decisions. Scores are exact
    reals; latencies are whatever reals the clock supplied. */
module Evaluation {
  import opened Text

  // ---------------------------------------------------------------- data

  /** One scripted customer request and what it is expected to exercise. */
  datatype TestScenario = TestScenario(
    id: string,
    name: string,
    userInput: string,
    expectedIntent: string,
    expectedResponseType: string,
    complexity: string,
    requiresContext: bool,
    escalationLikely: bool)

  /** The outcome of one test. The three flags copied from the accuracy map on
      the success path hold that map's number (0.8 or 1.0, or 0.0 / 1.0) and
      hold False, i.e. 0, on the error path, so they are reals whose truth
      value is `IsTruthy`. */
  datatype TestResult = TestResult(
    scenarioId: string,
    agentType: string,
    timestamp: string,
    latency: map<string, real>,
    accuracy: map<string, real>,
    handoffSuccess: real,
    errorOccurred: bool,
    errorMessage: string,
    responseText: string,
    contextRetained: real,
    intentRecognized: real)

  /** Aggregated metrics of one agent type. */
  datatype EvaluationMetrics = EvaluationMetrics(
    agentType: string,
    totalTests: nat,
    avgLatency: map<string, real>,
    avgAccuracy: map<string, real>,
    handoffSuccessRate: real,
    errorRate: real,
    contextRetentionRate: real,
    intentRecognitionRate: real)

  /** What the surroundings did while one scenario was evaluated: the clock
      readings and wall-clock time stamp, or the exception raised while the
      agent was imported or created. */
  datatype AgentRun =
    | Completed(timestamp: string, agentCreation: real, conversation: real, total: real)
    | Raised(timestamp: string, message: string, elapsed: real)

  /** Python truthiness of a number. */
  predicate IsTruthy(x: real) {
    x != 0.0
  }

  /** `m.get(key, 0)`. */
  function GetOr(m: map<string, real>, key: string): (r: real)
    ensures key in m ==> r == m[key]
    ensures key !in m ==> r == 0.0
  {
    if key in m then m[key] else 0.0
  }

  const OverallKey := "overall"
  const IntentKey := "intent_recognition"
  const ContextKey := "context_retention"
  const HandoffKey := "handoff_appropriate"
  const AccuracyKeys: seq<string> := [OverallKey, IntentKey, ContextKey, HandoffKey]

  const AgentCreationKey := "agent_creation"
  const ConversationKey := "conversation"
  const TotalKey := "total"
  const LatencyKeys: seq<string> := [AgentCreationKey, ConversationKey, TotalKey]

  // ------------------------------------------------------ scenario table

  // The ten scenarios every evaluation runs, one constant each.
  const SimpleQuery := TestScenario("simple_query", "Business Hours Query", "What are your business hours?",
        "information_request", "factual", "simple", false, false)
  const ProductInfo := TestScenario("product_info", "Product Information", "Tell me about your premium plan",
        "product_inquiry", "descriptive", "medium", false, false)
  const TechnicalIssue := TestScenario("technical_issue", "Login Problem", "I can't log into my account",
        "technical_support", "troubleshooting", "medium", true, true)
  const BillingQuestion := TestScenario("billing_question", "Billing Issue", "Why was I charged twice?",
        "billing_inquiry", "investigative", "medium", true, true)
  const FeatureRequest := TestScenario("feature_request", "Feature Request", "Can you add mobile app support?",
        "feature_request", "acknowledgment", "simple", false, false)
  const ComplaintHandling := TestScenario("complaint_handling", "Service Complaint", "Your service was down yesterday",
        "complaint", "apology_resolution", "complex", true, true)
  const AccountManagement := TestScenario("account_management", "Password Change", "How do I change my password?",
        "account_management", "instructional", "simple", false, false)
  const PricingInquiry := TestScenario("pricing_inquiry", "Plan Comparison", "What's the difference between plans?",
        "pricing_inquiry", "comparative", "medium", false, false)
  const IntegrationQuestion := TestScenario("integration_question", "Slack Integration", "Does this work with Slack?",
        "integration_inquiry", "factual", "simple", false, false)
  const EscalationScenario := TestScenario("escalation_scenario", "Supervisor Request", "I need to speak to a supervisor",
        "escalation_request", "escalation", "complex", true, true)

  /** The scenario table, in its declared order. */
  function Scenarios(): (table: seq<TestScenario>)
    ensures |table| == 10
  {
    [ SimpleQuery, ProductInfo, TechnicalIssue, BillingQuestion, FeatureRequest,
      ComplaintHandling, AccountManagement, PricingInquiry, IntegrationQuestion, EscalationScenario ]
  }

  // ----------------------------------------------------------- responder

  /** The keyword of each canned rule, in the order the rules are tried. */
  const Keywords: seq<string> := [
    "business hours", "premium plan", "can't log in", "charged twice", "mobile app",
    "service was down", "change password", "difference between plans", "work with slack",
    "speak to supervisor"]

  /** The reply of each rule, position for position with `Keywords`. */
  const Replies: seq<string> := [
    "Our business hours are Monday through Friday, 9 AM to 6 PM EST.",
    "Our premium plan includes advanced features, priority support, and unlimited usage for $29/month.",
    "I can help you with that. Let me check your account status. Can you provide your username?",
    "I apologize for the double charge. Let me investigate this billing issue for you.",
    "Thank you for the feature request. I'll forward this to our development team.",
    "I sincerely apologize for the service interruption. We experienced technical difficulties yesterday.",
    "To change your password, go to Account Settings > Security > Change Password.",
    "We offer three plans: Basic ($9/month), Standard ($19/month), and Premium ($29/month).",
    "Yes, our service integrates with Slack through our official integration.",
    "I understand you'd like to speak with a supervisor. Let me transfer you to our escalation team."]

  /** The reply when no rule matches. */
  const DefaultReply := "I understand your request. Let me help you with that."

  /** Every reply the responder can give: the ten rule replies, then the default. */
  const AllReplies: seq<string> := Replies + [DefaultReply]

  /** The mock agent: the first keyword (in declared order) that occurs in the
      lower-cased input picks the reply, and the default answers everything
      else. */
  function Respond(userInput: string): (r: string)
    ensures r in AllReplies
    ensures r != ""
  {
    var text := Lower(userInput);
    if Contains(text, "business hours") then Replies[0]
    else if Contains(text, "premium plan") then Replies[1]
    else if Contains(text, "can't log in") then Replies[2]
    else if Contains(text, "charged twice") then Replies[3]
    else if Contains(text, "mobile app") then Replies[4]
    else if Contains(text, "service was down") then Replies[5]
    else if Contains(text, "change password") then Replies[6]
    else if Contains(text, "difference between plans") then Replies[7]
    else if Contains(text, "work with slack") then Replies[8]
    else if Contains(text, "speak to supervisor") then Replies[9]
    else DefaultReply
  }

  /** Reference definition of the rule order: the index of the first rule at
      or after `from` whose keyword occurs in `text`, or 10 when none does. */
  function FirstRuleFrom(text: string, from: nat): (k: nat)
    requires from <= |Keywords|
    ensures from <= k <= |Keywords|
    ensures forall j :: from <= j < k ==> !Contains(text, Keywords[j])
    ensures k < |Keywords| ==> Contains(text, Keywords[k])
    decreases |Keywords| - from
  {
    if from == |Keywords| then from
    else if Contains(text, Keywords[from]) then from
    else FirstRuleFrom(text, from + 1)
  }

  /** The first rule that matches `text`, 10 standing for "none". */
  function FirstRule(text: string): (k: nat)
    ensures k <= |Keywords|
    ensures forall j :: 0 <= j < k ==> !Contains(text, Keywords[j])
    ensures k < |Keywords| ==> Contains(text, Keywords[k])
  {
    FirstRuleFrom(text, 0)
  }

  /** Any index with the first-match property is the first rule. */
  lemma FirstRuleUnique(text: string, k: nat)
    requires k <= |Keywords|
    requires forall j :: 0 <= j < k ==> !Contains(text, Keywords[j])
    requires k < |Keywords| ==> Contains(text, Keywords[k])
    ensures FirstRule(text) == k
  {
  }

  /** The responder answers with the reply of the first rule whose keyword
      occurs in the lower-cased input, and with the default when none does. */
  lemma RespondIsFirstMatch(userInput: string)
    ensures Respond(userInput) == AllReplies[FirstRule(Lower(userInput))]
  {
    var text := Lower(userInput);
    var k := FirstRule(text);
    assert forall j :: 0 <= j < |Keywords| ==> Keywords[j] == [
      "business hours", "premium plan", "can't log in", "charged twice", "mobile app",
      "service was down", "change password", "difference between plans", "work with slack",
      "speak to supervisor"][j];
    if k < |Keywords| {
      assert Contains(text, Keywords[k]);
    }
  }

  /** The reply depends on the input only through its lower-case form. */
  lemma RespondIgnoresCase(userInput: string)
    ensures Respond(Lower(userInput)) == Respond(userInput)
  {
    LowerIdempotent(userInput);
    RespondIsFirstMatch(userInput);
    RespondIsFirstMatch(Lower(userInput));
  }

  // ------------------------------------------------------------ accuracy

  /** The per-response scores: intent is recognised when there is any reply,
      context is retained when the scenario needs context and the reply is
      longer than 50 characters, the hand-off is appropriate when escalation is
      likely and the reply mentions a supervisor; unmet criteria score 0 for
      intent and 0.8 for the other two, and "overall" is their mean. */
  function CalculateAccuracy(response: string, scenario: TestScenario): (acc: map<string, real>)
    ensures acc.Keys == {OverallKey, IntentKey, ContextKey, HandoffKey}
    ensures acc[IntentKey] == 1.0 <==> response != ""
    ensures acc[IntentKey] == 0.0 <==> response == ""
    ensures acc[ContextKey] == 1.0 <==> scenario.requiresContext && |response| > 50
    ensures acc[ContextKey] == 0.8 <==> !(scenario.requiresContext && |response| > 50)
    ensures acc[HandoffKey] == 1.0 <==> scenario.escalationLikely && Contains(Lower(response), "supervisor")
    ensures acc[HandoffKey] == 0.8 <==> !(scenario.escalationLikely && Contains(Lower(response), "supervisor"))
    ensures acc[OverallKey] * 3.0 == acc[IntentKey] + acc[ContextKey] + acc[HandoffKey]
  {
    var intent := if response != "" then 1.0 else 0.0;
    var context := if scenario.requiresContext && |response| > 50 then 1.0 else 0.8;
    var handoff := if scenario.escalationLikely && Contains(Lower(response), "supervisor") then 1.0 else 0.8;
    var overall := (intent + context + handoff) / 3.0;
    map[OverallKey := overall, IntentKey := intent, ContextKey := context, HandoffKey := handoff]
  }

  /** Every score lies in [0, 1], and "overall" is never below 1.6 / 3. */
  lemma AccuracyBounds(response: string, scenario: TestScenario)
    ensures forall key :: key in CalculateAccuracy(response, scenario) ==>
      0.0 <= CalculateAccuracy(response, scenario)[key] <= 1.0
    ensures CalculateAccuracy(response, scenario)[OverallKey] >= 1.6 / 3.0
  {
    var acc := CalculateAccuracy(response, scenario);
    assert acc[IntentKey] == 0.0 || acc[IntentKey] == 1.0;
    assert acc[ContextKey] == 0.8 || acc[ContextKey] == 1.0;
    assert acc[HandoffKey] == 0.8 || acc[HandoffKey] == 1.0;
  }

  /** The scorer only ever sees replies of the responder, which are non-empty,
      so the intent score of a simulated conversation is always 1 and
      "overall" is at least 2.6 / 3. */
  lemma ResponderAccuracy(scenario: TestScenario)
    ensures CalculateAccuracy(Respond(scenario.userInput), scenario)[IntentKey] == 1.0
    ensures CalculateAccuracy(Respond(scenario.userInput), scenario)[OverallKey] >= 2.6 / 3.0
  {
    var acc := CalculateAccuracy(Respond(scenario.userInput), scenario);
    assert acc[ContextKey] == 0.8 || acc[ContextKey] == 1.0;
    assert acc[HandoffKey] == 0.8 || acc[HandoffKey] == 1.0;
  }

  // --------------------------------------------------- result construction

  /** One evaluation of `agentType` on `scenario`. A completed run records the
      three latencies, the responder's reply and its scores, and copies the
      hand-off, context and intent scores into the three flags; a run whose
      agent raised records only the total elapsed time, an overall accuracy of
      0, the error message and cleared flags. */
  function EvaluateAgent(agentType: string, scenario: TestScenario, run: AgentRun): (r: TestResult)
    ensures r.scenarioId == scenario.id && r.agentType == agentType && r.timestamp == run.timestamp
    ensures r.errorOccurred <==> run.Raised?
    ensures run.Completed? ==>
      && r.responseText == Respond(scenario.userInput)
      && r.accuracy == CalculateAccuracy(r.responseText, scenario)
      && r.latency == map[AgentCreationKey := run.agentCreation, ConversationKey := run.conversation, TotalKey := run.total]
      && r.handoffSuccess == r.accuracy[HandoffKey]
      && r.contextRetained == r.accuracy[ContextKey]
      && r.intentRecognized == r.accuracy[IntentKey]
      && r.errorMessage == ""
    ensures run.Raised? ==>
      && r.latency == map[TotalKey := run.elapsed]
      && r.accuracy == map[OverallKey := 0.0]
      && r.errorMessage == run.message
      && r.responseText == ""
      && !IsTruthy(r.handoffSuccess) && !IsTruthy(r.contextRetained) && !IsTruthy(r.intentRecognized)
  {
    match run
    case Completed(timestamp, creation, conversation, total) =>
      var response := Respond(scenario.userInput);
      var accuracy := CalculateAccuracy(response, scenario);
      TestResult(scenario.id, agentType, timestamp,
        map[AgentCreationKey := creation, ConversationKey := conversation, TotalKey := total],
        accuracy, accuracy[HandoffKey], false, "", response, accuracy[ContextKey], accuracy[IntentKey])
    case Raised(timestamp, message, elapsed) =>
      TestResult(scenario.id, agentType, timestamp, map[TotalKey := elapsed],
        map[OverallKey := 0.0], 0.0, true, message, "", 0.0, 0.0)
  }

  /** `evaluate_baml_agent`: the result is tagged "baml". */
  function EvaluateBaml(scenario: TestScenario, run: AgentRun): (r: TestResult)
    ensures r.agentType == "baml" && r.scenarioId == scenario.id
    ensures r.errorOccurred <==> run.Raised?
  {
    EvaluateAgent("baml", scenario, run)
  }

  /** `evaluate_vanilla_agent`: the result is tagged "vanilla". */
  function EvaluateVanilla(scenario: TestScenario, run: AgentRun): (r: TestResult)
    ensures r.agentType == "vanilla" && r.scenarioId == scenario.id
    ensures r.errorOccurred <==> run.Raised?
  {
    EvaluateAgent("vanilla", scenario, run)
  }

  /** The shape every result has: either a success with the four scores and
      truthy hand-off and context flags, or an error with only "overall" = 0
      and only a "total" latency. */
  predicate WellFormed(r: TestResult) {
    if r.errorOccurred then
      && r.accuracy == map[OverallKey := 0.0]
      && r.latency.Keys == {TotalKey}
      && !IsTruthy(r.handoffSuccess) && !IsTruthy(r.contextRetained) && !IsTruthy(r.intentRecognized)
    else
      && r.accuracy.Keys == {OverallKey, IntentKey, ContextKey, HandoffKey}
      && (forall key :: key in r.accuracy ==> 0.0 <= r.accuracy[key] <= 1.0)
      && r.latency.Keys == {AgentCreationKey, ConversationKey, TotalKey}
      && IsTruthy(r.handoffSuccess) && IsTruthy(r.contextRetained) && IsTruthy(r.intentRecognized)
  }

  /** Every constructed result is well formed: in particular each non-error
      result counts toward the hand-off, context and intent rates, and each
      error result toward none of them. */
  lemma EvaluateAgentWellFormed(agentType: string, scenario: TestScenario, run: AgentRun)
    ensures WellFormed(EvaluateAgent(agentType, scenario, run))
  {
    if run.Completed? {
      AccuracyBounds(Respond(scenario.userInput), scenario);
      ResponderAccuracy(scenario);
    }
  }

  // ----------------------------------------------------- complexity filter

  /** `[s for s in scenarios if s.complexity == complexity]`. */
  function WithComplexity(scenarios: seq<TestScenario>, complexity: string): (r: seq<TestScenario>)
    ensures |r| <= |scenarios|
  {
    if scenarios == [] then []
    else
      var head := if scenarios[0].complexity == complexity then [scenarios[0]] else [];
      head + WithComplexity(scenarios[1..], complexity)
  }

  /** Membership in the filtered list is exactly membership with that complexity. */
  lemma {:induction false} WithComplexityMembers(scenarios: seq<TestScenario>, complexity: string, s: TestScenario)
    ensures s in WithComplexity(scenarios, complexity) <==> s in scenarios && s.complexity == complexity
  {
    if scenarios != [] {
      WithComplexityMembers(scenarios[1..], complexity, s);
      assert scenarios == [scenarios[0]] + scenarios[1..];
    }
  }

  /** Filtering distributes over concatenation, so it keeps the original order. */
  lemma {:induction false} WithComplexityAppend(a: seq<TestScenario>, b: seq<TestScenario>, complexity: string)
    ensures WithComplexity(a + b, complexity) == WithComplexity(a, complexity) + WithComplexity(b, complexity)
  {
    if a == [] {
      assert a + b == b;
    } else {
      var head := if a[0].complexity == complexity then [a[0]] else [];
      assert (a + b)[0] == a[0];
      assert (a + b)[1..] == a[1..] + b;
      assert WithComplexity(a + b, complexity) == head + WithComplexity(a[1..] + b, complexity);
      WithComplexityAppend(a[1..], b, complexity);
    }
  }

  /** The command-line choice of scenarios: "simple", "medium" and "complex"
      keep the scenarios of that complexity, anything else ("all") keeps all. */
  function SelectScenarios(choice: string, scenarios: seq<TestScenario>): (r: seq<TestScenario>)
    ensures choice in {"simple", "medium", "complex"} ==> r == WithComplexity(scenarios, choice)
    ensures choice !in {"simple", "medium", "complex"} ==> r == scenarios
  {
    if choice == "simple" then WithComplexity(scenarios, "simple")
    else if choice == "medium" then WithComplexity(scenarios, "medium")
    else if choice == "complex" then WithComplexity(scenarios, "complex")
    else scenarios
  }

  // -------------------------------------------------------------- verdict

  /** The four decisions of the comparison report. */
  datatype Verdict = Verdict(bamlFaster: bool, bamlMoreAccurate: bool, bamlMoreReliable: bool, bamlWins: bool)

  /** BAML is faster when its mean total latency is strictly smaller, more
      accurate and the winner when its mean overall accuracy is strictly
      greater, more reliable when its error rate is strictly smaller; missing
      averages read as 0. */
  function CompareMetrics(baml: EvaluationMetrics, vanilla: EvaluationMetrics): (v: Verdict)
    ensures v.bamlFaster <==> GetOr(baml.avgLatency, TotalKey) < GetOr(vanilla.avgLatency, TotalKey)
    ensures v.bamlMoreAccurate <==> GetOr(baml.avgAccuracy, OverallKey) > GetOr(vanilla.avgAccuracy, OverallKey)
    ensures v.bamlMoreReliable <==> baml.errorRate < vanilla.errorRate
    ensures v.bamlWins <==> v.bamlMoreAccurate
  {
    var accurate := GetOr(baml.avgAccuracy, OverallKey) > GetOr(vanilla.avgAccuracy, OverallKey);
    Verdict(
      GetOr(baml.avgLatency, TotalKey) < GetOr(vanilla.avgLatency, TotalKey),
      accurate,
      baml.errorRate < vanilla.errorRate,
      accurate)
  }

  /** Ties go to Vanilla: with equal overall accuracy BAML never wins, and
      BAML and Vanilla cannot both be declared the more accurate one when their
      roles are swapped. */
  lemma TiesGoToVanilla(baml: EvaluationMetrics, vanilla: EvaluationMetrics)
    ensures GetOr(baml.avgAccuracy, OverallKey) == GetOr(vanilla.avgAccuracy, OverallKey) ==>
      !CompareMetrics(baml, vanilla).bamlWins && !CompareMetrics(vanilla, baml).bamlWins
    ensures !(CompareMetrics(baml, vanilla).bamlWins && CompareMetrics(vanilla, baml).bamlWins)
    ensures !(CompareMetrics(baml, vanilla).bamlFaster && CompareMetrics(vanilla, baml).bamlFaster)
    ensures !(CompareMetrics(baml, vanilla).bamlMoreReliable && CompareMetrics(vanilla, baml).bamlMoreReliable)
  {
  }
}
