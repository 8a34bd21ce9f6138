# Voice-agent evaluation framework and debug helpers, modelled in Dafny

This project models the parts of a Pipecat voice-agent repository that have logic of their own:

- **The evaluation framework of `evaluate_agent.py`.** It holds a fixed table of ten customer-service scenarios and a mock responder that picks a canned reply by keyword. It scores each reply for intent, context retention and hand-off, and builds one test result per scenario and agent. It aggregates the results of each agent type into average latencies and accuracies and four rates, filters the scenarios by complexity, and decides which agent "wins".
- **The Vanilla agent's `ValidationFreeDebugProcessor` in `vanilla_agent.py`.** It is a processor with one lifecycle flag that forwards every frame unchanged. The project also models the environment check that `main` runs before it builds a pipeline.
- **The environment check of the API suite in `test_apis.py`.** It masks each credential for display, reports each missing one with its description, and runs the network tests only when all five credentials are present.

## Files and modules

- `text.dfy` (`Text`): ASCII lower-casing and the substring test `needle in haystack`. Non-containment of concrete strings is proved from explicit mismatch certificates.
- `evaluation.dfy` (`Evaluation`): the data types, the scenario table, the responder, the accuracy scorer, result construction, the complexity filter and the verdict.
- `evaluation_facts.dfy` (`EvaluationFacts`): facts about the concrete table:
  - which rule answers each scenario;
  - distinct ids and known complexities;
  - what each complexity choice selects.
- `metrics.dfy` (`Metrics`): `calculate_metrics`. It is specified by functions (`OfAgent`, `Column`, `Averages`, `Rate`, `MetricsOf`). An imperative method with the source's `for` loop over the keys is proved equal to them.
- `run.dfy` (`EvaluationRun`): the two evaluation loops of `main` and the comparison they lead to. It also proves that BAML can never win while every Vanilla run completes.
- `vanilla.dfy` (`VanillaAgent`): the debug processor as a class, and the start-up environment check.
- `wrappers.dfy` (`Wrappers`): the `Option` type.
- `environment.dfy` (`Environment`): when an environment variable counts as set.
- `api_tests.dfy` (`ApiTests`): the masking expression, the `check_environment` loop and the gating in `main`.

## How the outside world is represented

- **Scores and latencies.** Scores are exact `real`s. Latencies are taken as given reals: the clock readings of one evaluation are an `AgentRun` value. `AgentRun` is either `Completed` with the three measured times or `Raised` with the exception text and the elapsed time.
- **Scenario inputs.** `main` evaluates scenario `i` with the run `bamlRun(i)` or `vanillaRun(i)`.
- **Dictionaries and environment.** Python dictionaries of scores are `map<string, real>`. The process environment is a `map<string, string>`. `os.getenv(name)` is truthy exactly when the name is present with a non-empty value.
- **Python truthiness of numbers.** It is `x != 0.0`. The source stores the hand-off and context scores (0.8 or 1.0) and the intent score (1.0 or 0.0) in the result's boolean-looking flags, and `False` on the error path. The flags are therefore reals whose truth value is `IsTruthy`.
- **Debug processor inputs.**
  - `process_frame` receives the two-second audio throttle's decision as the argument `audioLogDue`.
  - How the logging step and the first push end is an `Outcome`: `Ok`, `Raises` (an `Exception`, which the handler catches) or `Cancelled` (a `BaseException` such as `asyncio.CancelledError`, which `except Exception` lets through).
  - `errorPrintRaises` says whether the handler's own error print raises. That print is outside any `try`, so such an exception escapes.
  - Printed lines are returned as `Note` values.

## Model

| member | source | states |
|---|---|---|
| Text.Lower | evaluate_agent.py:301 | `.lower()` keeps the length and lower-cases each ASCII letter, position by position |
| Text.Contains | evaluate_agent.py:301-320 | a needle that occurs in a haystack (`t in s`, an occurrence at some start position) is no longer than the haystack |
| Text.LowerIdempotent | evaluate_agent.py:301-320 | lower-casing an already lower-cased string changes nothing |
| Text.NotContains | evaluate_agent.py:301-320 | a certificate naming a mismatching offset for every start position proves that a keyword does not occur |
| Evaluation.IsTruthy | evaluate_agent.py:372-375 | a number read as a flag (`if r.handoff_success`) is true exactly when it is non-zero |
| Evaluation.Scenarios | evaluate_agent.py:66-169 | the scenario table has exactly ten scenarios |
| Evaluation.GetOr | evaluate_agent.py:448-453 | `m.get(key, 0)` is the stored value when the key is present and 0 otherwise |
| Evaluation.Respond | evaluate_agent.py:292-322 | the mock reply is always one of the eleven fixed replies and never empty |
| Evaluation.FirstRule | evaluate_agent.py:301-322 | reference definition of the rule order: no earlier keyword occurs in the lower-cased input, the chosen one does, and 10 means none occurs |
| Evaluation.FirstRuleUnique | evaluate_agent.py:301-322 | any index with the first-match property is the first rule |
| Evaluation.RespondIsFirstMatch | evaluate_agent.py:301-322 | the reply is the reply of the first rule, in declared order, whose keyword occurs in the lower-cased input, and the default reply when none occurs |
| Evaluation.RespondIgnoresCase | evaluate_agent.py:301-322 | the reply depends on the input only through its lower-case form |
| Evaluation.CalculateAccuracy | evaluate_agent.py:324-341 | the result has exactly the four keys. Intent is 1 iff the response is non-empty, else 0. Context is 1 iff the scenario needs context and the response is longer than 50 characters, else 0.8. Hand-off is 1 iff escalation is likely and the lower-cased response contains "supervisor", else 0.8. Three times "overall" is their sum |
| Evaluation.AccuracyBounds | evaluate_agent.py:329-341 | every score lies in [0, 1] and "overall" is at least 1.6/3 |
| Evaluation.ResponderAccuracy | evaluate_agent.py:189-201 | a reply of the mock responder always gets intent 1, so "overall" is at least 2.6/3 |
| Evaluation.EvaluateAgent | evaluate_agent.py:171-230 | the success path records the three latencies, the responder's reply, its scores and the flags copied from those scores. The error path records only the total latency, accuracy `{"overall": 0}`, the message, an empty reply and false flags. The agent type and scenario id are always recorded |
| Evaluation.EvaluateBaml | evaluate_agent.py:171-230 | BAML results are tagged "baml" and are errors exactly when the agent raised |
| Evaluation.EvaluateVanilla | evaluate_agent.py:232-290 | Vanilla results are tagged "vanilla" and are errors exactly when the agent raised |
| Evaluation.EvaluateAgentWellFormed | evaluate_agent.py:203-230 | every constructed result has the success shape (four scores in [0,1], three latencies, truthy hand-off, context and intent flags) or the error shape (only "overall" = 0, only "total", falsy flags) |
| Evaluation.WithComplexity | evaluate_agent.py:501-506 | `[s for s in scenarios if s.complexity == c]` keeps at most the input's scenarios |
| Evaluation.WithComplexityMembers | evaluate_agent.py:501-506 | a scenario is in the filtered list exactly when it is in the table with that complexity |
| Evaluation.WithComplexityAppend | evaluate_agent.py:501-506 | the filter distributes over concatenation, so it keeps the table order |
| Evaluation.SelectScenarios | evaluate_agent.py:501-508 | "simple", "medium" and "complex" filter by complexity, and any other choice keeps every scenario |
| Evaluation.CompareMetrics | evaluate_agent.py:448-453 | BAML is faster iff its mean total latency is strictly smaller. It is more accurate and the winner iff its mean overall accuracy is strictly greater. It is more reliable iff its error rate is strictly smaller. Missing averages read as 0 |
| Evaluation.TiesGoToVanilla | evaluate_agent.py:449-453 | equal overall accuracy never makes BAML the winner, and no decision can favour both agents at once |
| EvaluationFacts.ReplyToSimpleQuery | evaluate_agent.py:72 | the business-hours query gets the business-hours reply |
| EvaluationFacts.ReplyToProductInfo | evaluate_agent.py:82 | the premium-plan request gets the premium-plan reply |
| EvaluationFacts.LoginProblemMatchesRule | evaluate_agent.py:92 | "I can't log into my account" contains "can't log in" and gets the login reply |
| EvaluationFacts.ReplyToBillingQuestion | evaluate_agent.py:102 | the double-charge question gets the billing reply |
| EvaluationFacts.ReplyToFeatureRequest | evaluate_agent.py:112 | the mobile-app request gets the feature-request reply |
| EvaluationFacts.ReplyToComplaintHandling | evaluate_agent.py:122 | the outage complaint gets the apology reply |
| EvaluationFacts.PasswordChangeGetsDefault | evaluate_agent.py:132 | "How do I change my password?" contains none of the keywords (not "change password" in particular), so it gets the default reply |
| EvaluationFacts.ReplyToPricingInquiry | evaluate_agent.py:142 | the plan comparison gets the pricing reply |
| EvaluationFacts.ReplyToIntegrationQuestion | evaluate_agent.py:152 | the Slack question gets the integration reply |
| EvaluationFacts.SupervisorRequestGetsDefault | evaluate_agent.py:162 | "I need to speak to a supervisor" contains none of the keywords (not "speak to supervisor" in particular), so it gets the default reply |
| EvaluationFacts.TableIdsDistinct | evaluate_agent.py:66-169 | the table has ten scenarios with pairwise distinct ids |
| EvaluationFacts.TableComplexitiesKnown | evaluate_agent.py:66-169 | every scenario's complexity is "simple", "medium" or "complex" |
| EvaluationFacts.SimpleScenarios | evaluate_agent.py:501-502 | choosing "simple" runs exactly the four simple scenarios, in table order |
| EvaluationFacts.MediumScenarios | evaluate_agent.py:503-504 | choosing "medium" runs exactly the four medium scenarios, in table order |
| EvaluationFacts.ComplexScenarios | evaluate_agent.py:505-506 | choosing "complex" runs exactly the two complex scenarios, in table order |
| EvaluationFacts.AllScenarios | evaluate_agent.py:507-508 | choosing "all" runs the whole table |
| Metrics.OfAgent | evaluate_agent.py:345 | the filter keeps at most the input's results, each of the requested agent type |
| Metrics.Column | evaluate_agent.py:362 | a column has at most one value per result |
| Metrics.Mean | evaluate_agent.py:363 | the mean of an empty column is 0 |
| Metrics.Averages | evaluate_agent.py:360-368 | the averages dictionary has exactly the given keys |
| Metrics.Count | evaluate_agent.py:372-375 | the number of results with a flag is at most the number of results |
| Metrics.Rate | evaluate_agent.py:372-375 | a rate lies in [0, 1]. It is 0 iff no result has the flag, and 1 iff every result has it |
| Metrics.Aggregate | evaluate_agent.py:347-386 | with no results: zero tests, empty averages, zero rates. Otherwise the number of results, every latency and accuracy key averaged, and rates in [0, 1] |
| Metrics.MetricsOf | evaluate_agent.py:343-386 | the metrics of the requested agent type count exactly its results. With none they are the empty metrics |
| Metrics.AverageColumns | evaluate_agent.py:360-368 | the key loop stores, for every key, the mean of the values of the results that have that key, or 0 when none has it |
| Metrics.CalculateMetrics | evaluate_agent.py:343-386 | the imperative aggregator returns exactly `MetricsOf` |
| Metrics.OfAgentAppend | evaluate_agent.py:345 | the agent filter distributes over concatenation |
| Metrics.OtherAgentsIgnored | evaluate_agent.py:345 | inserting a result of another agent type anywhere leaves the metrics unchanged |
| Metrics.TotalTestsCountsAgent | evaluate_agent.py:345-370 | appending a result of the requested type adds one to `total_tests` |
| Metrics.OfAgentSubset | evaluate_agent.py:345 | every kept result is an input result of the requested type |
| Metrics.MeanBounds | evaluate_agent.py:361-368 | the mean of values within bounds is within the same bounds |
| Metrics.ColumnValues | evaluate_agent.py:361-368 | column values inherit the bounds of the values the results record under that key |
| Metrics.ColumnFrom | evaluate_agent.py:361-368 | every value of a column is the value some input result records under that key |
| Metrics.AveragesBounded | evaluate_agent.py:360-368 | averages of values in [lo, hi] lie in [lo, hi] when 0 does too (the empty column averages to 0) |
| Metrics.AccuracyAveragesBounded | evaluate_agent.py:366-368 | over constructed results every average accuracy lies in [0, 1] |
| Metrics.LatencyAveragesNonNegative | evaluate_agent.py:361-363 | latencies in [0, bound] give average latencies in [0, bound] |
| Metrics.FlagsComplementErrors | evaluate_agent.py:372-375 | over constructed results, the hand-off, context and intent counts each add up with the error count to the number of results |
| Metrics.RatesComplement | evaluate_agent.py:372-375 | over constructed results, each of the three success rates is 1 minus the error rate |
| Metrics.RatesComplementErrorRate | evaluate_agent.py:343-386 | the same holds for the metrics of any agent type that has results |
| Metrics.ErrorsOnlyInOverall | evaluate_agent.py:366-368 | the "overall" column has one value per result, errors included, while the intent, context and hand-off columns have one value per non-error result |
| EvaluationRun.Evaluations | evaluate_agent.py:515-534 | one result per scenario, in order, each tagged with the agent type and the scenario's id |
| EvaluationRun.AllResults | evaluate_agent.py:537-540 | `all_results` has one result per scenario for each chosen agent, each tagged with a chosen agent type |
| EvaluationRun.EvaluateChosen | evaluate_agent.py:512-554 | `all_results` holds the BAML results and then the Vanilla results, each list present when that agent was chosen. A verdict exists iff both agents were chosen and some result exists, and it is the comparison of the two agents' metrics over `all_results` |
| EvaluationRun.RunEvaluation | evaluate_agent.py:483-554 | the same, over the scenarios that `--scenarios` selects from the table |
| EvaluationRun.BothSplits | evaluate_agent.py:537-540 | filtering `all_results` by agent type recovers each agent's own result list |
| EvaluationRun.ScenarioScores | evaluate_agent.py:171-290 | on one scenario BAML scores at most what a completed Vanilla run scores, and the same when both complete, because both agents use the same mock responder |
| EvaluationRun.OverallAverage | evaluate_agent.py:366-368 | the overall average of constructed results is the sum of their overall scores over their number |
| EvaluationRun.OverallComparison | evaluate_agent.py:539-554 | BAML's mean overall accuracy is at most Vanilla's when no Vanilla run failed, and they are equal when no run of either agent failed |
| EvaluationRun.BamlWinsOnlyOnVanillaErrors | evaluate_agent.py:551-554 | "BAML Agent wins" can only be printed when some Vanilla run raised |
| VanillaAgent.NextStarted | vanilla_agent.py:68-73 | a Start frame sets the lifecycle flag, an End frame clears it, and every other frame keeps it, whatever the direction |
| VanillaAgent.Status | vanilla_agent.py:86 | the audio status word is "ACTIVE" iff the pipeline has started, and "WAITING" iff it has not |
| VanillaAgent.NoteFor | vanilla_agent.py:68-87 | Start and End frames (and only they) get the started/ended line. Audio frames get a line iff they carry bytes and the throttle lets it through; the line has the byte count and the status word. Unknown frames get no line. Every line carries the frame's direction |
| VanillaAgent.LogLines | vanilla_agent.py:62-98 | at most two lines. An error line appears iff the `except Exception` handler runs and its print does not raise. When the logging step did not complete, no line but the error line appears. When it did, the frame's own line comes first |
| VanillaAgent.PushAttempts | vanilla_agent.py:89-98 | at most two pushes, each of the unchanged frame in its arrival direction. None iff the logging step was cancelled, or raised and the error print raised too. Two iff the logging step completed, the first push raised an `Exception` and the error print succeeded |
| VanillaAgent.ExceptionsAreContained | vanilla_agent.py:62-98 | when no step raises a `BaseException` that is not an `Exception` and the error print succeeds, no exception leaves `process_frame` and the frame is pushed at least once |
| VanillaAgent.ForwardedUnlessEscaping | vanilla_agent.py:62-98 | whenever no exception leaves `process_frame`, the frame was pushed, and pushed twice only when the first push raised |
| VanillaAgent.ValidationFreeDebugProcessor.constructor | vanilla_agent.py:51-56 | a new processor has its name ("Debug" by default), has not seen a Start frame, and is marked started |
| VanillaAgent.ValidationFreeDebugProcessor.CheckStarted | vanilla_agent.py:58-60 | for every frame the override raises nothing and returns `None` |
| VanillaAgent.ValidationFreeDebugProcessor.StatusLabel | vanilla_agent.py:86 | the status word is "ACTIVE" iff the processor's flag is set |
| VanillaAgent.ValidationFreeDebugProcessor.ProcessFrame | vanilla_agent.py:62-98 | the flag becomes `NextStarted` of the old flag, the name and the started mark are unchanged, the printed lines and push attempts are `LogLines` and `PushAttempts`, and an exception leaves the call exactly in the `Escapes` cases |
| VanillaAgent.Replay | vanilla_agent.py:68-73 | over a sequence of frames the flag can differ from its initial value only if some frame was a Start or End frame |
| VanillaAgent.ReplayLastLifecycle | vanilla_agent.py:68-73 | after a sequence of frames, the flag is set exactly when the last Start or End frame was a Start frame |
| VanillaAgent.ReplayWithoutLifecycle | vanilla_agent.py:76-87 | frames other than Start and End never change the flag |
| VanillaAgent.MissingVars | vanilla_agent.py:153 | `[var for var in required_vars if not os.getenv(var)]` has at most as many names as the list |
| VanillaAgent.MissingVarsMembers | vanilla_agent.py:153 | a name is reported missing exactly when it is in the list and unset or empty |
| VanillaAgent.MissingVarsAppend | vanilla_agent.py:153 | the missing names keep the list's order |
| VanillaAgent.MissingRequired | vanilla_agent.py:147-153 | the missing names are exactly the required names that are unset or empty |
| VanillaAgent.StartupDecision | vanilla_agent.py:147-157 | `main` stops before building a pipeline iff some required variable is unset or empty, and then reports the missing names, which are never an empty list |
| ApiTests.Mask | test_apis.py:140 | the display is at most 11 characters, and it is "***" exactly when the secret has at most 8 characters |
| ApiTests.MaskLong | test_apis.py:140 | a secret longer than 8 characters is shown as its first 8 characters followed by "..." |
| ApiTests.MaskRevealsOnlyPrefix | test_apis.py:140 | two secrets that agree on their first 8 characters, and on being longer than 8, are displayed alike |
| ApiTests.ShortSecretsIndistinguishable | test_apis.py:140 | all secrets of at most 8 characters are displayed as "***" |
| ApiTests.MaskCharacters | test_apis.py:140 | each displayed character is either the secret's character at that position among its first 8, or part of the fixed text |
| ApiTests.Entry | test_apis.py:136-144 | each printed line names its variable, and it is a "present" line exactly when the variable is set and non-empty |
| ApiTests.Report | test_apis.py:135-144 | the check prints exactly one line per variable |
| ApiTests.AllSet | test_apis.py:135-146 | the check's result: every listed variable is set and non-empty |
| ApiTests.CheckEnvironment | test_apis.py:123-146 | the loop prints one line for every required variable in order, whatever is missing, and returns true exactly when all five are set and non-empty |
| ApiTests.PrefixStep | test_apis.py:135-144 | checking one more variable appends that variable's line and adds its test to the conjunction, so once a variable is missing the result stays false |
| ApiTests.ReportCoversEveryVariable | test_apis.py:135-144 | the report's i-th line names the i-th variable and reports it missing exactly when it is unset |
| ApiTests.AllSetIffNoMissing | test_apis.py:135-146 | the check passes exactly when no line of the report is a "missing" line |
| ApiTests.EmptyValueIsMissing | test_apis.py:137-138 | an empty value counts as missing and fails the check |
| ApiTests.RunSuite | test_apis.py:173-192 | when the check fails, the template is written and no API test runs. When it passes, the Cartesia, Deepgram and Pipecat tests run in that order |

## Left out

- Network calls and vendor services are not modelled. This covers the HTTP requests of `test_cartesia_api`, `test_deepgram_api` and `test_pipecat_services`, the Daily token and room checks, and all Pipecat, Daily, OpenAI, Cartesia and Deepgram wiring (`create_fixed_simple_agent`, `baml_agent.py`, the `test_*` service scripts). They are I/O with libraries that are not part of this model. `RunSuite` records only which tests would run.
- `manually_start_pipeline` is not modelled. It works on private attributes of an external pipeline object.
- `deepgram_compatibility.py` is not modelled. It patches `sys.modules` around a foreign library.
- Clocks, `datetime.now()`, `asyncio.sleep` and the agent factories are not modelled. They become the `AgentRun` argument, whose time stamp and latencies are taken as given.
- The audio throttle's time stamp `_last_audio_log` and its 2-second comparison become the `audioLogDue` argument of `ProcessFrame`.
- Where exactly an exception is raised inside `process_frame`, and of which class, becomes the `handling`, `firstPush` and `errorPrintRaises` arguments. The model always applies the lifecycle update, which the source performs before any output that could raise. An exception raised by the handler's push is swallowed by its bare `except`, so it needs no argument.
- Printed text, the Markdown report's number formatting, `save_results`' JSON files, `create_env_template`'s file write, argparse and the `--interactive` flag are not modelled. Only the decisions behind them are: the verdict, the template being written, the tests being run.
- `demo_evaluation.py` is not modelled. It only prints the scenario table.
- `Text.Lower`: lower-cases ASCII letters only. Python's `str.lower` also folds non-ASCII letters. Every literal in the scenario table and among the keywords is ASCII.
- Scores and latencies are exact reals, not IEEE doubles. Floating-point rounding of the means, and of 1.6/3 and 2.6/3, is not captured.
- Scenario facts about the hand-off and context scores are not stated lemma by lemma. That the escalation scenario always scores hand-off 0.8 would require a substring search over the long canned replies. The general scorer contract (`Evaluation.CalculateAccuracy`) and the reply lemmas together determine those scores.
- The password and supervisor scenarios get the default reply, although the responder has rules meant for them. Their keywords ("change password", "speak to supervisor") are not substrings of the scripted inputs. The model follows the code here, and `EvaluationFacts` states it for those two scenarios.
- `ValidationFreeDebugProcessor.CheckStarted`: the model states only what the override does, returning `None` and raising nothing. Whether the Pipecat machinery that calls `_check_started` then lets the frame through is framework behaviour outside this model.
- `ValidationFreeDebugProcessor.constructor`: the name, "Debug" by default, is recorded, but it only appears in printed text, which is not modelled.
