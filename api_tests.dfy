/** The API connectivity suite's environment check: each credential is shown
    masked, each missing one is reported with its description, and the network
    tests run only when all five credentials are present. */
module ApiTests {
  import opened Environment

  /** The five credentials the suite needs, with the description printed when
      one is missing, in the order they are checked. */
  const RequiredVars: seq<(string, string)> := [
    ("CARTESIA_API_KEY", "Cartesia TTS API key"),
    ("DEEPGRAM_API_KEY", "Deepgram STT API key"),
    ("OPENAI_API_KEY", "OpenAI API key (for LLM)"),
    ("DAILY_TOKEN", "Daily.co token"),
    ("DAILY_ROOM_URL", "Daily.co room URL")
  ]

  // ------------------------------------------------------------- masking

  /** The display form of a secret: its first eight characters and an
      ellipsis when it is longer than eight, a fixed placeholder otherwise. */
  function Mask(value: string): (shown: string)
    ensures |shown| <= 11
    ensures shown == "***" <==> |value| <= 8
  {
    if |value| > 8 then value[..8] + "..." else "***"
  }

  /** A long secret shows its eight-character prefix and then the ellipsis. */
  lemma MaskLong(value: string)
    requires |value| > 8
    ensures |Mask(value)| == 11
    ensures Mask(value)[..8] == value[..8] && Mask(value)[8..] == "..."
  {
  }

  /** What the display reveals is at most the first eight characters: two
      secrets that agree on those, and on being longer than eight or not,
      are displayed alike. */
  lemma MaskRevealsOnlyPrefix(a: string, b: string)
    requires (|a| > 8) == (|b| > 8)
    requires |a| > 8 ==> a[..8] == b[..8]
    ensures Mask(a) == Mask(b)
  {
  }

  /** Every secret of at most eight characters looks the same. */
  lemma ShortSecretsIndistinguishable(a: string, b: string)
    requires |a| <= 8 && |b| <= 8
    ensures Mask(a) == Mask(b) == "***"
  {
  }

  /** Every character of the display is either a character of the secret at
      the same position among its first eight, or part of the fixed text. */
  lemma MaskCharacters(value: string, i: nat)
    requires i < |Mask(value)|
    ensures (i < 8 && i < |value| && Mask(value)[i] == value[i]) || Mask(value)[i] == '.' || Mask(value)[i] == '*'
  {
    if |value| > 8 {
      MaskLong(value);
      if i < 8 {
        assert Mask(value)[i] == Mask(value)[..8][i];
      } else {
        assert Mask(value)[i] == Mask(value)[8..][i - 8];
      }
    }
  }

  // --------------------------------------------------- environment check

  /** One printed line of the environment check. */
  datatype EnvEntry = Present(name: string, masked: string) | Missing(name: string, description: string)

  /** The line printed for one required variable. */
  function Entry(env: map<string, string>, name: string, description: string): (e: EnvEntry)
    ensures e.name == name
    ensures e.Present? <==> IsSet(env, name)
  {
    if IsSet(env, name) then Present(name, Mask(env[name])) else Missing(name, description)
  }

  /** The lines printed for a list of variables, one per variable, in order. */
  function Report(env: map<string, string>, vars: seq<(string, string)>): (report: seq<EnvEntry>)
    ensures |report| == |vars|
  {
    seq(|vars|, i requires 0 <= i < |vars| => Entry(env, vars[i].0, vars[i].1))
  }

  /** Every variable in the list is set. */
  predicate AllSet(env: map<string, string>, vars: seq<(string, string)>) {
    forall i :: 0 <= i < |vars| ==> IsSet(env, vars[i].0)
  }

  /** Extending the checked prefix by one variable adds that variable's line and its check. */
  lemma PrefixStep(env: map<string, string>, vars: seq<(string, string)>, i: nat)
    requires i < |vars|
    ensures Report(env, vars[..i + 1]) == Report(env, vars[..i]) + [Entry(env, vars[i].0, vars[i].1)]
    ensures AllSet(env, vars[..i + 1]) <==> AllSet(env, vars[..i]) && IsSet(env, vars[i].0)
  {
    assert vars[..i + 1][i] == vars[i];
    assert forall j :: 0 <= j < i ==> vars[..i + 1][j] == vars[..i][j];
  }

  /** `check_environment`: examines every required variable, printing one
      line each, and reports whether all were set. A missing variable clears
      the result but does not stop the loop. */
  method CheckEnvironment(env: map<string, string>) returns (allGood: bool, report: seq<EnvEntry>)
    ensures allGood <==> AllSet(env, RequiredVars)
    ensures report == Report(env, RequiredVars)
  {
    allGood := true;
    report := [];
    for i := 0 to |RequiredVars|
      invariant report == Report(env, RequiredVars[..i])
      invariant allGood <==> AllSet(env, RequiredVars[..i])
    {
      var (name, description) := RequiredVars[i];
      if IsSet(env, name) {
        report := report + [Present(name, Mask(env[name]))];
      } else {
        report := report + [Missing(name, description)];
        allGood := false;
      }
      PrefixStep(env, RequiredVars, i);
    }
    assert RequiredVars[..|RequiredVars|] == RequiredVars;
  }

  /** The report has a line for every required variable, whatever is missing,
      and a line is a Missing line exactly when its variable is unset. */
  lemma ReportCoversEveryVariable(env: map<string, string>, i: nat)
    requires i < |RequiredVars|
    ensures Report(env, RequiredVars)[i].name == RequiredVars[i].0
    ensures Report(env, RequiredVars)[i].Missing? <==> !IsSet(env, RequiredVars[i].0)
  {
  }

  /** The check passes exactly when the report has no Missing line. */
  lemma {:induction false} AllSetIffNoMissing(env: map<string, string>, vars: seq<(string, string)>)
    ensures AllSet(env, vars) <==> forall e :: e in Report(env, vars) ==> e.Present?
  {
    var report := Report(env, vars);
    if !AllSet(env, vars) {
      var i :| 0 <= i < |vars| && !IsSet(env, vars[i].0);
      assert report[i] in report;
    }
  }

  /** An empty value counts as missing, just like an absent one. */
  lemma EmptyValueIsMissing(env: map<string, string>, i: nat)
    requires i < |RequiredVars| && RequiredVars[i].0 in env && env[RequiredVars[i].0] == ""
    ensures !AllSet(env, RequiredVars)
    ensures Report(env, RequiredVars)[i] == Missing(RequiredVars[i].0, RequiredVars[i].1)
  {
  }

  // ---------------------------------------------------------- the suite

  /** The connectivity tests `main` can run after the environment check. */
  datatype ApiTest = CartesiaApi | DeepgramApi | PipecatServices

  const AllTests: seq<ApiTest> := [CartesiaApi, DeepgramApi, PipecatServices]

  /** `main`: when the environment check fails it writes the `.env` template
      and stops; otherwise it runs the Cartesia, Deepgram and Pipecat tests,
      in that order. The tests' network outcomes are not modelled. */
  method RunSuite(env: map<string, string>) returns (report: seq<EnvEntry>, templateWritten: bool, testsRun: seq<ApiTest>)
    ensures report == Report(env, RequiredVars)
    ensures templateWritten <==> !AllSet(env, RequiredVars)
    ensures testsRun != [] <==> AllSet(env, RequiredVars)
    ensures testsRun != [] ==> testsRun == AllTests
  {
    var envOk;
    envOk, report := CheckEnvironment(env);
    if !envOk {
      templateWritten := true;
      testsRun := [];
      return;
    }
    templateWritten := false;
    testsRun := AllTests;
  }
}
