/** The verdict engine of backend/evaluation.py: the language registry, command
    construction from templates, the per-test-case classifier and the loop that
    runs the `train` cases and then the `test` cases until the first one that
    does not pass. Process execution is a parameter: a `Sandbox` supplies the
    temporary directory (or the exception raised creating it) and a `runner`
    that maps the written workspace and one invocation to its result. */
module Evaluation {
  import opened Wrappers
  import opened Text

  /** A puzzle grid as the JSON decoder yields it: a list of rows of integers. */
  type Grid = seq<seq<int>>

  /** One entry of `LANGUAGE_CONFIG`; keys the entry lacks are `None`. */
  datatype LanguageConfig = LanguageConfig(
    extension: string,
    command: Option<seq<string>>,
    compileCommand: Option<seq<string>>,
    runCommand: Option<seq<string>>,
    timeout: nat)

  const SupportedLanguages: set<string> := {"python", "javascript", "cpp", "java", "go", "rust"}

  const PythonConfig := LanguageConfig(".py", Some(["python3"]), None, None, 10)
  const JavaScriptConfig := LanguageConfig(".js", Some(["node"]), None, None, 10)
  const CppConfig :=
    LanguageConfig(".cpp", None, Some(["g++", "-o", "{output}", "{source}", "-std=c++17"]), Some(["{output}"]), 10)
  const JavaConfig :=
    LanguageConfig(".java", None, Some(["javac", "{source}"]), Some(["java", "-cp", "{dir}", "{classname}"]), 15)
  const GoConfig := LanguageConfig(".go", Some(["go", "run"]), None, None, 10)
  const RustConfig :=
    LanguageConfig(".rs", None, Some(["rustc", "{source}", "-o", "{output}"]), Some(["{output}"]), 15)

  /** `LANGUAGE_CONFIG[language]`, or `None` when the language is not a key. */
  function LanguageConfigFor(language: string): (r: Option<LanguageConfig>)
    ensures r.Some? <==> language in SupportedLanguages
    ensures r.Some? ==> (r.value.compileCommand.Some? <==> r.value.command.None?)
    ensures r.Some? && r.value.compileCommand.Some? ==> r.value.runCommand.Some?
    ensures r.Some? ==> r.value.timeout == (if language in {"java", "rust"} then 15 else 10)
  {
    match language
    case "python" => Some(PythonConfig)
    case "javascript" => Some(JavaScriptConfig)
    case "cpp" => Some(CppConfig)
    case "java" => Some(JavaConfig)
    case "go" => Some(GoConfig)
    case "rust" => Some(RustConfig)
    case _ => None
  }

  // ---------------------------------------------------------------------------
  // POSIX paths (os.path.join and os.path.dirname)

  function PathJoin(a: string, b: string): string {
    if StartsWith(b, "/") then b
    else if a == [] || EndsWith(a, "/") then a + b
    else a + "/" + b
  }

  /** The index of the last `/`, or -1 (`s.rfind('/')`). */
  function LastSlash(s: string): (r: int)
    ensures -1 <= r < |s|
    ensures r >= 0 ==> s[r] == '/'
    ensures forall k :: r < k < |s| ==> s[k] != '/'
  {
    if |s| == 0 then -1
    else if s[|s| - 1] == '/' then |s| - 1
    else LastSlash(s[..|s| - 1])
  }

  function RStripSlash(s: string): string {
    if |s| > 0 && s[|s| - 1] == '/' then RStripSlash(s[..|s| - 1]) else s
  }

  predicate AllSlash(s: string) {
    forall i :: 0 <= i < |s| ==> s[i] == '/'
  }

  function Dirname(p: string): string {
    var head := p[..LastSlash(p) + 1];
    if head != [] && !AllSlash(head) then RStripSlash(head) else head
  }

  lemma {:induction false} LastSlashOfJoin(dir: string, name: string)
    requires '/' !in name
    ensures LastSlash(dir + "/" + name) == |dir|
    decreases |name|
  {
    var p := dir + "/" + name;
    if name != [] {
      var n := |name| - 1;
      assert name[n] in name;
      assert p[|p| - 1] == name[n];
      assert p[..|p| - 1] == dir + "/" + name[..n];
      assert '/' !in name[..n] by {
        forall c | c in name[..n] ensures c in name { }
      }
      LastSlashOfJoin(dir, name[..n]);
    }
  }

  lemma RStripOneSlash(dir: string)
    requires dir != [] && dir[|dir| - 1] != '/'
    ensures RStripSlash(dir + "/") == dir
  {
    assert (dir + "/")[..|dir|] == dir;
  }

  /** The directory of a file joined onto a directory is that directory. */
  lemma DirnameOfJoin(dir: string, name: string)
    requires dir != [] && dir[|dir| - 1] != '/'
    requires name != [] && '/' !in name
    ensures Dirname(PathJoin(dir, name)) == dir
  {
    assert !StartsWith(name, "/") by { assert name[..1][0] == name[0]; }
    var p := dir + "/" + name;
    assert PathJoin(dir, name) == p;
    LastSlashOfJoin(dir, name);
    var head := p[..|dir| + 1];
    assert head == dir + "/";
    assert !AllSlash(head) by { assert head[|dir| - 1] != '/'; }
    RStripOneSlash(dir);
  }

  // ---------------------------------------------------------------------------
  // Command construction

  /** One compile-template part: the first placeholder kind present, in the
      order `{source}`, `{output}`, `{dir}`, has all its occurrences replaced. */
  function SubstituteCompilePart(part: string, source: string, output: string, dir: string): string {
    if Contains(part, "{source}") then ReplaceAll(part, "{source}", source)
    else if Contains(part, "{output}") then ReplaceAll(part, "{output}", output)
    else if Contains(part, "{dir}") then ReplaceAll(part, "{dir}", dir)
    else part
  }

  /** One run-template part: `{output}`, else `{dir}`, else a part holding
      `{classname}` becomes "solution" as a whole. */
  function SubstituteRunPart(part: string, executable: string, dir: string): string {
    if Contains(part, "{output}") then ReplaceAll(part, "{output}", executable)
    else if Contains(part, "{dir}") then ReplaceAll(part, "{dir}", dir)
    else if Contains(part, "{classname}") then "solution"
    else part
  }

  /** The loop building `compile_cmd`. */
  method BuildCompileCommand(template: seq<string>, source: string, output: string, dir: string)
    returns (cmd: seq<string>)
    ensures |cmd| == |template|
    ensures forall k :: 0 <= k < |cmd| ==> cmd[k] == SubstituteCompilePart(template[k], source, output, dir)
  {
    cmd := [];
    var i := 0;
    while i < |template|
      invariant 0 <= i <= |template|
      invariant |cmd| == i
      invariant forall k :: 0 <= k < i ==> cmd[k] == SubstituteCompilePart(template[k], source, output, dir)
    {
      var part := template[i];
      if Contains(part, "{source}") {
        cmd := cmd + [ReplaceAll(part, "{source}", source)];
      } else if Contains(part, "{output}") {
        cmd := cmd + [ReplaceAll(part, "{output}", output)];
      } else if Contains(part, "{dir}") {
        cmd := cmd + [ReplaceAll(part, "{dir}", dir)];
      } else {
        cmd := cmd + [part];
      }
      i := i + 1;
    }
  }

  /** The command `run_test_case` runs, or the message of the `KeyError` it
      raises when an interpreted configuration has no "command". */
  function RunCommandFor(config: LanguageConfig, sourceFile: string, executable: Option<string>)
    : Result<seq<string>, string>
  {
    if executable.Some? then
      if config.runCommand.Some? then
        var parts := config.runCommand.value;
        Success(seq(|parts|, k requires 0 <= k < |parts| =>
          SubstituteRunPart(parts[k], executable.value, Dirname(sourceFile))))
      else Success([executable.value])
    else if config.command.Some? then Success(config.command.value + [sourceFile])
    else Failure("'command'")
  }

  /** The loop building `cmd` in `run_test_case`. */
  method BuildRunCommand(config: LanguageConfig, sourceFile: string, executable: Option<string>)
    returns (cmd: Result<seq<string>, string>)
    ensures cmd == RunCommandFor(config, sourceFile, executable)
  {
    if executable.Some? {
      if config.runCommand.Some? {
        var parts := config.runCommand.value;
        var dir := Dirname(sourceFile);
        var out: seq<string> := [];
        var i := 0;
        while i < |parts|
          invariant 0 <= i <= |parts|
          invariant |out| == i
          invariant forall k :: 0 <= k < i ==> out[k] == SubstituteRunPart(parts[k], executable.value, dir)
        {
          var part := parts[i];
          if Contains(part, "{output}") {
            out := out + [ReplaceAll(part, "{output}", executable.value)];
          } else if Contains(part, "{dir}") {
            out := out + [ReplaceAll(part, "{dir}", dir)];
          } else if Contains(part, "{classname}") {
            out := out + ["solution"];
          } else {
            out := out + [part];
          }
          i := i + 1;
        }
        assert out == seq(|parts|, k requires 0 <= k < |parts| => SubstituteRunPart(parts[k], executable.value, dir));
        cmd := Success(out);
      } else {
        cmd := Success([executable.value]);
      }
    } else if config.command.Some? {
      cmd := Success(config.command.value + [sourceFile]);
    } else {
      cmd := Failure("'command'");
    }
  }

  // ---------------------------------------------------------------------------
  // Running one test case

  datatype Verdict = Passed | Failed | Error

  /** What `run_command` is called with: the argument list, the input grid (sent
      as JSON on stdin) and the timeout in seconds. */
  datatype RunCall = RunCall(command: seq<string>, input: Option<Grid>, timeout: nat)

  /** What `run_command` returns: `parsedStdout` is the stripped stdout decoded
      as JSON, `None` when it does not decode. */
  datatype RunResult = RunResult(
    returncode: int,
    stdout: string,
    parsedStdout: Option<Grid>,
    stderr: string,
    memoryUsage: nat)

  /** The result `run_command` returns when the process outlives its timeout. */
  const TimeoutResult := RunResult(-1, "", None, "Execution timeout", 0)

  /** A test case as stored in the problem; a missing key is `None`. */
  datatype TestCase = TestCase(input: Option<Grid>, output: Option<Grid>)

  /** One entry of `test_results`. */
  datatype TestResult = TestResult(
    testName: string,
    status: Verdict,
    error: Option<string>,
    expected: Option<Grid>,
    actual: Option<Grid>,
    memoryUsage: Option<nat>)

  /** The files written into the temporary directory, by path. */
  type Workspace = map<string, string>

  datatype Sandbox = Sandbox(
    tempDir: Result<string, string>,
    runner: (Workspace, RunCall) -> RunResult)

  /** Classification of a finished run against the expected grid. */
  function Classify(testName: string, expected: Grid, r: RunResult): (t: TestResult)
    ensures t.testName == testName && t.status != Error
    ensures t.status == Passed <==> r.returncode == 0 && r.parsedStdout == Some(expected)
    ensures t.status == Passed ==> t.memoryUsage == Some(r.memoryUsage)
    ensures t.status == Failed ==> t.memoryUsage == None
    ensures r.returncode != 0 ==> t.error == Some(r.stderr)
    ensures r.returncode == 0 && r.parsedStdout.None? ==> t.error == Some("Invalid JSON output: " + r.stdout)
    ensures r.returncode == 0 && r.parsedStdout.Some? && t.status == Failed ==>
      t.expected == Some(expected) && t.actual == r.parsedStdout
  {
    if r.returncode != 0 then TestResult(testName, Failed, Some(r.stderr), None, None, None)
    else if r.parsedStdout.None? then
      TestResult(testName, Failed, Some("Invalid JSON output: " + r.stdout), None, None, None)
    else if r.parsedStdout.value == expected then
      TestResult(testName, Passed, None, None, None, Some(r.memoryUsage))
    else TestResult(testName, Failed, None, Some(expected), r.parsedStdout, None)
  }

  /** A timed-out run fails its test case with the timeout message. */
  lemma TimeoutFailsCase(testName: string, expected: Grid)
    ensures Classify(testName, expected, TimeoutResult).status == Failed
    ensures Classify(testName, expected, TimeoutResult).error == Some("Execution timeout")
  {
  }

  /** The run `run_test_case` performs, or the message of the `KeyError` it
      raises first (a missing "input", a missing "output", a missing "command"). */
  function CaseCall(sourceFile: string, executable: Option<string>, config: LanguageConfig, tc: TestCase)
    : (r: Result<RunCall, string>)
    ensures r.Success? ==> tc.input.Some? && tc.output.Some?
    ensures r.Success? ==> r.value.input == tc.input && r.value.timeout == config.timeout
  {
    if tc.input.None? then Failure("'input'")
    else if tc.output.None? then Failure("'output'")
    else match RunCommandFor(config, sourceFile, executable)
      case Failure(e) => Failure(e)
      case Success(cmd) => Success(RunCall(cmd, tc.input, config.timeout))
  }

  /** `run_test_case`: a raised exception gives status "error"; otherwise the run is classified. */
  function CaseOutcome(testName: string, sourceFile: string, executable: Option<string>,
                       config: LanguageConfig, tc: TestCase, ws: Workspace,
                       runner: (Workspace, RunCall) -> RunResult): TestResult
  {
    match CaseCall(sourceFile, executable, config, tc)
    case Failure(e) => TestResult(testName, Error, Some(e), None, None, None)
    case Success(call) => Classify(testName, tc.output.value, runner(ws, call))
  }

  method RunTestCase(sourceFile: string, executable: Option<string>, config: LanguageConfig,
                     tc: TestCase, testName: string, ws: Workspace,
                     runner: (Workspace, RunCall) -> RunResult)
    returns (result: TestResult, call: Option<RunCall>)
    ensures result == CaseOutcome(testName, sourceFile, executable, config, tc, ws, runner)
    ensures call == CaseCall(sourceFile, executable, config, tc).ToOption()
  {
    if tc.input.None? {
      return TestResult(testName, Error, Some("'input'"), None, None, None), None;
    }
    if tc.output.None? {
      return TestResult(testName, Error, Some("'output'"), None, None, None), None;
    }
    var expected := tc.output.value;
    var cmd := BuildRunCommand(config, sourceFile, executable);
    if cmd.Failure? {
      return TestResult(testName, Error, Some(cmd.error), None, None, None), None;
    }
    var c := RunCall(cmd.value, tc.input, config.timeout);
    call := Some(c);
    var r := runner(ws, c);
    if r.returncode != 0 {
      result := TestResult(testName, Failed, Some(r.stderr), None, None, None);
    } else if r.parsedStdout.None? {
      result := TestResult(testName, Failed, Some("Invalid JSON output: " + r.stdout), None, None, None);
    } else if r.parsedStdout.value == expected {
      result := TestResult(testName, Passed, None, None, None, Some(r.memoryUsage));
    } else {
      result := TestResult(testName, Failed, None, Some(expected), r.parsedStdout, None);
    }
  }

  // ---------------------------------------------------------------------------
  // The reduction over all test cases

  datatype NamedCase = NamedCase(name: string, testCase: TestCase)

  function Named(prefix: string, cases: seq<TestCase>): (r: seq<NamedCase>)
    ensures |r| == |cases|
  {
    seq(|cases|, k requires 0 <= k < |cases| => NamedCase(prefix + NatToString(k), cases[k]))
  }

  /** The cases `evaluate_code` visits: "train_0", "train_1", … then "test_0", …;
      every other key of the test-case dictionary is ignored. */
  function CasesInOrder(testCases: map<string, seq<TestCase>>): seq<NamedCase> {
    (if "train" in testCases then Named("train_", testCases["train"]) else []) +
    (if "test" in testCases then Named("test_", testCases["test"]) else [])
  }

  /** What the evaluator has ready once the source is written and compiled. */
  datatype Prepared = Prepared(
    config: LanguageConfig,
    sourceFile: string,
    executable: Option<string>,
    workspace: Workspace)

  function Outcomes(cases: seq<NamedCase>, p: Prepared, runner: (Workspace, RunCall) -> RunResult)
    : (r: seq<TestResult>)
    ensures |r| == |cases|
  {
    seq(|cases|, k requires 0 <= k < |cases| =>
      CaseOutcome(cases[k].name, p.sourceFile, p.executable, p.config, cases[k].testCase, p.workspace, runner))
  }

  /** The runs made for `cases`, in order. */
  function CallsOf(cases: seq<NamedCase>, p: Prepared): seq<RunCall> {
    if |cases| == 0 then []
    else
      CallsOf(cases[..|cases| - 1], p) +
      CallList(CaseCall(p.sourceFile, p.executable, p.config, cases[|cases| - 1].testCase).ToOption())
  }

  /** The index of the first result that did not pass, or the length when all passed. */
  function FirstNonPassed(results: seq<TestResult>): (k: nat)
    ensures k <= |results|
    ensures forall j :: 0 <= j < k ==> results[j].status == Passed
    ensures k < |results| ==> results[k].status != Passed
  {
    if |results| == 0 then 0
    else if results[0].status != Passed then 0
    else 1 + FirstNonPassed(results[1..])
  }

  function Max(a: nat, b: nat): nat {
    if a < b then b else a
  }

  /** `max_memory` after folding `results` (a result without memory counts 0). */
  function PeakMemory(results: seq<TestResult>): (m: nat)
    ensures forall j :: 0 <= j < |results| ==> results[j].memoryUsage.GetOr(0) <= m
  {
    if |results| == 0 then 0
    else Max(PeakMemory(results[..|results| - 1]), results[|results| - 1].memoryUsage.GetOr(0))
  }

  datatype EvaluationResult = EvaluationResult(
    status: Verdict,
    testResults: seq<TestResult>,
    memoryUsage: Option<nat>,
    errorMessage: Option<string>)

  /** An evaluation together with the runs it made, in order. */
  datatype EvalRun = EvalRun(result: EvaluationResult, calls: seq<RunCall>)

  /** The test loop once the source is ready. */
  function RunCases(cases: seq<NamedCase>, p: Prepared, runner: (Workspace, RunCall) -> RunResult): EvalRun {
    var results := Outcomes(cases, p, runner);
    var k := FirstNonPassed(results);
    if k < |results| then
      EvalRun(EvaluationResult(Failed, results[..k + 1], Some(PeakMemory(results[..k])), None),
              CallsOf(cases[..k + 1], p))
    else
      EvalRun(EvaluationResult(Passed, results, Some(PeakMemory(results)), None), CallsOf(cases, p))
  }

  /** Everything before the test loop: the language check, the temporary
      directory, the written source file and, for compiled languages, the build. */
  datatype Setup =
    | Ready(prepared: Prepared, setupCalls: seq<RunCall>)
    | Aborted(outcome: EvaluationResult, setupCalls: seq<RunCall>)

  function SetUp(code: string, language: string, env: Sandbox): Setup {
    match LanguageConfigFor(language)
    case None =>
      Aborted(EvaluationResult(Error, [], None, Some("Unsupported language: " + language)), [])
    case Some(config) =>
      match env.tempDir
      case Failure(e) => Aborted(EvaluationResult(Error, [], None, Some(e)), [])
      case Success(dir) =>
        var sourceFile := PathJoin(dir, "solution" + config.extension);
        var ws := map[sourceFile := code];
        if config.compileCommand.Some? then
          var executable := PathJoin(dir, "solution");
          var compile := RunCall(BuildCompileCommandSpec(config.compileCommand.value, sourceFile, executable, dir),
                                 None, 30);
          var compiled := env.runner(ws, compile);
          if compiled.returncode != 0 then
            Aborted(EvaluationResult(Error, [], None, Some("Compilation failed: " + compiled.stderr)), [compile])
          else Ready(Prepared(config, sourceFile, Some(executable), ws), [compile])
        else Ready(Prepared(config, sourceFile, None, ws), [])
  }

  function BuildCompileCommandSpec(template: seq<string>, source: string, output: string, dir: string)
    : seq<string>
  {
    seq(|template|, k requires 0 <= k < |template| => SubstituteCompilePart(template[k], source, output, dir))
  }

  /** `evaluate_code` with the runs it makes. */
  function Evaluate(code: string, language: string, testCases: map<string, seq<TestCase>>, env: Sandbox)
    : EvalRun
  {
    match SetUp(code, language, env)
    case Aborted(r, calls) => EvalRun(r, calls)
    case Ready(p, calls) =>
      var run := RunCases(CasesInOrder(testCases), p, env.runner);
      EvalRun(run.result, calls + run.calls)
  }

  lemma FirstNonPassedIs(results: seq<TestResult>, k: nat)
    requires k <= |results|
    requires forall j :: 0 <= j < k ==> results[j].status == Passed
    requires k < |results| ==> results[k].status != Passed
    ensures FirstNonPassed(results) == k
  {
  }

  /** The loop state after visiting the first `done` cases, all of which passed. */
  ghost predicate Visited(cases: seq<NamedCase>, p: Prepared, runner: (Workspace, RunCall) -> RunResult,
                          done: nat, testResults: seq<TestResult>, maxMemory: nat, calls: seq<RunCall>)
  {
    && done <= |cases|
    && testResults == Outcomes(cases, p, runner)[..done]
    && (forall j :: 0 <= j < done ==> testResults[j].status == Passed)
    && maxMemory == PeakMemory(testResults)
    && calls == CallsOf(cases[..done], p)
  }

  function CallList(call: Option<RunCall>): seq<RunCall> {
    if call.Some? then [call.value] else []
  }

  /** The case at `done` as `run_test_case` sees it. */
  ghost predicate VisitsNext(cases: seq<NamedCase>, p: Prepared, runner: (Workspace, RunCall) -> RunResult,
                             done: nat, result: TestResult, call: Option<RunCall>)
  {
    && done < |cases|
    && result == CaseOutcome(cases[done].name, p.sourceFile, p.executable, p.config,
                             cases[done].testCase, p.workspace, runner)
    && call == CaseCall(p.sourceFile, p.executable, p.config, cases[done].testCase).ToOption()
  }

  lemma StepCase(cases: seq<NamedCase>, p: Prepared, runner: (Workspace, RunCall) -> RunResult, done: nat,
                 result: TestResult, call: Option<RunCall>)
    requires VisitsNext(cases, p, runner, done, result, call)
    ensures Outcomes(cases, p, runner)[..done] + [result] == Outcomes(cases, p, runner)[..done + 1]
    ensures CallsOf(cases[..done], p) + CallList(call) == CallsOf(cases[..done + 1], p)
  {
    assert cases[..done + 1][..done] == cases[..done];
  }

  lemma VisitPassed(cases: seq<NamedCase>, p: Prepared, runner: (Workspace, RunCall) -> RunResult,
                    done: nat, testResults: seq<TestResult>, maxMemory: nat, calls: seq<RunCall>,
                    result: TestResult, call: Option<RunCall>)
    requires Visited(cases, p, runner, done, testResults, maxMemory, calls)
    requires VisitsNext(cases, p, runner, done, result, call) && result.status == Passed
    ensures Visited(cases, p, runner, done + 1, testResults + [result],
                    Max(maxMemory, result.memoryUsage.GetOr(0)), calls + CallList(call))
  {
    StepCase(cases, p, runner, done, result, call);
    assert (testResults + [result])[..done] == testResults;
  }

  lemma VisitFailed(cases: seq<NamedCase>, p: Prepared, runner: (Workspace, RunCall) -> RunResult,
                    done: nat, testResults: seq<TestResult>, maxMemory: nat, calls: seq<RunCall>,
                    result: TestResult, call: Option<RunCall>)
    requires Visited(cases, p, runner, done, testResults, maxMemory, calls)
    requires VisitsNext(cases, p, runner, done, result, call) && result.status != Passed
    ensures RunCases(cases, p, runner) ==
      EvalRun(EvaluationResult(Failed, testResults + [result], Some(maxMemory), None), calls + CallList(call))
  {
    StepCase(cases, p, runner, done, result, call);
    FirstNonPassedIs(Outcomes(cases, p, runner), done);
  }

  lemma VisitAll(cases: seq<NamedCase>, p: Prepared, runner: (Workspace, RunCall) -> RunResult,
                 testResults: seq<TestResult>, maxMemory: nat, calls: seq<RunCall>)
    requires Visited(cases, p, runner, |cases|, testResults, maxMemory, calls)
    ensures RunCases(cases, p, runner) == EvalRun(EvaluationResult(Passed, testResults, Some(maxMemory), None), calls)
  {
    var all := Outcomes(cases, p, runner);
    FirstNonPassedIs(all, |cases|);
    assert all[..|cases|] == all;
    assert cases[..|cases|] == cases;
  }

  function TrainCount(testCases: map<string, seq<TestCase>>): nat {
    if "train" in testCases then |testCases["train"]| else 0
  }

  function TestCount(testCases: map<string, seq<TestCase>>): nat {
    if "test" in testCases then |testCases["test"]| else 0
  }

  /** `group` sits at position `start` of `cases`, its members named `prefix` + index. */
  ghost predicate GroupAt(cases: seq<NamedCase>, prefix: string, group: seq<TestCase>, start: nat) {
    && start + |group| <= |cases|
    && forall i :: 0 <= i < |group| ==> cases[start + i] == NamedCase(prefix + NatToString(i), group[i])
  }

  /** Where the train and the test cases sit in the visiting order. */
  lemma CasesInOrderShape(testCases: map<string, seq<TestCase>>)
    ensures |CasesInOrder(testCases)| == TrainCount(testCases) + TestCount(testCases)
    ensures "train" in testCases ==> GroupAt(CasesInOrder(testCases), "train_", testCases["train"], 0)
    ensures "test" in testCases ==>
      GroupAt(CasesInOrder(testCases), "test_", testCases["test"], TrainCount(testCases))
  {
  }

  lemma VisitedNone(cases: seq<NamedCase>, p: Prepared, runner: (Workspace, RunCall) -> RunResult)
    ensures Visited(cases, p, runner, 0, [], 0, [])
  {
  }

  /** One of the two identical loops of `evaluate_code`: the cases of one group,
      named `prefix` + index, visited from position `start` of the whole order
      until one does not pass. */
  method RunGroup(ghost cases: seq<NamedCase>, p: Prepared, runner: (Workspace, RunCall) -> RunResult,
                  prefix: string, group: seq<TestCase>, ghost start: nat,
                  testResults0: seq<TestResult>, maxMemory0: nat, calls0: seq<RunCall>)
    returns (failed: bool, testResults: seq<TestResult>, maxMemory: nat, calls: seq<RunCall>)
    requires GroupAt(cases, prefix, group, start)
    requires Visited(cases, p, runner, start, testResults0, maxMemory0, calls0)
    ensures failed ==>
      RunCases(cases, p, runner) == EvalRun(EvaluationResult(Failed, testResults, Some(maxMemory), None), calls)
    ensures !failed ==> Visited(cases, p, runner, start + |group|, testResults, maxMemory, calls)
  {
    testResults, maxMemory, calls := testResults0, maxMemory0, calls0;
    var i := 0;
    while i < |group|
      invariant 0 <= i <= |group|
      invariant Visited(cases, p, runner, start + i, testResults, maxMemory, calls)
    {
      var result, call := RunTestCase(p.sourceFile, p.executable, p.config, group[i], prefix + NatToString(i),
                                      p.workspace, runner);
      if result.status != Passed {
        VisitFailed(cases, p, runner, start + i, testResults, maxMemory, calls, result, call);
        return true, testResults + [result], maxMemory, calls + CallList(call);
      }
      VisitPassed(cases, p, runner, start + i, testResults, maxMemory, calls, result, call);
      calls := calls + CallList(call);
      maxMemory := Max(maxMemory, result.memoryUsage.GetOr(0));
      testResults := testResults + [result];
      i := i + 1;
    }
    failed := false;
  }

  /** The loop over the cases of `CasesInOrder(testCases)`, the "train" group first. */
  method RunTestLoop(testCases: map<string, seq<TestCase>>, p: Prepared, runner: (Workspace, RunCall) -> RunResult)
    returns (r: EvaluationResult, calls: seq<RunCall>)
    ensures EvalRun(r, calls) == RunCases(CasesInOrder(testCases), p, runner)
  {
    ghost var cases := CasesInOrder(testCases);
    CasesInOrderShape(testCases);
    VisitedNone(cases, p, runner);
    var testResults: seq<TestResult> := [];
    var maxMemory: nat := 0;
    var failed := false;
    calls := [];
    if "train" in testCases {
      failed, testResults, maxMemory, calls :=
        RunGroup(cases, p, runner, "train_", testCases["train"], 0, testResults, maxMemory, calls);
      if failed {
        return EvaluationResult(Failed, testResults, Some(maxMemory), None), calls;
      }
    }
    if "test" in testCases {
      failed, testResults, maxMemory, calls :=
        RunGroup(cases, p, runner, "test_", testCases["test"], TrainCount(testCases), testResults, maxMemory, calls);
      if failed {
        return EvaluationResult(Failed, testResults, Some(maxMemory), None), calls;
      }
    }
    VisitAll(cases, p, runner, testResults, maxMemory, calls);
    r := EvaluationResult(Passed, testResults, Some(maxMemory), None);
  }

  /** `evaluate_code`: set up, then the test loop. */
  method EvaluateCode(code: string, language: string, testCases: map<string, seq<TestCase>>, env: Sandbox)
    returns (r: EvaluationResult, calls: seq<RunCall>)
    ensures EvalRun(r, calls) == Evaluate(code, language, testCases, env)
  {
    var lookup := LanguageConfigFor(language);
    if lookup.None? {
      return EvaluationResult(Error, [], None, Some("Unsupported language: " + language)), [];
    }
    var config := lookup.value;
    if env.tempDir.Failure? {
      return EvaluationResult(Error, [], None, Some(env.tempDir.error)), [];
    }
    var tempDir := env.tempDir.value;
    var sourceFile := PathJoin(tempDir, "solution" + config.extension);
    var ws := map[sourceFile := code];
    var executable: Option<string> := None;
    var setupCalls: seq<RunCall> := [];
    if config.compileCommand.Some? {
      var exe := PathJoin(tempDir, "solution");
      executable := Some(exe);
      var compileCmd := BuildCompileCommand(config.compileCommand.value, sourceFile, exe, tempDir);
      assert compileCmd == BuildCompileCommandSpec(config.compileCommand.value, sourceFile, exe, tempDir);
      var compile := RunCall(compileCmd, None, 30);
      setupCalls := [compile];
      var compileResult := env.runner(ws, compile);
      if compileResult.returncode != 0 {
        return EvaluationResult(Error, [], None, Some("Compilation failed: " + compileResult.stderr)), setupCalls;
      }
    }
    var p := Prepared(config, sourceFile, executable, ws);
    assert SetUp(code, language, env) == Ready(p, setupCalls);
    var loopCalls;
    r, loopCalls := RunTestLoop(testCases, p, env.runner);
    calls := setupCalls + loopCalls;
  }

  // ---------------------------------------------------------------------------
  // Properties of the evaluator

  /** The four placeholders each start with `{` and hold no other `{`. */
  lemma PlaceholderShapes()
    ensures "{source}"[0] == '{' && '{' !in "{source}"[1..]
    ensures "{output}"[0] == '{' && '{' !in "{output}"[1..]
    ensures "{dir}"[0] == '{' && '{' !in "{dir}"[1..]
    ensures "{classname}"[0] == '{' && '{' !in "{classname}"[1..]
  {
    assert "{source}"[1..] == "source}";
    assert "{output}"[1..] == "output}";
    assert "{dir}"[1..] == "dir}";
    assert "{classname}"[1..] == "classname}";
  }

  /** Only the first placeholder kind present in a compile part is replaced:
      a part holding `{source}` keeps every `{output}` it holds. */
  lemma CompilePartKeepsLaterKind(part: string, source: string, output: string, dir: string, i: nat)
    requires Contains(part, "{source}")
    requires i + 8 <= |part| && part[i..i + 8] == "{output}"
    ensures Contains(SubstituteCompilePart(part, source, output, dir), "{output}")
  {
    PlaceholderShapes();
    assert "{source}"[1] != "{output}"[1];
    ReplaceKeepsOtherPlaceholder(part, "{source}", "{output}", source, i);
  }

  /** Likewise a run part holding `{output}` keeps every `{dir}` it holds. */
  lemma RunPartKeepsLaterKind(part: string, executable: string, dir: string, i: nat)
    requires Contains(part, "{output}")
    requires i + 5 <= |part| && part[i..i + 5] == "{dir}"
    ensures Contains(SubstituteRunPart(part, executable, dir), "{dir}")
  {
    PlaceholderShapes();
    assert !StartsWith("{output}", "{dir}") by { assert "{output}"[..5][1] != "{dir}"[1]; }
    ReplaceKeepsOtherPlaceholder(part, "{output}", "{dir}", executable, i);
  }

  /** In a text whose only `{` is its first character, a `{`-placeholder occurs only as a prefix. */
  lemma PlaceholderOnlyAtStart(s: string, p: string)
    requires |p| > 0 && p[0] == '{' && |s| > 0 && '{' !in s[1..]
    ensures Contains(s, p) <==> StartsWith(s, p)
  {
    NoBraceNoPlaceholder(s[1..], p);
  }

  lemma ReplaceWhole(p: string, r: string)
    requires |p| > 0
    ensures ReplaceAll(p, p, r) == r
  {
    assert p[..|p|] == p;
    assert p[|p|..] == [];
  }

  /** A compile part holding none of the compile placeholders is copied unchanged. */
  lemma KeepsPlainCompilePart(s: string, source: string, output: string, dir: string)
    requires !Contains(s, "{source}") && !Contains(s, "{output}") && !Contains(s, "{dir}")
    ensures SubstituteCompilePart(s, source, output, dir) == s
  {
  }

  /** A run part holding none of the run placeholders is copied unchanged. */
  lemma KeepsPlainRunPart(s: string, executable: string, dir: string)
    requires !Contains(s, "{output}") && !Contains(s, "{dir}") && !Contains(s, "{classname}")
    ensures SubstituteRunPart(s, executable, dir) == s
  {
  }

  /** A part without `{`, such as a compiler flag, is copied unchanged. */
  lemma KeepsBraceFreePart(s: string, source: string, output: string, dir: string)
    requires '{' !in s
    ensures SubstituteCompilePart(s, source, output, dir) == s
    ensures SubstituteRunPart(s, output, dir) == s
  {
    PlaceholderShapes();
    NoBraceNoPlaceholder(s, "{source}");
    NoBraceNoPlaceholder(s, "{output}");
    NoBraceNoPlaceholder(s, "{dir}");
    NoBraceNoPlaceholder(s, "{classname}");
    KeepsPlainCompilePart(s, source, output, dir);
    KeepsPlainRunPart(s, output, dir);
  }

  lemma SourcePart(source: string, output: string, dir: string)
    ensures SubstituteCompilePart("{source}", source, output, dir) == source
  {
    assert "{source}"[..8] == "{source}";
    ReplaceWhole("{source}", source);
  }

  lemma OutputPart(source: string, output: string, dir: string)
    ensures SubstituteCompilePart("{output}", source, output, dir) == output
    ensures SubstituteRunPart("{output}", output, dir) == output
  {
    PlaceholderShapes();
    PlaceholderOnlyAtStart("{output}", "{source}");
    assert !StartsWith("{output}", "{source}") by { assert "{output}"[1] != "{source}"[1]; }
    assert "{output}"[..8] == "{output}";
    ReplaceWhole("{output}", output);
  }

  lemma DirPart(output: string, dir: string)
    ensures SubstituteRunPart("{dir}", output, dir) == dir
  {
    assert !Contains("{dir}", "{output}");
    assert "{dir}"[..5] == "{dir}";
    ReplaceWhole("{dir}", dir);
  }

  lemma ClassnamePart(output: string, dir: string)
    ensures SubstituteRunPart("{classname}", output, dir) == "solution"
  {
    PlaceholderShapes();
    PlaceholderOnlyAtStart("{classname}", "{output}");
    assert !StartsWith("{classname}", "{output}") by { assert "{classname}"[1] != "{output}"[1]; }
    PlaceholderOnlyAtStart("{classname}", "{dir}");
    assert !StartsWith("{classname}", "{dir}") by { assert "{classname}"[1] != "{dir}"[1]; }
    assert "{classname}"[..11] == "{classname}";
  }

  /** The commands built for C++ with source `source` and executable `exe`. */
  lemma CppCommands(source: string, exe: string, dir: string)
    ensures BuildCompileCommandSpec(CppConfig.compileCommand.value, source, exe, dir)
            == ["g++", "-o", exe, source, "-std=c++17"]
    ensures RunCommandFor(CppConfig, source, Some(exe)) == Success([exe])
  {
    var tpl := CppConfig.compileCommand.value;
    assert tpl == ["g++", "-o", "{output}", "{source}", "-std=c++17"];
    var cmd := BuildCompileCommandSpec(tpl, source, exe, dir);
    assert cmd[0] == "g++" by { KeepsBraceFreePart("g++", source, exe, dir); }
    assert cmd[1] == "-o" by { KeepsBraceFreePart("-o", source, exe, dir); }
    assert cmd[2] == exe by { OutputPart(source, exe, dir); }
    assert cmd[3] == source by { SourcePart(source, exe, dir); }
    assert cmd[4] == "-std=c++17" by { KeepsBraceFreePart("-std=c++17", source, exe, dir); }
    assert cmd == [cmd[0], cmd[1], cmd[2], cmd[3], cmd[4]];
    var run := RunCommandFor(CppConfig, source, Some(exe)).value;
    assert run[0] == exe by { OutputPart(source, exe, Dirname(source)); }
    assert run == [run[0]];
  }

  /** The commands built for Rust with source `source` and executable `exe`. */
  lemma RustCommands(source: string, exe: string, dir: string)
    ensures BuildCompileCommandSpec(RustConfig.compileCommand.value, source, exe, dir) == ["rustc", source, "-o", exe]
    ensures RunCommandFor(RustConfig, source, Some(exe)) == Success([exe])
  {
    KeepsBraceFreePart("rustc", source, exe, dir);
    KeepsBraceFreePart("-o", source, exe, dir);
    SourcePart(source, exe, dir);
    OutputPart(source, exe, dir);
    OutputPart(source, exe, Dirname(source));
    var cmd := BuildCompileCommandSpec(RustConfig.compileCommand.value, source, exe, dir);
    assert |cmd| == 4;
    assert cmd == [cmd[0], cmd[1], cmd[2], cmd[3]];
    var run := RunCommandFor(RustConfig, source, Some(exe)).value;
    assert run == [run[0]];
  }

  /** The commands built for Java with source `source` and executable `exe`: the
      class path is the directory of the source file (for the source file the
      evaluator writes, `DirnameOfJoin` shows that this is the temporary directory). */
  lemma JavaCommands(source: string, exe: string, dir: string)
    ensures BuildCompileCommandSpec(JavaConfig.compileCommand.value, source, exe, dir) == ["javac", source]
    ensures RunCommandFor(JavaConfig, source, Some(exe)) == Success(["java", "-cp", Dirname(source), "solution"])
  {
    var cmd := BuildCompileCommandSpec(JavaConfig.compileCommand.value, source, exe, dir);
    assert cmd[0] == "javac" by { KeepsBraceFreePart("javac", source, exe, dir); }
    assert cmd[1] == source by { SourcePart(source, exe, dir); }
    assert cmd == [cmd[0], cmd[1]];
    var run := RunCommandFor(JavaConfig, source, Some(exe)).value;
    var d := Dirname(source);
    assert run[0] == "java" by { KeepsBraceFreePart("java", source, exe, d); }
    assert run[1] == "-cp" by { KeepsBraceFreePart("-cp", source, exe, d); }
    assert run[2] == d by { DirPart(exe, d); }
    assert run[3] == "solution" by { ClassnamePart(exe, d); }
    assert run == [run[0], run[1], run[2], run[3]];
  }

  /** Interpreted languages run their command followed by the source file. */
  lemma InterpretedCommands(source: string)
    ensures RunCommandFor(PythonConfig, source, None) == Success(["python3", source])
    ensures RunCommandFor(JavaScriptConfig, source, None) == Success(["node", source])
    ensures RunCommandFor(GoConfig, source, None) == Success(["go", "run", source])
  {
    assert ["python3"] + [source] == ["python3", source];
    assert ["node"] + [source] == ["node", source];
    assert ["go", "run"] + [source] == ["go", "run", source];
  }

  /** Every run made for the test cases uses the language's timeout and sends
      the case's input; at most one run is made per case. */
  lemma {:induction false} CallsOfShape(cases: seq<NamedCase>, p: Prepared)
    ensures |CallsOf(cases, p)| <= |cases|
    ensures forall c :: c in CallsOf(cases, p) ==> c.timeout == p.config.timeout && c.input.Some?
  {
    if |cases| > 0 {
      CallsOfShape(cases[..|cases| - 1], p);
    }
  }

  /** When every case yields a run, the runs are one per case, in order, each
      sending its case's input. */
  lemma {:induction false} CallsOfRunnable(cases: seq<NamedCase>, p: Prepared)
    requires forall j :: 0 <= j < |cases| ==>
      CaseCall(p.sourceFile, p.executable, p.config, cases[j].testCase).Success?
    ensures |CallsOf(cases, p)| == |cases|
    ensures forall j :: 0 <= j < |cases| ==> CallsOf(cases, p)[j].input == cases[j].testCase.input
  {
    if |cases| > 0 {
      var init := cases[..|cases| - 1];
      CallsOfRunnable(init, p);
    }
  }

  /** When every case but the last yields a run, the j-th run made sends the
      j-th case's input. */
  lemma CallsOfAligned(cases: seq<NamedCase>, p: Prepared)
    requires forall j :: 0 <= j < |cases| - 1 ==>
      CaseCall(p.sourceFile, p.executable, p.config, cases[j].testCase).Success?
    ensures |CallsOf(cases, p)| <= |cases|
    ensures forall j :: 0 <= j < |CallsOf(cases, p)| ==> CallsOf(cases, p)[j].input == cases[j].testCase.input
  {
    if |cases| > 0 {
      var init := cases[..|cases| - 1];
      CallsOfRunnable(init, p);
      CallsOfShape(cases, p);
    }
  }

  /** A passed case was run. */
  lemma PassedWasRun(cases: seq<NamedCase>, p: Prepared, runner: (Workspace, RunCall) -> RunResult, j: nat)
    requires j < |cases| && Outcomes(cases, p, runner)[j].status == Passed
    ensures CaseCall(p.sourceFile, p.executable, p.config, cases[j].testCase).Success?
  {
  }

  /** The overall status is "error" exactly when the evaluator stopped before the
      test loop (unsupported language, no temporary directory, failed build), and
      then there are no test results and no memory figure. */
  lemma EvaluateErrorIffAborted(code: string, language: string, testCases: map<string, seq<TestCase>>, env: Sandbox)
    ensures var e := Evaluate(code, language, testCases, env).result;
      && (e.status == Error <==> SetUp(code, language, env).Aborted?)
      && (e.status == Error ==> e.testResults == [] && e.memoryUsage == None && e.errorMessage.Some?)
      && (e.status != Error ==> e.errorMessage == None && e.memoryUsage.Some?)
  {
  }

  /** An unsupported language is reported without running anything. */
  lemma UnsupportedLanguageRunsNothing(code: string, language: string, testCases: map<string, seq<TestCase>>,
                                       env: Sandbox)
    requires language !in SupportedLanguages
    ensures Evaluate(code, language, testCases, env) ==
      EvalRun(EvaluationResult(Error, [], None, Some("Unsupported language: " + language)), [])
  {
  }

  /** A failed build is reported with the compiler's stderr, and no test case runs. */
  lemma CompileFailureRunsNoTests(code: string, language: string, testCases: map<string, seq<TestCase>>,
                                  env: Sandbox)
    requires language in {"cpp", "java", "rust"} && env.tempDir.Success?
    requires env.runner(map[PathJoin(env.tempDir.value, "solution" + LanguageConfigFor(language).value.extension) := code],
                 RunCall(BuildCompileCommandSpec(LanguageConfigFor(language).value.compileCommand.value,
                                                 PathJoin(env.tempDir.value, "solution" + LanguageConfigFor(language).value.extension),
                                                 PathJoin(env.tempDir.value, "solution"), env.tempDir.value), None, 30)).returncode != 0
    ensures var run := Evaluate(code, language, testCases, env);
      && run.result.status == Error
      && run.result.testResults == []
      && |run.calls| == 1 && run.calls[0].timeout == 30 && run.calls[0].input == None
      && StartsWith(run.result.errorMessage.value, "Compilation failed: ")
  {
  }

  /** The verdict of a run that reached the test loop: "passed" exactly when every
      case passed, with one result per case; otherwise "failed", with the results
      up to and including the first case that did not pass. */
  lemma EvaluateVerdict(code: string, language: string, testCases: map<string, seq<TestCase>>, env: Sandbox)
    requires SetUp(code, language, env).Ready?
    ensures var all := Outcomes(CasesInOrder(testCases), SetUp(code, language, env).prepared, env.runner);
      var e := Evaluate(code, language, testCases, env).result;
      && (e.status == Passed <==> forall i :: 0 <= i < |all| ==> all[i].status == Passed)
      && (e.status == Passed ==> e.testResults == all)
      && (e.status != Passed ==>
            && e.status == Failed
            && 0 < |e.testResults| <= |all|
            && e.testResults == all[..|e.testResults|]
            && e.testResults[|e.testResults| - 1].status != Passed
            && forall j :: 0 <= j < |e.testResults| - 1 ==> e.testResults[j].status == Passed)
  {
  }

  /** A case outcome carries a memory figure only when it passed. */
  lemma OutcomeMemoryOnlyWhenPassed(testName: string, sourceFile: string, executable: Option<string>,
                                    config: LanguageConfig, tc: TestCase, ws: Workspace,
                                    runner: (Workspace, RunCall) -> RunResult)
    ensures var t := CaseOutcome(testName, sourceFile, executable, config, tc, ws, runner);
      t.memoryUsage.Some? <==> t.status == Passed
  {
  }

  /** The reported memory is at least the memory of every reported case. */
  lemma EvaluateMemoryBound(code: string, language: string, testCases: map<string, seq<TestCase>>, env: Sandbox)
    ensures var e := Evaluate(code, language, testCases, env).result;
      forall j :: 0 <= j < |e.testResults| ==> e.testResults[j].memoryUsage.GetOr(0) <= e.memoryUsage.GetOr(0)
  {
    var e := Evaluate(code, language, testCases, env).result;
    match SetUp(code, language, env)
    case Aborted(_, _) =>
    case Ready(p, _) =>
      var cases := CasesInOrder(testCases);
      var all := Outcomes(cases, p, env.runner);
      var k := FirstNonPassed(all);
      if k < |all| {
        assert e.testResults == all[..k + 1];
        var last := cases[k];
        OutcomeMemoryOnlyWhenPassed(last.name, p.sourceFile, p.executable, p.config, last.testCase,
                                    p.workspace, env.runner);
        forall j | 0 <= j < |e.testResults|
          ensures e.testResults[j].memoryUsage.GetOr(0) <= e.memoryUsage.GetOr(0)
        {
          if j < k {
            assert e.testResults[j] == all[..k][j];
          }
        }
      }
  }

  /** The runs made: at most the build, then one per reported case and no more,
      the j-th of them with the language's timeout and the j-th case's input, so
      no case after the first one that did not pass is run. */
  lemma EvaluateCalls(code: string, language: string, testCases: map<string, seq<TestCase>>, env: Sandbox)
    requires SetUp(code, language, env).Ready?
    ensures var p := SetUp(code, language, env).prepared;
      var setupCalls := SetUp(code, language, env).setupCalls;
      var run := Evaluate(code, language, testCases, env);
      var calls := run.calls;
      && |setupCalls| <= 1
      && calls[..|setupCalls|] == setupCalls
      && |calls| - |setupCalls| <= |run.result.testResults| <= |CasesInOrder(testCases)|
      && (forall i :: |setupCalls| <= i < |calls| ==> calls[i].timeout == p.config.timeout && calls[i].input.Some?)
      && (forall j :: 0 <= j && |setupCalls| + j < |calls| ==>
            calls[|setupCalls| + j].input == CasesInOrder(testCases)[j].testCase.input)
  {
    var setUp := SetUp(code, language, env);
    var p := setUp.prepared;
    var cases := CasesInOrder(testCases);
    var all := Outcomes(cases, p, env.runner);
    var k := FirstNonPassed(all);
    var tail := if k < |all| then cases[..k + 1] else cases;
    CallsOfShape(tail, p);
    forall j | 0 <= j < |tail| - 1
      ensures CaseCall(p.sourceFile, p.executable, p.config, tail[j].testCase).Success?
    {
      PassedWasRun(cases, p, env.runner, j);
    }
    CallsOfAligned(tail, p);
    var calls := Evaluate(code, language, testCases, env).calls;
    assert calls == setUp.setupCalls + CallsOf(tail, p);
    forall i | |setUp.setupCalls| <= i < |calls|
      ensures calls[i].timeout == p.config.timeout && calls[i].input.Some?
    {
      assert calls[i] in CallsOf(tail, p);
    }
    forall j | 0 <= j && |setUp.setupCalls| + j < |calls|
      ensures calls[|setUp.setupCalls| + j].input == cases[j].testCase.input
    {
      assert calls[|setUp.setupCalls| + j] == CallsOf(tail, p)[j];
      assert tail[j] == cases[j];
    }
  }

  /** Keys of the test-case dictionary other than "train" and "test" are ignored. */
  function Groups(testCases: map<string, seq<TestCase>>): map<string, seq<TestCase>> {
    map k | k in testCases && (k == "train" || k == "test") :: testCases[k]
  }

  lemma EvaluateIgnoresOtherKeys(code: string, language: string, testCases: map<string, seq<TestCase>>,
                                 env: Sandbox)
    ensures Evaluate(code, language, testCases, env) == Evaluate(code, language, Groups(testCases), env)
  {
    assert CasesInOrder(testCases) == CasesInOrder(Groups(testCases));
  }
}
