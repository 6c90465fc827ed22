/**
 * The test, lint and build runner bound to one workspace directory.
 *
 * Spawning a process is abstracted as the `Outcome` it has: how it ended
 * (an exit code, or a failure to start it at all) and what it wrote to
 * stdout and stderr. The workspace and PATH are abstracted as the
 * `Environment` of module Detection.
 */
module Runner {
  import opened Wrappers
  import opened Text
  import opened Detection
  import opened LintParse

  /** `time.Duration`: a signed 64-bit count of nanoseconds. */
  newtype Duration = x: int | -0x8000_0000_0000_0000 <= x < 0x8000_0000_0000_0000

  const Second: Duration := 1_000_000_000
  const Minute: Duration := 60 * Second
  const DefaultTimeout: Duration := 5 * Minute

  /** How a spawned command ended: with an exit code (0 when it succeeded), or it never started. */
  datatype Status = Exited(code: int) | SpawnFailed(reason: string)

  /** What running a command in the workspace produced. */
  datatype Outcome = Outcome(status: Status, stdout: string, stderr: string)

  datatype TestResult = TestResult(success: bool, output: string, command: string, exitCode: int)

  datatype LintResult = LintResult(success: bool, output: string, issues: seq<LintIssue>)

  /** The error returned instead of a result when a command cannot be started. */
  datatype RunError = RunError(message: string)

  const NoTestCommandOutput: string := "No test command detected for this project type"
  const NoLintCommandOutput: string := "No lint command detected for this project type"
  const PythonBuildOutput: string := "Python does not require build step"
  const NoBuildOutput: string := "No build step required"
  const GoBuild: seq<string> := ["go", "build", "./..."]
  const NpmBuild: seq<string> := ["npm", "run", "build"]

  /** The command-line text of a result: the words joined by single spaces. */
  function CommandLine(cmd: seq<string>): string {
    Join(cmd, " ")
  }

  /** A result's output: stdout, then a newline and stderr when stderr is not empty. */
  function CombinedOutput(stdout: string, stderr: string): string {
    if |stderr| > 0 then stdout + "\n" + stderr else stdout
  }

  /** The test command chosen for the detected project type. */
  function SelectedTestCommand(env: Environment): Option<seq<string>> {
    TestCommand(env, DetectProjectType(env))
  }

  /** The lint command chosen for the detected project type. */
  function SelectedLintCommand(env: Environment): Option<seq<string>> {
    LintCommand(env, DetectProjectType(env))
  }

  /** The command line of every selected command gives back its words. */
  lemma CommandLineRoundTrip(cmd: seq<string>)
    requires WellFormedCommand(cmd)
    ensures Split(CommandLine(cmd), ' ') == cmd
  {
    SplitJoin(cmd, ' ');
    assert " " == [' '];
  }

  /**
   * Appending stderr to stdout loses no lint issue and invents none: the
   * issues of the combined output are those of stdout followed by those of
   * stderr.
   */
  lemma CombinedOutputIssues(stdout: string, stderr: string, pt: ProjectType)
    ensures LintIssues(CombinedOutput(stdout, stderr), pt) == LintIssues(stdout, pt) + LintIssues(stderr, pt)
  {
    if |stderr| > 0 {
      LintIssuesOfJoinedOutput(stdout, stderr, pt);
    } else {
      assert Split(stderr, '\n') == [""];
      assert IssuesOfLines([""], pt) == IssuesOfLines([], pt) + LineIssues("", pt);
    }
  }

  class Runner {
    var path: string
    var timeout: Duration

    /** A runner for the workspace at `path`, with the default timeout of five minutes. */
    constructor (path: string)
      ensures this.path == path && timeout == DefaultTimeout
    {
      this.path := path;
      timeout := DefaultTimeout;
    }

    /** Replaces the timeout; the workspace path stays. */
    method SetTimeout(timeout: Duration)
      modifies this
      ensures this.timeout == timeout && path == old(path)
    {
      this.timeout := timeout;
    }

    /**
     * Builds the result of running `cmd` in the workspace: a command that
     * could not be started is an error, not a result; otherwise the result
     * succeeds exactly when the exit code is 0, carries the command line
     * and the combined output.
     */
    method Execute(cmd: seq<string>, outcome: Outcome) returns (res: Result<TestResult, RunError>)
      requires |cmd| >= 1
      ensures res.Failure? <==> outcome.status.SpawnFailed?
      ensures res.Failure? ==> res.error == RunError("failed to run command: " + outcome.status.reason)
      ensures res.Success? ==>
        && res.value.exitCode == outcome.status.code
        && (res.value.success <==> outcome.status.code == 0)
        && res.value.command == CommandLine(cmd)
        && res.value.output == CombinedOutput(outcome.stdout, outcome.stderr)
    {
      var output := outcome.stdout;
      if |outcome.stderr| > 0 {
        output := output + "\n" + outcome.stderr;
      }

      var exitCode := 0;
      match outcome.status {
        case Exited(code) =>
          exitCode := code;
        case SpawnFailed(reason) =>
          return Failure(RunError("failed to run command: " + reason));
      }

      res := Success(TestResult(exitCode == 0, output, CommandLine(cmd), exitCode));
    }

    /**
     * Runs the tests of the workspace. With no test command for its project
     * type the run succeeds without executing anything; otherwise it
     * succeeds exactly when the test command exits with 0.
     */
    method RunTests(env: Environment, outcome: Outcome) returns (res: Result<TestResult, RunError>)
      ensures SelectedTestCommand(env).None? ==>
        res == Success(TestResult(true, NoTestCommandOutput, "", 0))
      ensures SelectedTestCommand(env).Some? ==> (res.Failure? <==> outcome.status.SpawnFailed?)
      ensures res.Failure? ==> res.error == RunError("failed to run command: " + outcome.status.reason)
      ensures res.Success? ==>
        (res.value.success <==> SelectedTestCommand(env).None? || outcome.status == Exited(0))
      ensures res.Success? && SelectedTestCommand(env).Some? ==>
        && res.value.exitCode == outcome.status.code
        && res.value.command == CommandLine(SelectedTestCommand(env).value)
        && res.value.output == CombinedOutput(outcome.stdout, outcome.stderr)
    {
      var detected := DetectProjectType(env);
      var testCmd := TestCommand(env, detected);

      if testCmd.None? {
        return Success(TestResult(true, NoTestCommandOutput, "", 0));
      }

      res := Execute(testCmd.value, outcome);
    }

    /**
     * Runs the linter of the workspace. With no lint command the run succeeds
     * without executing anything and reports no issue; otherwise it succeeds
     * exactly when the linter exits with 0, whatever issues it printed, and
     * the issues are those read from its combined output.
     */
    method RunLint(env: Environment, outcome: Outcome) returns (res: Result<LintResult, RunError>)
      ensures SelectedLintCommand(env).None? ==>
        res == Success(LintResult(true, NoLintCommandOutput, []))
      ensures SelectedLintCommand(env).Some? ==> (res.Failure? <==> outcome.status.SpawnFailed?)
      ensures res.Failure? ==> res.error == RunError("failed to run command: " + outcome.status.reason)
      ensures res.Success? ==>
        (res.value.success <==> SelectedLintCommand(env).None? || outcome.status == Exited(0))
      ensures res.Success? && SelectedLintCommand(env).Some? ==>
        && res.value.output == CombinedOutput(outcome.stdout, outcome.stderr)
        && res.value.issues == LintIssues(res.value.output, DetectProjectType(env))
    {
      var detected := DetectProjectType(env);
      var lintCmd := LintCommand(env, detected);

      if lintCmd.None? {
        return Success(LintResult(true, NoLintCommandOutput, []));
      }

      var result := Execute(lintCmd.value, outcome);
      if result.Failure? {
        return Failure(result.error);
      }

      var issues := ParseLintOutput(result.value.output, detected);
      res := Success(LintResult(result.value.success, result.value.output, issues));
    }

    /**
     * Reads the issues from a linter's output line by line, skipping empty
     * lines and keeping the order of the lines.
     */
    method ParseLintOutput(output: string, pt: ProjectType) returns (issues: seq<LintIssue>)
      ensures issues == LintIssues(output, pt)
    {
      var lines := Split(output, '\n');
      issues := [];
      for i := 0 to |lines|
        invariant issues == IssuesOfLines(lines[..i], pt)
      {
        assert lines[..i + 1][..i] == lines[..i];
        var line := lines[i];
        if line != "" {
          match pt {
            case Python => issues := issues + ParsePythonLintLine(line);
            case Go => issues := issues + ParseGoLintLine(line);
            case JavaScript => issues := issues + ParseJSLintLine(line);
            case TypeScript => issues := issues + ParseJSLintLine(line);
            case Unknown =>
          }
        }
      }
      assert lines[..|lines|] == lines;
    }

    /**
     * Builds the workspace: Go and JavaScript/TypeScript projects run their
     * build command and succeed exactly when it exits with 0; Python and
     * unknown projects succeed without executing anything.
     */
    method Build(env: Environment, outcome: Outcome) returns (res: Result<TestResult, RunError>)
      ensures DetectProjectType(env) == Python ==>
        res == Success(TestResult(true, PythonBuildOutput, "", 0))
      ensures DetectProjectType(env) == Unknown ==>
        res == Success(TestResult(true, NoBuildOutput, "", 0))
      ensures DetectProjectType(env) == Go || DetectProjectType(env) == JavaScript
              || DetectProjectType(env) == TypeScript ==>
        && (res.Failure? <==> outcome.status.SpawnFailed?)
        && (res.Success? ==>
              && res.value.exitCode == outcome.status.code
              && (res.value.success <==> outcome.status == Exited(0))
              && res.value.command == (if DetectProjectType(env) == Go then "go build ./..." else "npm run build")
              && res.value.output == CombinedOutput(outcome.stdout, outcome.stderr))
      ensures res.Failure? ==> res.error == RunError("failed to run command: " + outcome.status.reason)
    {
      var detected := DetectProjectType(env);
      match detected {
        case Go =>
          assert CommandLine(GoBuild) == "go build ./...";
          res := Execute(GoBuild, outcome);
        case JavaScript =>
          assert CommandLine(NpmBuild) == "npm run build";
          res := Execute(NpmBuild, outcome);
        case TypeScript =>
          assert CommandLine(NpmBuild) == "npm run build";
          res := Execute(NpmBuild, outcome);
        case Python =>
          res := Success(TestResult(true, PythonBuildOutput, "", 0));
        case Unknown =>
          res := Success(TestResult(true, NoBuildOutput, "", 0));
      }
    }
  }
}
