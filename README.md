# Test, lint and build runner — a Dafny model

This project models the runner of `internal/runner/runner.go`: the component
that decides how to test, lint and build a workspace, and turns what the
command did into the pass/fail result that gates a proposed change.

- **Project-type detection and command selection** (module `Detection`).
  `go.mod` makes a Go project. Otherwise `pyproject.toml`, `setup.py` or
  `requirements.txt` makes a Python project. Otherwise `package.json` makes a
  TypeScript project when its text mentions "typescript", and a JavaScript
  project when it does not. Otherwise the project is unknown. The test and
  lint commands follow from the project type, from the presence of
  `pytest.ini`/`pyproject.toml`, and from which linters are on PATH.
- **Result classification** (class `Runner.Runner`). A command that cannot be
  started is an error, not a result. A command that ran succeeds exactly when
  it exits with 0. Its result carries the command line (the words joined by
  spaces) and its output (stdout, then a newline and stderr when stderr is not
  empty). Having no command to run counts as success.
- **Lint-output parsing** (module `LintParse` and `Runner.Runner.ParseLintOutput`).
  The output is split into lines and empty lines are skipped. Python and Go
  lines of the form `file:line:message` become one warning each. Each
  JavaScript/TypeScript line becomes one warning whose message is the whole
  line.
- **Go library behaviour the runner depends on** (module `Text`).
  `strings.Split`, `strings.Join`, `strings.TrimSpace`, `strings.Contains`
  and the `%d` verb of `fmt.Sscanf`, over strings of Unicode code points.

The environment is abstracted. File presence in the workspace root is a set
of names. The text of `package.json` is a string, empty when it cannot be
read. The tools PATH finds are a set of names. Running a command is the
`Outcome` it had: an exit code or a failure to start, plus stdout and stderr.
`RunTests`, `RunLint` and `Build` take that environment and outcome as
parameters.

The runner's own fields (`path`, `timeout`) are a Dafny class whose
constructor and `SetTimeout` update them in place. The selectors and
parsers are functions. `Execute` and `ParseLintOutput` are methods, because
they build their results step by step; each is proved against a
specification function (`CombinedOutput`, `LintIssues`).

## Model

| member | source | states |
|---|---|---|
| Runner.Runner.constructor | internal/runner/runner.go:18-23 | a new runner holds the given path and the default timeout of five minutes |
| Runner.Runner.SetTimeout | internal/runner/runner.go:25-27 | the timeout becomes the given duration and the path is unchanged |
| Runner.Runner.Execute | internal/runner/runner.go:93-127 | a command that cannot be started gives an error ("failed to run command: …") and no result; otherwise success holds exactly when the exit code is 0, the exit code is recorded, the command is the argv joined by single spaces, and the output is stdout with "\n" + stderr appended only when stderr is not empty |
| Runner.Runner.RunTests | internal/runner/runner.go:52-64 | with no test command the result is a success carrying the "No test command detected" message, with nothing executed; otherwise the result is an error ("failed to run command: …") exactly when the command cannot be started, success holds exactly when it exits with 0, and the result records that exit code, the command line and the combined output |
| Runner.Runner.RunLint | internal/runner/runner.go:66-91 | with no lint command the result is a success with no issues, with nothing executed; otherwise a spawn failure is an error ("failed to run command: …"), success holds exactly when the linter exits with 0 (whatever issues it printed), and the issues are those read from the combined output for the detected project type |
| Runner.Runner.ParseLintOutput | internal/runner/runner.go:210-230 | the loop over the output's lines returns exactly `LintIssues(output, pt)`: per-line issues of the non-empty lines, concatenated in line order |
| Runner.Runner.Build | internal/runner/runner.go:289-302 | Python and unknown projects succeed with their fixed messages and nothing executed; Go runs `go build ./...` and JavaScript/TypeScript run `npm run build`, with success exactly on exit code 0, that exit code and the combined output recorded, and an error ("failed to run command: …") exactly on a spawn failure |
| Runner.CombinedOutputIssues | internal/runner/runner.go:106-109 | appending stderr to stdout loses and invents no lint issue: the issues of the combined output are those of stdout followed by those of stderr |
| Runner.CommandLineRoundTrip | internal/runner/runner.go:124 | the recorded command line of any selected command splits back on spaces into exactly its words |
| Detection.DetectProjectType | internal/runner/runner.go:139-157 | `go.mod` gives Go even when other markers are present; otherwise any Python marker gives Python; otherwise `package.json` gives TypeScript exactly when its text contains "typescript", else JavaScript; the type is Unknown exactly when no marker is present |
| Detection.DetectionDependsOnlyOnMarkers | internal/runner/runner.go:139-157 | two workspaces that agree on the five marker names, and on whether `package.json` mentions "typescript" when neither `go.mod` nor a Python marker is present (the only case in which the file is read), are detected as the same type |
| Detection.TypeScriptDetected | internal/runner/runner.go:148-153 | a workspace with only a `package.json` whose text contains "typescript" anywhere is a TypeScript project |
| Detection.TestCommand | internal/runner/runner.go:172-186 | Python with `pytest.ini` or `pyproject.toml` gives `python -m pytest -x -q`, other Python `python -m unittest discover -v`, JS/TS `npm test`, Go `go test ./...`; there is no command exactly for Unknown; every command has at least one word and no word contains a space |
| Detection.LintCommand | internal/runner/runner.go:188-208 | Python prefers `ruff check .`, then `flake8 .`, else no command; Go prefers `golangci-lint run`, else `go vet ./...`; JS/TS give `npm run lint`; there is no command exactly for Unknown and for Python with neither linter on PATH |
| Detection.NoMarkersNoCommands | internal/runner/runner.go:139-208 | a workspace with none of the markers has neither a test nor a lint command |
| LintParse.ParsePythonLintLine | internal/runner/runner.go:232-255 | a line with fewer than two colons (fewer than three fields) gives no issue; otherwise exactly one issue, with severity "warning" and column 0 |
| LintParse.PythonLintLineFields | internal/runner/runner.go:232-255 | for `file:num:rest` with no colon in `file` or `num`, the issue's file is `TrimSpace(file)`, its line is what `%d` scans from `num`, and its message is `TrimSpace(rest)`, later colons included |
| LintParse.ParseGoLintLine | internal/runner/runner.go:257-280 | the Go parser, written out by its own steps, returns the same result as the Python parser for every line |
| LintParse.ParseJSLintLine | internal/runner/runner.go:282-287 | a JavaScript/TypeScript line yields exactly one warning whose message is the whole line |
| LintParse.IssuesOfLinesAppend | internal/runner/runner.go:210-230 | issues are concatenated in input order: two consecutive blocks of lines give the first block's issues followed by the second's |
| LintParse.LintIssuesOfJoinedOutput | internal/runner/runner.go:213 | two texts joined by a newline give the issues of the first followed by those of the second |
| LintParse.UnknownYieldsNoIssues | internal/runner/runner.go:219-226 | an Unknown project type yields no issues, whatever the output |
| LintParse.JSIssuesAreLines | internal/runner/runner.go:224-225 | for JS/TS there is one issue per non-empty line, in line order, whose message is the whole line |
| LintParse.IssuesAreWarnings | internal/runner/runner.go:210-287 | every parsed issue is a warning and there are never more issues than non-empty lines |
| LintParse.SameParserSameIssues | internal/runner/runner.go:219-226 | Go output is read exactly as Python output, and TypeScript output exactly as JavaScript output |
| Text.Split | internal/runner/runner.go:213 | `strings.Split` gives at least one piece; no piece contains the separator, and joining the pieces gives back the input |
| Text.SplitJoin | internal/runner/runner.go:244 | joining separator-free pieces and splitting again gives back the pieces |
| Text.SplitCount | internal/runner/runner.go:233-234 | a line splits into one more piece than it has separators, so "fewer than three parts" means "fewer than two colons" |
| Text.TrimSpaceOf | internal/runner/runner.go:238 | `TrimSpace(w1 + t + w2)` is `t` when `w1`, `w2` are white space and `t` neither starts nor ends with it |
| Text.ContainsOccurs | internal/runner/runner.go:150 | `strings.Contains(s, t)` holds exactly when `t` occurs in `s` at some position |
| Text.ScanDecimalRoundTrip | internal/runner/runner.go:239-240 | `%d` reads back any 64-bit integer written in decimal, after any leading white space other than a newline and before any non-digit |
| Text.ScanDecimalNoDigits | internal/runner/runner.go:239-240 | when no digit follows the leading white space and an optional sign (as in "x12", "- 5" or "a1"), the scan fails and the line number stays 0 |

## Left out

- Process spawning, `os.Stat`, `os.ReadFile` and `exec.LookPath`. They are taken as inputs: the set of names that exist, the text of `package.json` and the set of tools on PATH. `fileExists` is true for anything `os.Stat` succeeds on, directories included; the set of names stands for exactly that.
- `Duration` in `TestResult` and `LintResult`, and the wall-clock timing around the command. This is clock I/O.
- Timeout enforcement. The runner stores `timeout`, but `execute` starts the command without a context, so the timeout is never applied and there is no timeout outcome. This follows the code.
- The working directory. `execute` runs the command in the runner's path; the model takes the outcome of that run as given.
- `Runner.Runner.Execute` requires at least one word in the command. The code indexes `cmd[0]` and would panic on an empty command. Every caller passes a non-empty command, and `Detection.TestCommand`/`Detection.LintCommand` prove this for the selected ones.
- Nil versus empty slices (`nil` commands and issue lists). Both are modelled as absence: `None`, or the empty sequence.
- `Text.ScanDecimal`: fixes the bounds of Go's `int` at 64 bits; on a 32-bit platform `%d` into an `int` accepts only 32-bit values, which the model does not cover.
- Byte-level strings. Go strings are bytes and may hold invalid UTF-8; the model uses sequences of Unicode code points. White space is the set that `unicode.IsSpace` reports.
- The git checkpoint/rollback manager, `apply_diff_safe` and the JSON-RPC dispatcher live outside `internal/runner` and are not modelled.
- The sidecar HTTP client and lifecycle, embeddings, LSP probes, and the data declarations in `pkg/models/models.go` and `python/ai_sidecar/models.py`. They are network, process and floating-point code, or declarations without behaviour.
