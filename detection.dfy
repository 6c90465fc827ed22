/**
 * Project-type detection and command selection of the runner: which kind of
 * project lives in the workspace root, and which command tests or lints it.
 *
 * The file system and PATH are abstracted as an `Environment`: the names that
 * exist in the workspace root, the text read from `package.json` (empty when
 * it cannot be read) and the tools that a PATH lookup finds.
 */
module Detection {
  import opened Wrappers
  import opened Text

  datatype ProjectType = Python | JavaScript | TypeScript | Go | Unknown

  datatype Environment = Environment(files: set<string>, packageJson: string, onPath: set<string>)

  const GoModule: string := "go.mod"
  const PyProject: string := "pyproject.toml"
  const SetupPy: string := "setup.py"
  const Requirements: string := "requirements.txt"
  const PackageJson: string := "package.json"
  const PytestIni: string := "pytest.ini"

  /** The names whose presence decides the project type. */
  const Markers: set<string> := {GoModule, PyProject, SetupPy, Requirements, PackageJson}

  predicate HasPythonMarker(files: set<string>) {
    PyProject in files || SetupPy in files || Requirements in files
  }

  /**
   * Detection by priority: `go.mod` wins over every other marker, a Python
   * marker wins over `package.json`, and `package.json` gives TypeScript
   * exactly when its text mentions "typescript".
   */
  function DetectProjectType(env: Environment): (pt: ProjectType)
    ensures pt == Go <==> GoModule in env.files
    ensures pt == Python <==> GoModule !in env.files && HasPythonMarker(env.files)
    ensures pt == TypeScript <==>
      GoModule !in env.files && !HasPythonMarker(env.files) && PackageJson in env.files
      && Contains(env.packageJson, "typescript")
    ensures pt == JavaScript <==>
      GoModule !in env.files && !HasPythonMarker(env.files) && PackageJson in env.files
      && !Contains(env.packageJson, "typescript")
    ensures pt == Unknown <==> Markers !! env.files
  {
    if GoModule in env.files then Go
    else if HasPythonMarker(env.files) then Python
    else if PackageJson in env.files then
      (if Contains(env.packageJson, "typescript") then TypeScript else JavaScript)
    else Unknown
  }

  /** No word of a command holds a space, so joining with spaces loses nothing. */
  predicate WellFormedCommand(cmd: seq<string>) {
    |cmd| >= 1 && forall k :: 0 <= k < |cmd| ==> ' ' !in cmd[k]
  }

  /** The command that runs the tests of a project of type `pt`, if any. */
  function TestCommand(env: Environment, pt: ProjectType): (cmd: Option<seq<string>>)
    ensures cmd.None? <==> pt == Unknown
    ensures cmd.Some? ==> WellFormedCommand(cmd.value)
    ensures pt == Python ==>
      cmd == Some(if PytestIni in env.files || PyProject in env.files
                  then ["python", "-m", "pytest", "-x", "-q"]
                  else ["python", "-m", "unittest", "discover", "-v"])
    ensures pt == JavaScript || pt == TypeScript ==> cmd == Some(["npm", "test"])
    ensures pt == Go ==> cmd == Some(["go", "test", "./..."])
  {
    match pt
    case Python =>
      if PytestIni in env.files || PyProject in env.files then
        Some(["python", "-m", "pytest", "-x", "-q"])
      else
        Some(["python", "-m", "unittest", "discover", "-v"])
    case JavaScript => Some(["npm", "test"])
    case TypeScript => Some(["npm", "test"])
    case Go => Some(["go", "test", "./..."])
    case Unknown => None
  }

  /** The command that lints a project of type `pt`, if any. */
  function LintCommand(env: Environment, pt: ProjectType): (cmd: Option<seq<string>>)
    ensures cmd.None? <==>
      pt == Unknown || (pt == Python && "ruff" !in env.onPath && "flake8" !in env.onPath)
    ensures cmd.Some? ==> WellFormedCommand(cmd.value)
    ensures pt == Python && "ruff" in env.onPath ==> cmd == Some(["ruff", "check", "."])
    ensures pt == Python && "ruff" !in env.onPath && "flake8" in env.onPath ==>
      cmd == Some(["flake8", "."])
    ensures pt == Go ==>
      cmd == Some(if "golangci-lint" in env.onPath then ["golangci-lint", "run"]
                  else ["go", "vet", "./..."])
    ensures pt == JavaScript || pt == TypeScript ==> cmd == Some(["npm", "run", "lint"])
  {
    match pt
    case Python =>
      if "ruff" in env.onPath then Some(["ruff", "check", "."])
      else if "flake8" in env.onPath then Some(["flake8", "."])
      else None
    case JavaScript => Some(["npm", "run", "lint"])
    case TypeScript => Some(["npm", "run", "lint"])
    case Go =>
      if "golangci-lint" in env.onPath then Some(["golangci-lint", "run"])
      else Some(["go", "vet", "./..."])
    case Unknown => None
  }

  /**
   * Detection looks at nothing but the five marker names, and at the text of
   * `package.json` only when neither `go.mod` nor a Python marker is present:
   * two workspaces that agree on these are detected alike.
   */
  lemma DetectionDependsOnlyOnMarkers(e1: Environment, e2: Environment)
    requires e1.files * Markers == e2.files * Markers
    requires GoModule !in e1.files && !HasPythonMarker(e1.files) && PackageJson in e1.files ==>
      Contains(e1.packageJson, "typescript") == Contains(e2.packageJson, "typescript")
    ensures DetectProjectType(e1) == DetectProjectType(e2)
  {
    assert GoModule in e1.files <==> GoModule in e1.files * Markers;
    assert GoModule in e2.files <==> GoModule in e2.files * Markers;
    assert PyProject in e1.files <==> PyProject in e2.files * Markers;
    assert SetupPy in e1.files <==> SetupPy in e2.files * Markers;
    assert Requirements in e1.files <==> Requirements in e2.files * Markers;
    assert PackageJson in e1.files <==> PackageJson in e2.files * Markers;
  }

  /** A project whose `package.json` names TypeScript in its dependencies is detected as TypeScript. */
  lemma TypeScriptDetected(deps: string, rest: string)
    ensures DetectProjectType(Environment({PackageJson}, deps + "typescript" + rest, {}))
            == TypeScript
  {
    var text := deps + "typescript" + rest;
    assert "typescript" <= text[|deps|..];
    ContainsOccurs(text, "typescript");
  }

  /** A workspace with none of the markers has nothing to test or lint. */
  lemma NoMarkersNoCommands(env: Environment)
    requires Markers !! env.files
    ensures TestCommand(env, DetectProjectType(env)) == None
    ensures LintCommand(env, DetectProjectType(env)) == None
  {
  }
}
