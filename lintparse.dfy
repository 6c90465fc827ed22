/**
 * Reading lint issues out of a linter's output. Python and Go linters print
 * `file:line: message` (possibly `file:line:col: message`); for JavaScript
 * and TypeScript each non-empty line is an issue of its own.
 */
module LintParse {
  import opened Text
  import opened Detection

  datatype LintIssue = LintIssue(file: string, line: int, column: int, message: string, severity: string)

  const Warning: string := "warning"

  /**
   * A line with at least two colons gives exactly one warning: the file is
   * the trimmed text before the first colon, the line number is what `%d`
   * scans from the second field, the column stays 0, and the message is the
   * trimmed remainder after the second colon, later colons included.
   */
  function ParsePythonLintLine(line: string): (issues: seq<LintIssue>)
    ensures |issues| <= 1
    ensures issues == [] <==> CountChar(line, ':') < 2
    ensures forall k :: 0 <= k < |issues| ==> issues[k].severity == Warning && issues[k].column == 0
  {
    var parts := Split(line, ':');
    SplitCount(line, ':');
    if |parts| < 3 then []
    else
      var message := if |parts| > 3 then TrimSpace(Join(parts[2..], ":")) else TrimSpace(parts[2]);
      [LintIssue(TrimSpace(parts[0]), ScanDecimal(parts[1]), 0, message, Warning)]
  }

  /**
   * The Go parser reads `file:line: message` by the same steps as the Python
   * parser, and so gives the same issues for every line.
   */
  function ParseGoLintLine(line: string): (issues: seq<LintIssue>)
    ensures issues == ParsePythonLintLine(line)
  {
    var parts := Split(line, ':');
    if |parts| < 3 then []
    else
      var file := TrimSpace(parts[0]);
      var lineNum := ScanDecimal(parts[1]);
      var message := if |parts| > 3 then TrimSpace(Join(parts[2..], ":")) else TrimSpace(parts[2]);
      [LintIssue(file, lineNum, 0, message, Warning)]
  }

  /** A JavaScript or TypeScript line is taken whole as the message of one warning. */
  function ParseJSLintLine(line: string): (issues: seq<LintIssue>)
    ensures |issues| == 1 && issues[0].message == line && issues[0].severity == Warning
  {
    [LintIssue("", 0, 0, line, Warning)]
  }

  /**
   * The parser's reading of `file:line:rest`: whatever the rest holds, the
   * fields come out trimmed, and the number is scanned from the second field.
   */
  lemma PythonLintLineFields(file: string, num: string, rest: string)
    requires ':' !in file && ':' !in num
    ensures ParsePythonLintLine(file + ":" + num + ":" + rest)
            == [LintIssue(TrimSpace(file), ScanDecimal(num), 0, TrimSpace(rest), Warning)]
  {
    var line := file + ":" + num + ":" + rest;
    var parts := Split(line, ':');
    assert parts == [file, num] + Split(rest, ':') by {
      SplitThreeFields(file, num, rest);
    }
    assert parts[2..] == Split(rest, ':');
    ParseOfParts(line);
  }

  lemma SplitThreeFields(file: string, num: string, rest: string)
    requires ':' !in file && ':' !in num
    ensures Split(file + ":" + num + ":" + rest, ':') == [file, num] + Split(rest, ':')
  {
    assert file + ":" + num + ":" + rest == file + [':'] + (num + [':'] + rest);
    SplitAppend(file, ':', num + [':'] + rest);
    SplitAppend(num, ':', rest);
    SplitWithoutSeparator(file, ':');
    SplitWithoutSeparator(num, ':');
  }

  /** With three or more fields, the message is the trimmed join of all fields after the second. */
  lemma ParseOfParts(line: string)
    requires |Split(line, ':')| >= 3
    ensures var parts := Split(line, ':');
      ParsePythonLintLine(line)
      == [LintIssue(TrimSpace(parts[0]), ScanDecimal(parts[1]), 0, TrimSpace(Join(parts[2..], ":")), Warning)]
  {
    var parts := Split(line, ':');
    if |parts| == 3 {
      assert parts[2..] == [parts[2]];
    }
  }

  /** The issues of one line of output; an empty line gives none. */
  function LineIssues(line: string, pt: ProjectType): seq<LintIssue> {
    if line == "" then []
    else match pt
      case Python => ParsePythonLintLine(line)
      case Go => ParseGoLintLine(line)
      case JavaScript => ParseJSLintLine(line)
      case TypeScript => ParseJSLintLine(line)
      case Unknown => []
  }

  /** The issues of the lines, in line order. */
  function IssuesOfLines(lines: seq<string>, pt: ProjectType): seq<LintIssue> {
    if lines == [] then []
    else IssuesOfLines(lines[..|lines| - 1], pt) + LineIssues(lines[|lines| - 1], pt)
  }

  /** What the runner's parser reads from a linter's output. */
  function LintIssues(output: string, pt: ProjectType): seq<LintIssue> {
    IssuesOfLines(Split(output, '\n'), pt)
  }

  /** The non-empty lines, in order. */
  function NonEmptyLines(lines: seq<string>): seq<string> {
    if lines == [] then []
    else NonEmptyLines(lines[..|lines| - 1]) + (if lines[|lines| - 1] == "" then [] else [lines[|lines| - 1]])
  }

  /** Issues of consecutive blocks of lines follow each other. */
  lemma {:induction false} IssuesOfLinesAppend(a: seq<string>, b: seq<string>, pt: ProjectType)
    ensures IssuesOfLines(a + b, pt) == IssuesOfLines(a, pt) + IssuesOfLines(b, pt)
  {
    if b == [] {
      assert a + b == a;
    } else {
      var b' := b[..|b| - 1];
      assert (a + b)[..|a + b| - 1] == a + b';
      IssuesOfLinesAppend(a, b', pt);
    }
  }

  /**
   * Output made of two parts joined by a newline (stdout, then stderr) gives
   * the issues of the first part followed by those of the second.
   */
  lemma LintIssuesOfJoinedOutput(first: string, second: string, pt: ProjectType)
    ensures LintIssues(first + "\n" + second, pt) == LintIssues(first, pt) + LintIssues(second, pt)
  {
    SplitAppend(first, '\n', second);
    IssuesOfLinesAppend(Split(first, '\n'), Split(second, '\n'), pt);
  }

  /** An unknown project type yields no issues, whatever the output. */
  lemma {:induction false} UnknownYieldsNoIssues(lines: seq<string>)
    ensures IssuesOfLines(lines, Unknown) == []
  {
    if lines != [] {
      UnknownYieldsNoIssues(lines[..|lines| - 1]);
    }
  }

  /**
   * For JavaScript and TypeScript every non-empty line becomes one warning
   * whose message is the whole line, in the order of the lines.
   */
  lemma {:induction false} JSIssuesAreLines(lines: seq<string>, pt: ProjectType)
    requires pt == JavaScript || pt == TypeScript
    ensures |IssuesOfLines(lines, pt)| == |NonEmptyLines(lines)|
    ensures forall k :: 0 <= k < |NonEmptyLines(lines)| ==>
      IssuesOfLines(lines, pt)[k] == LintIssue("", 0, 0, NonEmptyLines(lines)[k], Warning)
  {
    if lines != [] {
      JSIssuesAreLines(lines[..|lines| - 1], pt);
    }
  }

  /**
   * Every issue is a warning, and no line gives more than one, so there are
   * never more issues than non-empty lines.
   */
  lemma {:induction false} IssuesAreWarnings(lines: seq<string>, pt: ProjectType)
    ensures |IssuesOfLines(lines, pt)| <= |NonEmptyLines(lines)|
    ensures forall k :: 0 <= k < |IssuesOfLines(lines, pt)| ==> IssuesOfLines(lines, pt)[k].severity == Warning
  {
    if lines != [] {
      IssuesAreWarnings(lines[..|lines| - 1], pt);
    }
  }

  /** Go output is read exactly as Python output, TypeScript output as JavaScript output. */
  lemma {:induction false} SameParserSameIssues(lines: seq<string>)
    ensures IssuesOfLines(lines, Go) == IssuesOfLines(lines, Python)
    ensures IssuesOfLines(lines, TypeScript) == IssuesOfLines(lines, JavaScript)
  {
    if lines != [] {
      SameParserSameIssues(lines[..|lines| - 1]);
    }
  }
}
