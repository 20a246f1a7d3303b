/**
 * linter.go: how the analyzer is invoked and how its report is turned into issues.
 * The subprocess and the JSON decoder are foreign; they enter as function
 * parameters (`run`, `decode`) whose outcome the model does not constrain.
 */
module Linter {
  import opened Wrappers

  /** One issue as the core keeps it. */
  datatype Issue = Issue(fromLinter: string, text: string, file: string, lineNumber: int, hunkPos: int)

  /** What `runLinter` returns on success. */
  datatype LintResult = LintResult(issues: seq<Issue>, maxIssuesPerFile: int, resultJSON: seq<byte>)

  /** A source position as the analyzer reports it. */
  datatype Position = Position(filename: string, offset: int, line: int, column: int)

  /** One issue of the analyzer's JSON report. */
  datatype ReportIssue = ReportIssue(
    fromLinter: string,
    text: string,
    pos: Position,
    hunkPos: int,
    sourceLines: seq<string>)

  /** The inputs `runLinter` reads from its receiver. */
  datatype LinterConfig = LinterConfig(
    timeout: string,        // the receiver's timeout, already rendered by `%s`
    linters: seq<string>,
    gitDirectory: string)

  /** A process to start: program, arguments and working directory. */
  datatype Command = Command(program: string, args: seq<string>, dir: string)

  /** Outcome of running a command and collecting its standard output. */
  datatype ExecOutcome = ExecFailed(cause: string) | ExecOk(output: seq<byte>)

  /** Outcome of decoding the analyzer's output as its JSON report. */
  datatype DecodeOutcome = DecodeFailed(cause: string) | Decoded(issues: seq<ReportIssue>)

  datatype LintError =
    | SubprocessFailed(cause: string)
    | InvalidOutputJson(output: seq<byte>, cause: string)

  /** The eight flags every invocation starts with. */
  function FixedFlags(timeout: string, patchFile: string): (flags: seq<string>)
    ensures |flags| == 8
  {
    ["run", "--no-config", "--out-format=json", "--issues-exit-code=0", "--disable-all",
     "--new=false", "--timeout=" + timeout, "--new-from-patch=" + patchFile]
  }

  function EnableFlag(linter: string): string {
    "--enable=" + linter
  }

  /** One `--enable=` flag per configured linter. */
  function EnableFlags(linters: seq<string>): seq<string> {
    if linters == [] then []
    else EnableFlags(linters[..|linters| - 1]) + [EnableFlag(linters[|linters| - 1])]
  }

  lemma {:induction false} EnableFlagsAt(linters: seq<string>)
    ensures |EnableFlags(linters)| == |linters|
    ensures forall k :: 0 <= k < |linters| ==> EnableFlags(linters)[k] == EnableFlag(linters[k])
  {
    if linters != [] {
      EnableFlagsAt(linters[..|linters| - 1]);
    }
  }

  /** The analyzer's argument list. */
  function LinterArgs(timeout: string, patchFile: string, linters: seq<string>): seq<string> {
    FixedFlags(timeout, patchFile) + EnableFlags(linters)
  }

  /** The fixed flags come first and unchanged, then one enable flag per linter, in order. */
  lemma LinterArgsShape(timeout: string, patchFile: string, linters: seq<string>)
    ensures var args := LinterArgs(timeout, patchFile, linters);
      && |args| == 8 + |linters|
      && args[..8] == FixedFlags(timeout, patchFile)
      && args[6] == "--timeout=" + timeout
      && args[7] == "--new-from-patch=" + patchFile
      && forall k :: 0 <= k < |linters| ==> args[8 + k] == "--enable=" + linters[k]
  {
    EnableFlagsAt(linters);
  }

  /** Builds the argument list by appending to the fixed flags, linter by linter. */
  method BuildArgs(timeout: string, patchFile: string, linters: seq<string>) returns (args: seq<string>)
    ensures args == LinterArgs(timeout, patchFile, linters)
    ensures |args| == 8 + |linters|
    ensures args[..8] == FixedFlags(timeout, patchFile)
    ensures forall k :: 0 <= k < |linters| ==> args[8 + k] == "--enable=" + linters[k]
  {
    args := FixedFlags(timeout, patchFile);
    for i := 0 to |linters|
      invariant args == FixedFlags(timeout, patchFile) + EnableFlags(linters[..i])
    {
      assert linters[..i + 1][..i] == linters[..i];
      args := args + [EnableFlag(linters[i])];
    }
    assert linters[..|linters|] == linters;
    LinterArgsShape(timeout, patchFile, linters);
  }

  /** The analyzer process `runLinter` starts. */
  function LinterCommand(config: LinterConfig, patchFile: string): Command {
    Command("golangci-lint", LinterArgs(config.timeout, patchFile, config.linters), config.gitDirectory)
  }

  /** The issue the core keeps for one reported issue. */
  function ToIssue(i: ReportIssue): Issue {
    Issue(i.fromLinter, i.text, i.pos.filename, i.pos.line, i.hunkPos)
  }

  /** Translates reported issues one by one, appending each to the result. */
  method TranslateIssues(reported: seq<ReportIssue>) returns (issues: seq<Issue>)
    ensures |issues| == |reported|
    ensures forall k :: 0 <= k < |reported| ==>
      && issues[k].file == reported[k].pos.filename
      && issues[k].lineNumber == reported[k].pos.line
      && issues[k].text == reported[k].text
      && issues[k].fromLinter == reported[k].fromLinter
      && issues[k].hunkPos == reported[k].hunkPos
  {
    issues := [];
    for i := 0 to |reported|
      invariant |issues| == i
      invariant forall k :: 0 <= k < i ==> issues[k] == ToIssue(reported[k])
    {
      issues := issues + [ToIssue(reported[i])];
    }
  }

  /**
   * Runs the analyzer on the patch and translates its report.
   * A failed run is reported before the output is looked at; output that does
   * not decode is an error; otherwise the raw output is kept alongside the issues.
   */
  method RunLinter(
    config: LinterConfig,
    patchFile: string,
    run: Command -> ExecOutcome,
    decode: seq<byte> -> DecodeOutcome)
    returns (r: Result<LintResult, LintError>)
    ensures run(LinterCommand(config, patchFile)).ExecFailed? ==>
      r == Failure(SubprocessFailed(run(LinterCommand(config, patchFile)).cause))
    ensures run(LinterCommand(config, patchFile)).ExecOk? ==>
      var out := run(LinterCommand(config, patchFile)).output;
      match decode(out)
      case DecodeFailed(cause) => r == Failure(InvalidOutputJson(out, cause))
      case Decoded(reported) =>
        && r.Success?
        && r.value.resultJSON == out
        && r.value.maxIssuesPerFile == 0
        && |r.value.issues| == |reported|
        && forall k :: 0 <= k < |reported| ==> r.value.issues[k] == ToIssue(reported[k])
  {
    var args := BuildArgs(config.timeout, patchFile, config.linters);
    var outcome := run(Command("golangci-lint", args, config.gitDirectory));
    if outcome.ExecFailed? {
      return Failure(SubprocessFailed(outcome.cause));
    }
    // The source tests the subprocess error a second time here; that branch
    // cannot be taken after the return above.
    if outcome.ExecFailed? {
      assert false;
    }
    var out := outcome.output;
    var decoded := decode(out);
    if decoded.DecodeFailed? {
      return Failure(InvalidOutputJson(out, decoded.cause));
    }
    var issues := TranslateIssues(decoded.issues);
    r := Success(LintResult(issues, 0, out));
  }
}
