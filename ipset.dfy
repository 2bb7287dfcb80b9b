/** The ipset package: a thin wrapper that runs the system `ipset` tool once per
    operation and turns its exit status and standard error into an error value.

    The child process is not modelled. What the tool answers for a given
    argument vector is the parameter `tool`; each operation consults it exactly
    once, on the argument vector it builds, and everything after that is the
    deterministic classification below. */
module Ipset {
  import opened Strings

  /** Option tokens exported for callers; passed through verbatim. */
  const IPv6 := "-6"
  const SuppressErrors := "-!"

  /** The characters stripped from the end of the tool's standard error. */
  const StderrCutset := "\r\n"

  /** The context text that New puts in front of a failed executable lookup. */
  const LookPathContext := "cannot find ipset executable"

  datatype Option<T> = None | Some(value: T)

  /** An operating-system error the wrapper only passes on (a failed lookup,
      a process that could not be started). Its content is opaque here. */
  datatype OsError = OsError(description: string)

  /** The wrapper's structured error for a tool that ran and exited non-zero:
      the exit code of the embedded exit error, the path and the full argument
      vector of the command, and the trimmed standard error. */
  datatype Error = Error(exitCode: int, path: string, args: seq<string>, msg: string)

  /** The non-nil values of Go's `error` that the package can return. */
  datatype Failure =
    | ToolError(error: Error)
    | OsFailure(cause: OsError)
    | Wrapped(context: string, cause: OsError)

  datatype Result<T> = Ok(value: T) | Err(failure: Failure)

  /** The handle: the executable path, fixed when the handle is built. */
  datatype Ipset = Ipset(path: string)

  /** What the executable search on the process's search path returned: a path
      with no error, or an error. A path found together with an error (an
      executable resolved relative to the current directory) is a failure too. */
  datatype LookPathResult = Found(path: string) | LookupFailed(cause: OsError)

  /** The exit code of a process that did not succeed: never 0 (a process
      killed by a signal reports -1). */
  type ExitCode = c: int | c != 0 witness 1

  /** What running the process came to: a zero exit, a non-zero exit with the
      captured standard error, or a failure to start the process at all. */
  datatype Outcome = Success | Exited(code: ExitCode, stderr: string) | LaunchFailed(cause: OsError)

  /** The external tool, as the outcome it produces for a full argument vector. */
  type Tool = seq<string> -> Outcome

  /** The tool's subcommands that the package issues. */
  datatype Command =
    | CreateSet(setname: string, typename: string, opts: seq<string>)
    | DestroySet(setname: string)
    | ListSet(setname: string)
    | AddEntry(setname: string, addr: string, opts: seq<string>)
    | DelEntry(setname: string, addr: string, opts: seq<string>)
    | FlushSet(setname: string)

  /** The argument vector (without the executable path) of each subcommand:
      the keyword, the positional arguments in order, then the options as given. */
  function Args(c: Command): (args: seq<string>) {
    match c
    case CreateSet(s, t, opts) => ["create", s, t] + opts
    case DestroySet(s) => ["destroy", s]
    case ListSet(s) => ["list", s]
    case AddEntry(s, a, opts) => ["add", s, a] + opts
    case DelEntry(s, a, opts) => ["del", s, a] + opts
    case FlushSet(s) => ["flush", s]
  }

  /** Reads an argument vector back as a subcommand, accepting exactly the
      six argument shapes the package issues; the inverse of Args. */
  function Parse(args: seq<string>): (c: Option<Command>) {
    if |args| == 0 then None
    else if args[0] == "create" && |args| >= 3 then Some(CreateSet(args[1], args[2], args[3..]))
    else if args[0] == "destroy" && |args| == 2 then Some(DestroySet(args[1]))
    else if args[0] == "list" && |args| == 2 then Some(ListSet(args[1]))
    else if args[0] == "add" && |args| >= 3 then Some(AddEntry(args[1], args[2], args[3..]))
    else if args[0] == "del" && |args| >= 3 then Some(DelEntry(args[1], args[2], args[3..]))
    else if args[0] == "flush" && |args| == 2 then Some(FlushSet(args[1]))
    else None
  }

  /** Every issued argument vector determines the subcommand and all of its
      arguments, options included, in order. */
  lemma ParseArgs(c: Command)
    ensures Parse(Args(c)) == Some(c)
  {
    match c
    case CreateSet(s, t, opts) => assert Args(c)[3..] == opts;
    case AddEntry(s, a, opts) => assert Args(c)[3..] == opts;
    case DelEntry(s, a, opts) => assert Args(c)[3..] == opts;
    case _ =>
  }

  /** Conversely, every vector of the package's six shapes is exactly the one
      Args issues for the subcommand Parse reads from it. */
  lemma ArgsParse(args: seq<string>)
    requires Parse(args).Some?
    ensures Args(Parse(args).value) == args
  {
    if |args| >= 3 {
      assert args == [args[0], args[1], args[2]] + args[3..];
    } else {
      assert args == [args[0], args[1]];
    }
  }

  /** Two different subcommands never share an argument vector. */
  lemma ArgsInjective(c: Command, c': Command)
    requires Args(c) == Args(c')
    ensures c == c'
  {
    ParseArgs(c);
    ParseArgs(c');
  }

  /** Builds the handle from the result of looking up the executable; a failed
      lookup is returned wrapped with LookPathContext. */
  function New(lookup: LookPathResult): (r: Result<Ipset>)
    ensures r.Ok? <==> lookup.Found?
    ensures lookup.Found? ==> r.value.path == lookup.path
    ensures lookup.LookupFailed? ==> r.failure == Wrapped(LookPathContext, lookup.cause)
  {
    match lookup
    case Found(path) => Ok(Ipset(path))
    case LookupFailed(cause) => Err(Wrapped(LookPathContext, cause))
  }

  /** Runs the tool once on the handle's path followed by `args`, and
      classifies the outcome: no error on success; a ToolError carrying the
      exit code, the path, the full argument vector and the standard error
      with its trailing line terminators removed on a non-zero exit; the
      launch error itself, unwrapped, when the process could not start. */
  function RunWithOutput(ips: Ipset, args: seq<string>, tool: Tool): (err: Option<Failure>)
    ensures var argv := [ips.path] + args; var outcome := tool(argv);
      && (err.None? <==> outcome.Success?)
      && (err.Some? && err.value.ToolError? <==> outcome.Exited?)
      && (outcome.Exited? ==>
            && err.value.error.exitCode == outcome.code
            && err.value.error.path == ips.path
            && err.value.error.args == argv
            && IsRightTrim(err.value.error.msg, outcome.stderr, StderrCutset))
      && (outcome.LaunchFailed? ==> err == Some(OsFailure(outcome.cause)))
  {
    var argv := [ips.path] + args;
    match tool(argv)
    case Success => None
    case Exited(code, stderr) => Some(ToolError(Error(code, ips.path, argv, TrimRight(stderr, StderrCutset))))
    case LaunchFailed(cause) => Some(OsFailure(cause))
  }

  function Create(ips: Ipset, setname: string, typename: string, opts: seq<string>, tool: Tool): (err: Option<Failure>)
    ensures err == RunWithOutput(ips, ["create", setname, typename] + opts, tool)
  {
    RunWithOutput(ips, Args(CreateSet(setname, typename, opts)), tool)
  }

  function Destroy(ips: Ipset, setname: string, tool: Tool): (err: Option<Failure>)
    ensures err == RunWithOutput(ips, ["destroy", setname], tool)
  {
    RunWithOutput(ips, Args(DestroySet(setname)), tool)
  }

  /** Interprets the error of `list`: exit code 1 is the tool's way of saying
      that the set does not exist, so it becomes a plain `false`. */
  function ExistsAnswer(err: Option<Failure>): (r: (bool, Option<Failure>))
    ensures r.0 <==> err.None?
    ensures r.1.None? <==> (err.None? || (err.value.ToolError? && err.value.error.exitCode == 1))
    ensures r.1.Some? ==> r.1 == err
  {
    match err
    case None => (true, None)
    case Some(ToolError(e)) => if e.exitCode == 1 then (false, None) else (false, err)
    case Some(_) => (false, err)
  }

  /** Whether the set exists, in terms of what the tool does with `list`. */
  function SetExists(ips: Ipset, setname: string, tool: Tool): (r: (bool, Option<Failure>))
    ensures var argv := [ips.path, "list", setname]; var outcome := tool(argv);
      && (r.0 <==> outcome.Success?)
      && (r.1.None? <==> (outcome.Success? || (outcome.Exited? && outcome.code == 1)))
      && (outcome.Exited? && outcome.code != 1 ==>
            && r.1.Some? && r.1.value.ToolError?
            && r.1.value.error.exitCode == outcome.code
            && r.1.value.error.args == argv)
      && (outcome.LaunchFailed? ==> r.1 == Some(OsFailure(outcome.cause)))
      && (r.1.Some? ==> r.1 == RunWithOutput(ips, ["list", setname], tool))
  {
    assert [ips.path] + Args(ListSet(setname)) == [ips.path, "list", setname];
    ExistsAnswer(RunWithOutput(ips, Args(ListSet(setname)), tool))
  }

  function Add(ips: Ipset, setname: string, addr: string, opts: seq<string>, tool: Tool): (err: Option<Failure>)
    ensures err == RunWithOutput(ips, ["add", setname, addr] + opts, tool)
  {
    RunWithOutput(ips, Args(AddEntry(setname, addr, opts)), tool)
  }

  function Del(ips: Ipset, setname: string, addr: string, opts: seq<string>, tool: Tool): (err: Option<Failure>)
    ensures err == RunWithOutput(ips, ["del", setname, addr] + opts, tool)
  {
    RunWithOutput(ips, Args(DelEntry(setname, addr, opts)), tool)
  }

  function Flush(ips: Ipset, setname: string, tool: Tool): (err: Option<Failure>)
    ensures err == RunWithOutput(ips, ["flush", setname], tool)
  {
    RunWithOutput(ips, Args(FlushSet(setname)), tool)
  }

  /** The message of a ToolError is exactly TrimRight of the standard error:
      nothing but the trailing run of line terminators is removed, and trimming
      it again changes nothing. */
  lemma ErrorMessageIsTrimmed(ips: Ipset, args: seq<string>, tool: Tool)
    requires tool([ips.path] + args).Exited?
    ensures var msg := RunWithOutput(ips, args, tool).value.error.msg;
      && msg == TrimRight(tool([ips.path] + args).stderr, StderrCutset)
      && TrimRight(msg, StderrCutset) == msg
  {
    var outcome := tool([ips.path] + args);
    var msg := RunWithOutput(ips, args, tool).value.error.msg;
    TrimRightCharacterised(msg, outcome.stderr, StderrCutset);
    TrimRightIdempotent(outcome.stderr, StderrCutset);
  }

  /** A handle built by New keeps the path it was given: every structured
      error names it as the executable and as the first argument, and the rest
      of its arguments read back as the command that failed. */
  lemma ErrorNamesCommand(path: string, c: Command, tool: Tool)
    ensures New(Found(path)).Ok?
    ensures var err := RunWithOutput(New(Found(path)).value, Args(c), tool);
      err.Some? && err.value.ToolError? ==>
        && err.value.error.path == path
        && err.value.error.args[0] == path
        && Parse(err.value.error.args[1..]) == Some(c)
  {
    var err := RunWithOutput(Ipset(path), Args(c), tool);
    if err.Some? && err.value.ToolError? {
      assert err.value.error.args[1..] == Args(c);
      ParseArgs(c);
    }
  }

  /** Creating `myset` of type `hash:ip` with a tool that exits 0 issues
      exactly `create myset hash:ip` and reports no error. */
  lemma CreateScenario(ips: Ipset, tool: Tool)
    requires tool([ips.path, "create", "myset", "hash:ip"]) == Success
    ensures Create(ips, "myset", "hash:ip", [], tool) == None
  {
    assert [ips.path] + Args(CreateSet("myset", "hash:ip", [])) == [ips.path, "create", "myset", "hash:ip"];
  }

  /** SetExists on a set the tool reports missing (exit 1) answers false with
      no error; the message is discarded. */
  lemma MissingSetScenario(ips: Ipset, tool: Tool)
    requires tool([ips.path, "list", "myset"]) == Exited(1, "set myset does not exist\n")
    ensures SetExists(ips, "myset", tool) == (false, None)
  {
    assert [ips.path] + Args(ListSet("myset")) == [ips.path, "list", "myset"];
  }

  /** Destroy of a set in use (exit 2, message ending in CR LF) yields a
      structured error whose message has both terminators removed. */
  lemma DestroyInUseScenario(ips: Ipset, tool: Tool)
    requires tool([ips.path, "destroy", "myset"]) == Exited(2, "Set cannot be destroyed: it is in use\r\n")
    ensures Destroy(ips, "myset", tool)
      == Some(ToolError(Error(2, ips.path, [ips.path, "destroy", "myset"], "Set cannot be destroyed: it is in use")))
  {
    var text := "Set cannot be destroyed: it is in use";
    assert [ips.path] + Args(DestroySet("myset")) == [ips.path, "destroy", "myset"];
    assert text + "\r\n" == "Set cannot be destroyed: it is in use\r\n";
    TrimRightDropsCutsetSuffix(text, "\r\n", StderrCutset);
    TrimRightUnchanged(text, StderrCutset);
  }

  /** Adding with the suppress-errors token appends it after the address. */
  lemma AddSuppressScenario(ips: Ipset, tool: Tool)
    ensures Add(ips, "myset", "10.0.0.1", [SuppressErrors], tool)
      == RunWithOutput(ips, ["add", "myset", "10.0.0.1", "-!"], tool)
  {
    assert Args(AddEntry("myset", "10.0.0.1", [SuppressErrors])) == ["add", "myset", "10.0.0.1", "-!"];
  }
}
