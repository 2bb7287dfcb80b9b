# ipset command wrapper: a Dafny model

The Go package `ipset` wraps the system `ipset` tool. Each operation (`Create`,
`Destroy`, `SetExists`, `Add`, `Del`, `Flush`) builds an argument vector: a
fixed subcommand keyword, then the positional arguments, then the caller's
options verbatim. `runWithOutput` puts the executable path found once by
`New` in front of that vector and runs the tool once. It then classifies what
happened:

- a zero exit gives no error;
- a non-zero exit gives a structured `*Error` with the exit code, the command
  and the standard error with every trailing `\r`/`\n` removed;
- a failure to start the process is returned unchanged.

`SetExists` reads exit code 1 of `list` as "the set does not exist", not as an
error.

The model has two modules:

- `Strings` (`strings.dfy`) models `strings.TrimRight` with cutset semantics.
  `IsRightTrim` characterises the result: a prefix of the input that does not
  end in a cutset character, where everything removed is a cutset character.
  Lemmas prove that this characterisation has exactly one solution, and that
  trimming is idempotent, removes a whole run of terminators and never touches
  anything before the last non-cutset character.
- `Ipset` (`ipset.dfy`) models the package itself:
  - the handle is a value holding the path;
  - the process run is a parameter `tool`, a function from the full argument
    vector to an `Outcome` (`Success | Exited(code, stderr) | LaunchFailed(cause)`);
  - the Go `error` results are `Option<Failure>`.
  - `Command`, `Args` and `Parse` give the argument shapes the package issues
    as a reference definition. `Args` is the vector each subcommand issues and
    `Parse` reads it back; `Parse` accepts only these six shapes, not
    everything the tool itself accepts. Lemmas in both directions show that an argument
    vector fixes the subcommand and every argument, options included and in
    order.

Each operation is a function that runs the vector `Args` builds for its subcommand, and its contract states that vector word for word. The
contract of `RunWithOutput` states the three-way classification in terms of
what the tool did with exactly `[path] + args`.

## Model

| member | source | states |
|---|---|---|
| `Strings.TrimRight` | ipset/ipset.go:97 | the result is a prefix of the input, does not end in `\r`/`\n` (or is empty), and only cutset characters were removed |
| `Strings.RightTrimUnique` | ipset/ipset.go:97 | at most one string meets those three conditions for given input and cutset |
| `Strings.TrimRightCharacterised` | ipset/ipset.go:97 | any string meeting the three conditions is the trim result, so the conditions define it |
| `Strings.TrimRightUnchanged` | ipset/ipset.go:97 | the trim leaves a string unchanged exactly when it is empty or its last character is outside the cutset |
| `Strings.TrimRightIdempotent` | ipset/ipset.go:97 | trimming twice gives the same as trimming once |
| `Strings.TrimRightDropsCutsetSuffix` | ipset/ipset.go:97 | appending any run of cutset characters (for example several `\r\n`) does not change the result |
| `Strings.TrimRightKeepsUpTo` | ipset/ipset.go:97 | a character outside the cutset, and everything before it (including interior `\r`/`\n`), survives the trim |
| `Strings.TrimRightKeepsHead` | ipset/ipset.go:97 | when the tail holds a non-cutset character, trimming `a + b` equals `a` followed by trimming `b` |
| `Ipset.ParseArgs` | ipset/ipset.go:40-74 | the argument vector of every subcommand reads back as that subcommand with the same set name, type or address, and options in caller order |
| `Ipset.ArgsParse` | ipset/ipset.go:40-74 | every vector of the package's six shapes is exactly the vector its subcommand issues |
| `Ipset.ArgsInjective` | ipset/ipset.go:40-74 | different subcommands or arguments never produce the same vector |
| `Ipset.New` | ipset/ipset.go:30-38 | a successful lookup gives a handle holding the found path; a failed lookup gives no handle and the lookup error wrapped with the "cannot find ipset executable" context |
| `Ipset.RunWithOutput` | ipset/ipset.go:80-104 | the tool sees `[path] + args`; no error iff it exited 0; a structured error iff it exited non-zero, carrying that code, the handle's path, the full vector and the trimmed standard error; a launch failure is returned unchanged and is never a structured error |
| `Ipset.Create` | ipset/ipset.go:40-43 | runs exactly `create setname typename` followed by the options as given |
| `Ipset.Destroy` | ipset/ipset.go:45-47 | runs exactly `destroy setname` |
| `Ipset.ExistsAnswer` | ipset/ipset.go:51-59 | no error gives `(true, nil)`; a structured error with exit code 1 gives `(false, nil)`; any other error gives `false` and that same error |
| `Ipset.SetExists` | ipset/ipset.go:49-60 | runs `list setname`; true iff the tool exited 0; no error iff it exited 0 or 1; another non-zero code gives a structured error with that code and vector; a launch failure is passed on unchanged |
| `Ipset.Add` | ipset/ipset.go:62-65 | runs exactly `add setname addr` followed by the options as given |
| `Ipset.Del` | ipset/ipset.go:67-70 | runs exactly `del setname addr` followed by the options as given |
| `Ipset.Flush` | ipset/ipset.go:72-74 | runs exactly `flush setname` |
| `Ipset.ErrorMessageIsTrimmed` | ipset/ipset.go:91-98 | a structured error's message is exactly `TrimRight(stderr, "\r\n")` and is a fixed point of the trim |
| `Ipset.ErrorNamesCommand` | ipset/ipset.go:26-37 | a handle from `New` keeps its path; every structured error names that path as executable and first argument, and its remaining arguments read back as the failed command |
| `Ipset.CreateScenario` | ipset/ipset.go:40-43 | `Create("myset", "hash:ip")` with a tool that exits 0 on `create myset hash:ip` gives no error |
| `Ipset.MissingSetScenario` | ipset/ipset.go:49-59 | `list myset` exiting 1 with "set myset does not exist\n" gives `(false, nil)` |
| `Ipset.DestroyInUseScenario` | ipset/ipset.go:45-47 | `destroy myset` exiting 2 with a message ending in `\r\n` gives a structured error with code 2 and the message without the terminators |
| `Ipset.AddSuppressScenario` | ipset/ipset.go:62-65 | `Add` with the suppress-errors token `-!` runs `add myset 10.0.0.1 -!` |

## Left out

- `exec.LookPath("ipset")` (ipset/ipset.go:31) searches the filesystem. `New` takes its result as a parameter (`Found(path)` or `LookupFailed(cause)`; a path returned together with an error is a `LookupFailed`, since `New` rejects it too).
- `cmd.Run()`, the child process, the `bytes.Buffer` for standard error and the standard output sink (ipset/ipset.go:83-91) are process I/O. The model replaces them with the `tool` parameter. Nondeterminism of the real system is folded into that parameter: it gives the outcome of this one call.
- `runWithOutput`'s `stdout io.Writer` parameter is dropped. The only caller, `run` (ipset/ipset.go:76-78), passes nil, so `run` and `runWithOutput` are one function in the model.
- `exec.ExitError` and `exec.Cmd` (ipset/ipset.go:17-19) are library types, inspected by a type assertion (line 51) and a type switch (line 92). The structured error keeps the exit code of the embedded `ExitError` and the path and argument vector of the command. The rest of the process state that the embedded `ExitError` exposes to callers (process id, resource usage, system-specific status) and the other `Cmd` fields (including `Stderr`, which still points at the untrimmed buffer) are dropped. The package itself reads back only `ExitCode()` and `cmd.Args` (lines 23, 55). `Cmd.Run` reports a non-zero exit only, so the model's exit code is never 0.
- `Error.Error()` (ipset/ipset.go:22-24) formats the vector, the code and the message through `fmt.Sprintf("%v")`, which is library code not modelled here. Its inputs are exactly the `args`, `exitCode` and `msg` fields of `Error`.
- Standard error is bytes in Go. The model treats each byte as a `char`. Go trims an ASCII cutset byte by byte, so both views trim the same way.
- Concurrency: the package has none. Consistency across concurrent invocations of the tool is the tool's concern.
