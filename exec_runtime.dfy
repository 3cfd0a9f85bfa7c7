/**
 * The step interpreter of `pipeliner-executor` (`StepExecutor`): dispatch on
 * the step kind, retry, timeout, working-directory blocks, stash and
 * unstash, scripts and archives, and the literal `${key}` substitution.
 *
 * Processes, the file system and the deadline of a timeout are oracles
 * (see `Oracles`); the splitting of a command line into words is a given
 * function. Each method is proved against a function of the same name
 * ending in `Run`, which takes the context as a value, the oracles' answer
 * functions and the log of what was asked so far, and gives the result,
 * the new context and the extended log.
 */
module ExecRuntime {
  import opened Wrappers
  import opened Strings
  import opened Assoc
  import opened Durations
  import opened Oracles
  import opened ExecLib
  import opened ExecContext
  import CoreEnvironment
  import opened CorePipeline
  import RustlinePaths

  // ---------------------------------------------------------------------
  // The world
  // ---------------------------------------------------------------------

  /** A process started by `run_command`: the program, its arguments, directory and added variables. */
  datatype ProcessRequest = ProcessRequest(program: string, args: seq<string>, cwd: string, env: Entries<string>)

  /** How a started process ended: it exited (successfully or not), or could not be spawned or waited for. */
  datatype ProcessAnswer = Exited(success: bool) | SpawnFailed(spawnMessage: string) | WaitFailed(waitMessage: string)

  /** The file-system work of stash, unstash, script and archive steps. */
  datatype FsRequest =
    | CreateDirAll(path: string)
    | CopyFiles(pattern: string, dest: string, excludes: seq<string>)
    | CopyAll(from: string, to: string)
    | WriteFile(path: string, content: string)

  type Processes = Oracle<ProcessRequest, ProcessAnswer>

  /** The file system answers None when the operation succeeded, or the error it failed with. */
  type Files = Oracle<FsRequest, Option<ExecError>>

  /** The deadline is asked, for a timeout of the given duration, whether its step finished in time. */
  type Deadline = Oracle<Duration, bool>

  /** `shell_words::split`: the words of a command line, or why it does not parse. */
  type Splitter = string -> Result<seq<string>, string>

  datatype World = World(
    split: Splitter, process: (nat, ProcessRequest) -> ProcessAnswer,
    files: (nat, FsRequest) -> Option<ExecError>, inTime: (nat, Duration) -> bool)

  /** Everything asked of the three oracles so far. */
  datatype Log = Log(process: seq<ProcessRequest>, files: seq<FsRequest>, deadline: seq<Duration>)

  /** The result of a step, the context after it, and the log after it. */
  datatype Run = Run(result: Result<ExecutionStatus, ExecError>, ctx: Ctx, log: Log)

  function WorldOf(split: Splitter, procs: Processes, files: Files, deadline: Deadline): World
    reads procs, files, deadline
  {
    World(split, procs.answer, files.answer, deadline.answer)
  }

  function LogOf(procs: Processes, files: Files, deadline: Deadline): Log
    reads procs, files, deadline
  {
    Log(procs.asked, files.asked, deadline.asked)
  }

  // ---------------------------------------------------------------------
  // Variable substitution
  // ---------------------------------------------------------------------

  /** The placeholder `${key}`. */
  function Placeholder(key: string): (p: string)
    ensures |p| == |key| + 3 && p[..2] == "${" && p[2..|p| - 1] == key && p[|p| - 1] == '}'
  {
    "${" + key + "}"
  }

  /**
   * `resolve_variables`: for each environment entry in iteration order,
   * every literal `${key}` is replaced by the value's display text. Nothing
   * else is touched: no other syntax, no default values, no escapes.
   */
  function ResolveVariables(input: string, vars: Entries<CoreEnvironment.EnvVarValue>): string
    decreases |vars|
  {
    if |vars| == 0 then input
    else ResolveVariables(ReplaceAll(input, Placeholder(vars[0].0), CoreEnvironment.Display(vars[0].1)), vars[1..])
  }

  /** The variables a process is given: each environment entry, displayed. */
  function EnvStrings(vars: Entries<CoreEnvironment.EnvVarValue>): (r: Entries<string>)
    ensures |r| == |vars|
    ensures forall i :: 0 <= i < |vars| ==> r[i] == (vars[i].0, CoreEnvironment.Display(vars[i].1))
  {
    seq(|vars|, i requires 0 <= i < |vars| => (vars[i].0, CoreEnvironment.Display(vars[i].1)))
  }

  // ---------------------------------------------------------------------
  // Processes and files
  // ---------------------------------------------------------------------

  /**
   * `run_command`: the command is resolved, split into words (an unparsable
   * line or one with no words is a StepFailed error without starting
   * anything), and the first word is run with the rest as arguments, in the
   * working directory, with the environment's variables added. The answer
   * is whether it exited successfully.
   */
  function CommandRun(command: string, c: Ctx, w: World, log: Log): (r: (Result<bool, ExecError>, Log))
    ensures r.1.files == log.files && r.1.deadline == log.deadline
    ensures r.1.process == log.process || |r.1.process| == |log.process| + 1
    ensures r.1.process == log.process ==> r.0.Err? && r.0.error.StepFailed?
  {
    var resolved := ResolveVariables(command, c.environment.vars);
    match w.split(resolved)
    case Err(e) => (Err(StepFailed("Failed to parse command: " + e)), log)
    case Ok(parts) =>
      if |parts| == 0 then (Err(StepFailed("Empty command")), log)
      else
        var q := ProcessRequest(parts[0], parts[1..], c.workingDir, EnvStrings(c.environment.vars));
        var a := w.process(|log.process|, q);
        var log' := log.(process := log.process + [q]);
        match a
        case Exited(ok) => (Ok(ok), log')
        case SpawnFailed(m) => (Err(IoError(m)), log')
        case WaitFailed(m) => (Err(IoError(m)), log')
  }

  method RunCommand(command: string, ctx: ExecutionContext, split: Splitter, procs: Processes, files: Files, deadline: Deadline)
    returns (r: Result<bool, ExecError>)
    modifies procs
    ensures (r, LogOf(procs, files, deadline)) == CommandRun(command, ctx.State(), WorldOf(split, procs, files, deadline), old(LogOf(procs, files, deadline)))
  {
    var resolved := ResolveVariables(command, ctx.environment.vars);
    var words := split(resolved);
    if words.Err? {
      return Err(StepFailed("Failed to parse command: " + words.error));
    }
    var parts := words.value;
    if |parts| == 0 {
      return Err(StepFailed("Empty command"));
    }
    var a := procs.Ask(ProcessRequest(parts[0], parts[1..], ctx.workingDir, EnvStrings(ctx.environment.vars)));
    match a {
      case Exited(ok) => r := Ok(ok);
      case SpawnFailed(m) => r := Err(IoError(m));
      case WaitFailed(m) => r := Err(IoError(m));
    }
  }

  /** One question to the file system. */
  function FsRun(q: FsRequest, w: World, log: Log): (r: (Option<ExecError>, Log))
    ensures r.1 == log.(files := log.files + [q])
    ensures r.0 == w.files(|log.files|, q)
  {
    (w.files(|log.files|, q), log.(files := log.files + [q]))
  }

  /** The `copy_files` calls for each pattern in order, stopping at the first error. */
  function CopyEachRun(patterns: seq<string>, dest: string, excludes: seq<string>, w: World, log: Log): (r: (Option<ExecError>, Log))
    ensures r.1.process == log.process && r.1.deadline == log.deadline
    ensures r.0.None? ==> r.1.files == log.files + seq(|patterns|, i requires 0 <= i < |patterns| => CopyFiles(patterns[i], dest, excludes))
    decreases |patterns|
  {
    if |patterns| == 0 then (None, log)
    else
      var (a, log') := FsRun(CopyFiles(patterns[0], dest, excludes), w, log);
      if a.Some? then (a, log')
      else
        var r := CopyEachRun(patterns[1..], dest, excludes, w, log');
        assert r.0.None? ==> r.1.files == log.files + seq(|patterns|, i requires 0 <= i < |patterns| => CopyFiles(patterns[i], dest, excludes)) by {
          if r.0.None? {
            var s := seq(|patterns|, i requires 0 <= i < |patterns| => CopyFiles(patterns[i], dest, excludes));
            var t := seq(|patterns[1..]|, i requires 0 <= i < |patterns[1..]| => CopyFiles(patterns[1..][i], dest, excludes));
            assert s == [CopyFiles(patterns[0], dest, excludes)] + t;
          }
        }
        r
  }

  method CopyEach(patterns: seq<string>, dest: string, excludes: seq<string>, split: Splitter, procs: Processes, files: Files, deadline: Deadline)
    returns (r: Option<ExecError>)
    modifies files
    ensures (r, LogOf(procs, files, deadline)) == CopyEachRun(patterns, dest, excludes, WorldOf(split, procs, files, deadline), old(LogOf(procs, files, deadline)))
  {
    ghost var w := WorldOf(split, procs, files, deadline);
    ghost var full := CopyEachRun(patterns, dest, excludes, w, LogOf(procs, files, deadline));
    var i := 0;
    while i < |patterns|
      invariant 0 <= i <= |patterns|
      invariant WorldOf(split, procs, files, deadline) == w
      invariant CopyEachRun(patterns[i..], dest, excludes, w, LogOf(procs, files, deadline)) == full
    {
      assert patterns[i..][0] == patterns[i] && patterns[i..][1..] == patterns[i + 1..];
      var a := files.Ask(CopyFiles(patterns[i], dest, excludes));
      if a.Some? {
        return a;
      }
      i := i + 1;
    }
    assert patterns[i..] == [];
    r := None;
  }

  // ---------------------------------------------------------------------
  // The interpreter
  // ---------------------------------------------------------------------

  /** The name `execute` marks as the current step: the step's own, or "unnamed". */
  function StepName(step: Step): (n: string)
    ensures step.name.Some? ==> n == step.name.value
    ensures step.name.None? ==> n == "unnamed"
  {
    if step.name.Some? then step.name.value else "unnamed"
  }

  /** A finished process: Success when it exited successfully, Failure otherwise. */
  function ExitStatus(success: bool): (s: ExecutionStatus)
    ensures s == Success <==> success
    ensures !success ==> s == Failure
  {
    if success then Success else Failure
  }

  /**
   * `StepExecutor::execute`: marks the step as current, dispatches on its
   * kind, and clears the marker whatever the outcome.
   */
  function StepRun(step: Step, c: Ctx, w: World, log: Log): (r: Run)
    ensures r.ctx.currentStep.None?
    decreases step, 2
  {
    var r := DispatchRun(step, c.(currentStep := Some(StepName(step))), w, log);
    r.(ctx := r.ctx.(currentStep := None))
  }

  /** The `match` on the step kind in `execute`. */
  function DispatchRun(step: Step, c: Ctx, w: World, log: Log): (r: Run)
    decreases step, 1
  {
    match step.stepType
    case Shell(command) => ShellRun(command, c, w, log)
    case Echo(_) => Run(Ok(Success), c, log)
    case Retry(count, inner) => RetryRun(inner, count + 1, None, count, c, w, log)
    case Timeout(d, inner) => TimeoutRun(inner, d, c, w, log)
    case Stash(name, includes, excludes) => StashRun(name, includes, excludes, c, w, log)
    case Unstash(name) => UnstashRun(name, c, w, log)
    case Input(_, _, _) => Run(Ok(Success), c, log)
    case Dir(path, steps) => DirRun(path, steps, c, w, log)
    case Script(content) => ScriptRun(content, c, w, log)
    case Archive(artifacts, excludes, _) => ArchiveRun(artifacts, excludes, c, w, log)
    case Custom(_, _) => Run(Ok(Success), c, log)
  }

  /**
   * `execute_shell`: the command is resolved here and once more inside
   * `run_command`; a successful exit is Success, any other exit Failure.
   */
  function ShellRun(command: string, c: Ctx, w: World, log: Log): (r: Run)
    ensures r.ctx == c
  {
    var (out, log') := CommandRun(ResolveVariables(command, c.environment.vars), c, w, log);
    Run(if out.Ok? then Ok(ExitStatus(out.value)) else Err(out.error), c, log')
  }

  /**
   * The retry loop with `left` attempts to go and the error of the last
   * failed attempt: any Ok result, whatever its status, ends it at once;
   * with no attempt left the last error is returned.
   */
  function RetryRun(inner: Step, left: nat, last: Option<ExecError>, count: nat, c: Ctx, w: World, log: Log): (r: Run)
    decreases inner, 3, left
  {
    if left == 0 then Run(Err(if last.Some? then last.value else RetryExhausted(count + 1)), c, log)
    else
      var r := StepRun(inner, c, w, log);
      if r.result.Ok? then r
      else RetryRun(inner, left - 1, Some(r.result.error), count, r.ctx, w, r.log)
  }

  /**
   * `execute_timeout`: the inner step's result when it finished in time;
   * otherwise Ok(Timeout). The deadline is asked once the inner step ends.
   */
  function TimeoutRun(inner: Step, d: Duration, c: Ctx, w: World, log: Log): (r: Run)
    decreases inner, 3
  {
    var r := StepRun(inner, c, w, log);
    var inTime := w.inTime(|r.log.deadline|, d);
    Run(if inTime then r.result else Ok(ExecutionStatus.Timeout), r.ctx, r.log.(deadline := r.log.deadline + [d]))
  }

  /**
   * `execute_stash`: the directory `<cwd>/.pipeliner/stashes/<name>` is
   * created, each include pattern copied into it, and only then is the
   * stash recorded.
   */
  function StashRun(name: string, includes: seq<string>, excludes: seq<string>, c: Ctx, w: World, log: Log): (r: Run)
    ensures r.result.Ok? ==> r.result.value == Success && r.ctx == StashOf(c, name, StashPath(c.workingDir, name))
    ensures r.result.Err? ==> r.ctx == c
  {
    var path := StashPath(c.workingDir, name);
    var (made, log1) := FsRun(CreateDirAll(path), w, log);
    if made.Some? then Run(Err(made.value), c, log1)
    else
      var (copied, log2) := CopyEachRun(includes, path, excludes, w, log1);
      if copied.Some? then Run(Err(copied.value), c, log2)
      else Run(Ok(Success), StashOf(c, name, path), log2)
  }

  /** Where a stash of that name is kept. */
  function StashPath(cwd: string, name: string): string {
    RustlinePaths.PathJoin(RustlinePaths.PathJoin(RustlinePaths.PathJoin(cwd, ".pipeliner"), "stashes"), name)
  }

  /**
   * `execute_unstash`: an unknown name is Ok(Failure); a known one is taken
   * out of the stash map (even when the copy back then fails) and its
   * files copied into the working directory.
   */
  function UnstashRun(name: string, c: Ctx, w: World, log: Log): (r: Run)
    ensures r.ctx == UnstashOf(c, name).1
    ensures !HasStashOf(c, name) ==> r.result == Ok(Failure) && r.log == log
    ensures HasStashOf(c, name) ==> r.result.Err? || r.result == Ok(Success)
  {
    var (found, c') := UnstashOf(c, name);
    if found.Some? then
      var (copied, log') := FsRun(CopyAll(found.value, c'.workingDir), w, log);
      Run(if copied.Some? then Err(copied.value) else Ok(Success), c', log')
    else Run(Ok(Failure), c', log)
  }

  /**
   * `execute_dir`: the directory is pushed, the steps run, and the stack
   * popped whatever their result.
   */
  function DirRun(path: string, steps: seq<Step>, c: Ctx, w: World, log: Log): (r: Run)
    decreases steps, 1
  {
    var r := StepsRun(steps, PushDirOf(c, path), w, log);
    Run(r.result, PopDirOf(r.ctx).1, r.log)
  }

  /** `execute_steps`: in order, stopping at the first result other than Ok(Success). */
  function StepsRun(steps: seq<Step>, c: Ctx, w: World, log: Log): (r: Run)
    decreases steps, 0
  {
    if |steps| == 0 then Run(Ok(Success), c, log)
    else
      var r := StepRun(steps[0], c, w, log);
      if r.result == Ok(Success) then StepsRun(steps[1..], r.ctx, w, r.log) else r
  }

  /** Where `execute_script` writes the script. */
  function ScriptPath(cwd: string): string {
    RustlinePaths.PathJoin(RustlinePaths.PathJoin(cwd, ".pipeliner"), "script.sh")
  }

  /** `execute_script`: the content is written to the script file, which is then run with `bash`. */
  function ScriptRun(content: string, c: Ctx, w: World, log: Log): (r: Run)
    ensures r.ctx == c
  {
    var path := ScriptPath(c.workingDir);
    var (written, log1) := FsRun(WriteFile(path, content), w, log);
    if written.Some? then Run(Err(written.value), c, log1)
    else
      var (out, log2) := CommandRun("bash " + path, c, w, log1);
      Run(if out.Ok? then Ok(ExitStatus(out.value)) else Err(out.error), c, log2)
  }

  /** `execute_archive`: `<cwd>/.pipeliner/archive` is created and each artifact pattern copied into it. */
  function ArchiveRun(artifacts: seq<string>, excludes: seq<string>, c: Ctx, w: World, log: Log): (r: Run)
    ensures r.ctx == c
    ensures r.result.Ok? ==> r.result.value == Success
  {
    var dir := RustlinePaths.PathJoin(RustlinePaths.PathJoin(c.workingDir, ".pipeliner"), "archive");
    var (made, log1) := FsRun(CreateDirAll(dir), w, log);
    if made.Some? then Run(Err(made.value), c, log1)
    else
      var (copied, log2) := CopyEachRun(artifacts, dir, excludes, w, log1);
      Run(if copied.Some? then Err(copied.value) else Ok(Success), c, log2)
  }

  // ---------------------------------------------------------------------
  // The interpreter's methods
  // ---------------------------------------------------------------------

  method Execute(step: Step, ctx: ExecutionContext, split: Splitter, procs: Processes, files: Files, deadline: Deadline)
    returns (result: Result<ExecutionStatus, ExecError>)
    modifies ctx, procs, files, deadline
    ensures Run(result, ctx.State(), LogOf(procs, files, deadline))
         == StepRun(step, old(ctx.State()), WorldOf(split, procs, files, deadline), old(LogOf(procs, files, deadline)))
    decreases step, 2
  {
    ctx.SetCurrentStep(StepName(step));
    result := Dispatch(step, ctx, split, procs, files, deadline);
    ctx.ClearCurrentStep();
  }

  method Dispatch(step: Step, ctx: ExecutionContext, split: Splitter, procs: Processes, files: Files, deadline: Deadline)
    returns (result: Result<ExecutionStatus, ExecError>)
    modifies ctx, procs, files, deadline
    ensures Run(result, ctx.State(), LogOf(procs, files, deadline))
         == DispatchRun(step, old(ctx.State()), WorldOf(split, procs, files, deadline), old(LogOf(procs, files, deadline)))
    decreases step, 1
  {
    ghost var c := ctx.State();
    ghost var w := WorldOf(split, procs, files, deadline);
    ghost var log := LogOf(procs, files, deadline);
    match step.stepType {
      case Retry(count, inner) =>
        assert DispatchRun(step, c, w, log) == RetryRun(inner, count + 1, None, count, c, w, log);
        result := ExecuteRetry(inner, count, ctx, split, procs, files, deadline);
      case Timeout(d, inner) =>
        assert DispatchRun(step, c, w, log) == TimeoutRun(inner, d, c, w, log);
        result := ExecuteTimeout(inner, d, ctx, split, procs, files, deadline);
      case Dir(path, steps) =>
        assert DispatchRun(step, c, w, log) == DirRun(path, steps, c, w, log);
        result := ExecuteDir(path, steps, ctx, split, procs, files, deadline);
      case _ =>
        result := DispatchFlat(step, ctx, split, procs, files, deadline);
    }
  }

  /** The steps that run no nested step. */
  method DispatchFlat(step: Step, ctx: ExecutionContext, split: Splitter, procs: Processes, files: Files, deadline: Deadline)
    returns (result: Result<ExecutionStatus, ExecError>)
    requires !step.stepType.Retry? && !step.stepType.Timeout? && !step.stepType.Dir?
    modifies ctx, procs, files, deadline
    ensures Run(result, ctx.State(), LogOf(procs, files, deadline))
         == DispatchRun(step, old(ctx.State()), WorldOf(split, procs, files, deadline), old(LogOf(procs, files, deadline)))
  {
    ghost var c := ctx.State();
    ghost var w := WorldOf(split, procs, files, deadline);
    ghost var log := LogOf(procs, files, deadline);
    match step.stepType {
      case Shell(command) =>
        assert DispatchRun(step, c, w, log) == ShellRun(command, c, w, log);
        result := ExecuteShell(command, ctx, split, procs, files, deadline);
      case Echo(message) =>
        // the resolved message is only logged
        result := Ok(Success);
      case Stash(name, includes, excludes) =>
        assert DispatchRun(step, c, w, log) == StashRun(name, includes, excludes, c, w, log);
        result := ExecuteStash(name, includes, excludes, ctx, split, procs, files, deadline);
      case Unstash(name) =>
        assert DispatchRun(step, c, w, log) == UnstashRun(name, c, w, log);
        result := ExecuteUnstash(name, ctx, split, procs, files, deadline);
      case Input(_, _, _) => result := Ok(Success);
      case Script(content) =>
        assert DispatchRun(step, c, w, log) == ScriptRun(content, c, w, log);
        result := ExecuteScript(content, ctx, split, procs, files, deadline);
      case Archive(artifacts, excludes, _) =>
        assert DispatchRun(step, c, w, log) == ArchiveRun(artifacts, excludes, c, w, log);
        result := ExecuteArchive(artifacts, excludes, ctx, split, procs, files, deadline);
      case Custom(_, _) => result := Ok(Success);
    }
  }

  method ExecuteShell(command: string, ctx: ExecutionContext, split: Splitter, procs: Processes, files: Files, deadline: Deadline)
    returns (result: Result<ExecutionStatus, ExecError>)
    modifies procs
    ensures Run(result, ctx.State(), LogOf(procs, files, deadline))
         == ShellRun(command, ctx.State(), WorldOf(split, procs, files, deadline), old(LogOf(procs, files, deadline)))
  {
    var resolved := ResolveVariables(command, ctx.environment.vars);
    var out := RunCommand(resolved, ctx, split, procs, files, deadline);
    if out.Ok? {
      result := Ok(ExitStatus(out.value));
    } else {
      result := Err(out.error);
    }
  }

  method ExecuteRetry(inner: Step, count: nat, ctx: ExecutionContext, split: Splitter, procs: Processes, files: Files, deadline: Deadline)
    returns (result: Result<ExecutionStatus, ExecError>)
    modifies ctx, procs, files, deadline
    ensures Run(result, ctx.State(), LogOf(procs, files, deadline))
         == RetryRun(inner, count + 1, None, count, old(ctx.State()), WorldOf(split, procs, files, deadline), old(LogOf(procs, files, deadline)))
    decreases inner, 3
  {
    ghost var w := WorldOf(split, procs, files, deadline);
    ghost var full := RetryRun(inner, count + 1, None, count, ctx.State(), w, LogOf(procs, files, deadline));
    var lastError: Option<ExecError> := None;
    var attempt := 0;
    while attempt <= count
      invariant 0 <= attempt <= count + 1
      invariant WorldOf(split, procs, files, deadline) == w
      invariant RetryRun(inner, count + 1 - attempt, lastError, count, ctx.State(), w, LogOf(procs, files, deadline)) == full
    {
      // attempts after the first wait one second, which the model does not keep
      var r := Execute(inner, ctx, split, procs, files, deadline);
      if r.Ok? {
        return r;
      }
      lastError := Some(r.error);
      attempt := attempt + 1;
    }
    result := Err(if lastError.Some? then lastError.value else RetryExhausted(count + 1));
  }

  method ExecuteTimeout(inner: Step, d: Duration, ctx: ExecutionContext, split: Splitter, procs: Processes, files: Files, deadline: Deadline)
    returns (result: Result<ExecutionStatus, ExecError>)
    modifies ctx, procs, files, deadline
    ensures Run(result, ctx.State(), LogOf(procs, files, deadline))
         == TimeoutRun(inner, d, old(ctx.State()), WorldOf(split, procs, files, deadline), old(LogOf(procs, files, deadline)))
    decreases inner, 3
  {
    var r := Execute(inner, ctx, split, procs, files, deadline);
    var inTime := deadline.Ask(d);
    result := if inTime then r else Ok(ExecutionStatus.Timeout);
  }

  method ExecuteStash(name: string, includes: seq<string>, excludes: seq<string>, ctx: ExecutionContext,
                      split: Splitter, procs: Processes, files: Files, deadline: Deadline)
    returns (result: Result<ExecutionStatus, ExecError>)
    modifies ctx, files
    ensures Run(result, ctx.State(), LogOf(procs, files, deadline))
         == StashRun(name, includes, excludes, old(ctx.State()), WorldOf(split, procs, files, deadline), old(LogOf(procs, files, deadline)))
  {
    var path := StashPath(ctx.Cwd(), name);
    var made := files.Ask(CreateDirAll(path));
    if made.Some? {
      return Err(made.value);
    }
    var copied := CopyEach(includes, path, excludes, split, procs, files, deadline);
    if copied.Some? {
      return Err(copied.value);
    }
    ctx.Stash(name, path);
    result := Ok(Success);
  }

  method ExecuteUnstash(name: string, ctx: ExecutionContext, split: Splitter, procs: Processes, files: Files, deadline: Deadline)
    returns (result: Result<ExecutionStatus, ExecError>)
    modifies ctx, files
    ensures Run(result, ctx.State(), LogOf(procs, files, deadline))
         == UnstashRun(name, old(ctx.State()), WorldOf(split, procs, files, deadline), old(LogOf(procs, files, deadline)))
  {
    var found := ctx.Unstash(name);
    if found.Some? {
      var copied := files.Ask(CopyAll(found.value, ctx.Cwd()));
      if copied.Some? {
        return Err(copied.value);
      }
      return Ok(Success);
    }
    result := Ok(Failure);
  }

  method ExecuteDir(path: string, steps: seq<Step>, ctx: ExecutionContext, split: Splitter, procs: Processes, files: Files, deadline: Deadline)
    returns (result: Result<ExecutionStatus, ExecError>)
    modifies ctx, procs, files, deadline
    ensures Run(result, ctx.State(), LogOf(procs, files, deadline))
         == DirRun(path, steps, old(ctx.State()), WorldOf(split, procs, files, deadline), old(LogOf(procs, files, deadline)))
    decreases steps, 1
  {
    ctx.PushDir(path);
    result := ExecuteSteps(steps, ctx, split, procs, files, deadline);
    var _ := ctx.PopDir();
  }

  method ExecuteSteps(steps: seq<Step>, ctx: ExecutionContext, split: Splitter, procs: Processes, files: Files, deadline: Deadline)
    returns (result: Result<ExecutionStatus, ExecError>)
    modifies ctx, procs, files, deadline
    ensures Run(result, ctx.State(), LogOf(procs, files, deadline))
         == StepsRun(steps, old(ctx.State()), WorldOf(split, procs, files, deadline), old(LogOf(procs, files, deadline)))
    decreases steps, 0
  {
    ghost var w := WorldOf(split, procs, files, deadline);
    ghost var full := StepsRun(steps, ctx.State(), w, LogOf(procs, files, deadline));
    var i := 0;
    while i < |steps|
      invariant 0 <= i <= |steps|
      invariant WorldOf(split, procs, files, deadline) == w
      invariant StepsRun(steps[i..], ctx.State(), w, LogOf(procs, files, deadline)) == full
    {
      assert steps[i..][0] == steps[i] && steps[i..][1..] == steps[i + 1..];
      var r := Execute(steps[i], ctx, split, procs, files, deadline);
      if r != Ok(Success) {
        return r;
      }
      i := i + 1;
    }
    assert steps[i..] == [];
    result := Ok(Success);
  }

  method ExecuteScript(content: string, ctx: ExecutionContext, split: Splitter, procs: Processes, files: Files, deadline: Deadline)
    returns (result: Result<ExecutionStatus, ExecError>)
    modifies procs, files
    ensures Run(result, ctx.State(), LogOf(procs, files, deadline))
         == ScriptRun(content, ctx.State(), WorldOf(split, procs, files, deadline), old(LogOf(procs, files, deadline)))
  {
    var path := ScriptPath(ctx.Cwd());
    var written := files.Ask(WriteFile(path, content));
    if written.Some? {
      return Err(written.value);
    }
    var out := RunCommand("bash " + path, ctx, split, procs, files, deadline);
    result := if out.Ok? then Ok(ExitStatus(out.value)) else Err(out.error);
  }

  method ExecuteArchive(artifacts: seq<string>, excludes: seq<string>, ctx: ExecutionContext,
                        split: Splitter, procs: Processes, files: Files, deadline: Deadline)
    returns (result: Result<ExecutionStatus, ExecError>)
    modifies files
    ensures Run(result, ctx.State(), LogOf(procs, files, deadline))
         == ArchiveRun(artifacts, excludes, ctx.State(), WorldOf(split, procs, files, deadline), old(LogOf(procs, files, deadline)))
  {
    var dir := RustlinePaths.PathJoin(RustlinePaths.PathJoin(ctx.Cwd(), ".pipeliner"), "archive");
    var made := files.Ask(CreateDirAll(dir));
    if made.Some? {
      return Err(made.value);
    }
    var copied := CopyEach(artifacts, dir, excludes, split, procs, files, deadline);
    result := if copied.Some? then Err(copied.value) else Ok(Success);
  }
}
