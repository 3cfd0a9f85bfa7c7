/**
 * The local executor of `pipeliner-executor` (`LocalExecutor`): a step
 * interpreter that runs shell commands through `sh -c`, echoes messages,
 * retries and times out inner steps, and succeeds on every other kind of
 * step without doing anything; and a pipeline loop that runs every step of
 * every stage in order, collecting one result per step, and stops right
 * after the first step that did not succeed.
 *
 * The shell and the deadline are oracles (see `Oracles`). Each method is
 * proved against a function ending in `Run` that takes the oracles'
 * answer functions and the log of the questions asked so far.
 */
module ExecLocal {
  import opened Strings
  import opened Durations
  import opened Oracles
  import opened CorePipeline
  import ExecRuntime

  /** `LocalResult`, without the elapsed time. */
  datatype LocalResult = LocalResult(success: bool, stage: string, output: string)

  /** What running `sh -c <command>` gives: the process's exit and its two outputs, or the message of a spawn error. */
  datatype ShellAnswer =
    | Finished(exitedOk: bool, stdout: string, stderr: string)
    | SpawnError(message: string)

  /** The shell, asked the command line. */
  type Shell = Oracle<string, ShellAnswer>

  /** Whether an inner step finished within its duration, asked once it has run. */
  type Deadline = Oracle<Duration, bool>

  datatype World = World(shell: (nat, string) -> ShellAnswer, inTime: (nat, Duration) -> bool)

  datatype Log = Log(shell: seq<string>, deadline: seq<Duration>)

  /** The result of one step and the log after it. */
  datatype Run = Run(result: LocalResult, log: Log)

  function WorldOf(sh: Shell, deadline: Deadline): World
    reads sh, deadline
  {
    World(sh.answer, deadline.answer)
  }

  function LogOf(sh: Shell, deadline: Deadline): Log
    reads sh, deadline
  {
    Log(sh.asked, deadline.asked)
  }

  const NotImplemented := "Step type not implemented for local execution"

  /** A shell step's result: the exit decides success; the output is stdout unless it is empty, then stderr. */
  function ShellResult(name: string, answer: ShellAnswer): LocalResult {
    match answer
    case Finished(ok, stdout, stderr) => LocalResult(ok, name, if stdout != "" then stdout else stderr)
    case SpawnError(message) => LocalResult(false, name, message)
  }

  /** The message of a retry whose attempts all failed. */
  function RetryMessage(count: nat, last: string): string {
    "Retry failed after " + NatToString(count) + " attempts: " + last
  }

  /** The message of a step that ran past its duration. */
  function TimeoutMessage(d: Duration): string {
    "Timeout after " + NatToString(AsSecs(d)) + " seconds"
  }

  /** `_execute_step_impl`. */
  function StepRun(step: Step, w: World, log: Log): (r: Run)
    decreases step, 1
  {
    var name := ExecRuntime.StepName(step);
    match step.stepType
    case Shell(command) =>
      Run(ShellResult(name, w.shell(|log.shell|, command)), log.(shell := log.shell + [command]))
    case Echo(message) =>
      Run(LocalResult(true, name, message), log)
    case Retry(count, inner) =>
      RetryRun(inner, name, count, count, "", w, log)
    case Timeout(d, inner) =>
      var r := StepRun(inner, w, log);
      var log' := r.log.(deadline := r.log.deadline + [d]);
      if w.inTime(|r.log.deadline|, d) then Run(r.result, log')
      else Run(LocalResult(false, name, TimeoutMessage(d)), log')
    case _ =>
      Run(LocalResult(true, name, NotImplemented), log)
  }

  /**
   * The retry loop with `left` of its `count` attempts still to make and
   * the output of the last failed attempt (empty before the first): the
   * first successful attempt's result is returned unchanged.
   */
  function RetryRun(inner: Step, name: string, count: nat, left: nat, last: string, w: World, log: Log): (r: Run)
    decreases inner, 2, left
  {
    if left == 0 then Run(LocalResult(false, name, RetryMessage(count, last)), log)
    else
      var r := StepRun(inner, w, log);
      if r.result.success then r else RetryRun(inner, name, count, left - 1, r.result.output, w, r.log)
  }

  method ExecuteStep(step: Step, sh: Shell, deadline: Deadline) returns (result: LocalResult)
    modifies sh, deadline
    ensures Run(result, LogOf(sh, deadline)) == StepRun(step, WorldOf(sh, deadline), old(LogOf(sh, deadline)))
    decreases step, 1
  {
    var name := if step.name.Some? then step.name.value else "unnamed";
    match step.stepType {
      case Shell(command) =>
        var answer := sh.Ask(command);
        result := ShellResult(name, answer);
      case Echo(message) =>
        result := LocalResult(true, name, message);
      case Retry(count, inner) =>
        result := ExecuteRetry(inner, name, count, sh, deadline);
      case Timeout(d, inner) =>
        var r := ExecuteStep(inner, sh, deadline);
        var inTime := deadline.Ask(d);
        result := if inTime then r else LocalResult(false, name, TimeoutMessage(d));
      case Stash(_, _, _) =>
        result := LocalResult(true, name, NotImplemented);
      case Unstash(_) =>
        result := LocalResult(true, name, NotImplemented);
      case Input(_, _, _) =>
        result := LocalResult(true, name, NotImplemented);
      case Dir(_, _) =>
        result := LocalResult(true, name, NotImplemented);
      case Script(_) =>
        result := LocalResult(true, name, NotImplemented);
      case Archive(_, _, _) =>
        result := LocalResult(true, name, NotImplemented);
      case Custom(_, _) =>
        result := LocalResult(true, name, NotImplemented);
    }
  }

  /** The `for attempt in 0..count` loop of a retry step. */
  method ExecuteRetry(inner: Step, name: string, count: nat, sh: Shell, deadline: Deadline) returns (result: LocalResult)
    modifies sh, deadline
    ensures Run(result, LogOf(sh, deadline))
         == RetryRun(inner, name, count, count, "", WorldOf(sh, deadline), old(LogOf(sh, deadline)))
    decreases inner, 2
  {
    ghost var w := WorldOf(sh, deadline);
    ghost var full := RetryRun(inner, name, count, count, "", w, LogOf(sh, deadline));
    var lastError := "";
    var attempt := 0;
    while attempt < count
      invariant attempt <= count
      invariant WorldOf(sh, deadline) == w
      invariant RetryRun(inner, name, count, count - attempt, lastError, w, LogOf(sh, deadline)) == full
    {
      var r := ExecuteStep(inner, sh, deadline);
      if r.success {
        return r;
      }
      lastError := r.output;
      attempt := attempt + 1;
    }
    result := LocalResult(false, name, RetryMessage(count, lastError));
  }

  // ---------------------------------------------------------------------
  // The pipeline loop
  // ---------------------------------------------------------------------

  /**
   * `execute` from inside a stage: the steps left of the current stage,
   * then the stages after it, with the results collected so far; a step
   * that does not succeed ends the run with its result last.
   */
  function RunFrom(steps: seq<Step>, stages: seq<Stage>, acc: seq<LocalResult>, w: World, log: Log)
    : (r: (seq<LocalResult>, Log))
    decreases |stages|, |steps|
  {
    if |steps| > 0 then
      var s := StepRun(steps[0], w, log);
      if !s.result.success then (acc + [s.result], s.log)
      else RunFrom(steps[1..], stages, acc + [s.result], w, s.log)
    else if |stages| > 0 then RunFrom(stages[0].steps, stages[1..], acc, w, log)
    else (acc, log)
  }

  /** `LocalExecutor::execute`: every step of every stage in order, stopping after the first unsuccessful one. */
  function ExecuteRun(p: Pipeline, w: World, log: Log): (r: (seq<LocalResult>, Log)) {
    RunFrom([], p.stages, [], w, log)
  }

  method Execute(p: Pipeline, sh: Shell, deadline: Deadline) returns (results: seq<LocalResult>)
    modifies sh, deadline
    ensures (results, LogOf(sh, deadline)) == ExecuteRun(p, WorldOf(sh, deadline), old(LogOf(sh, deadline)))
  {
    ghost var w := WorldOf(sh, deadline);
    ghost var full := ExecuteRun(p, w, LogOf(sh, deadline));
    results := [];
    var i := 0;
    while i < |p.stages|
      invariant 0 <= i <= |p.stages|
      invariant WorldOf(sh, deadline) == w
      invariant RunFrom([], p.stages[i..], results, w, LogOf(sh, deadline)) == full
    {
      var steps := p.stages[i].steps;
      assert p.stages[i..][0] == p.stages[i] && p.stages[i..][1..] == p.stages[i + 1..];
      var j := 0;
      while j < |steps|
        invariant 0 <= j <= |steps|
        invariant WorldOf(sh, deadline) == w
        invariant RunFrom(steps[j..], p.stages[i + 1..], results, w, LogOf(sh, deadline)) == full
      {
        assert steps[j..][0] == steps[j] && steps[j..][1..] == steps[j + 1..];
        var result := ExecuteStep(steps[j], sh, deadline);
        results := results + [result];
        if !result.success {
          return results;
        }
        j := j + 1;
      }
      assert steps[j..] == [];
      i := i + 1;
    }
    assert p.stages[i..] == [];
  }
}
