/**
 * The local executor of the `src/` code (`LocalExecutor`): the stage loop,
 * matrix expansion into branches, branch aggregation, post-conditions and
 * the step interpreter with its own retry and timeout rules.
 *
 * The shell and the clock are oracles (see `Oracles`). Each method is
 * proved against a function of the same name ending in `Run`, which takes
 * the oracles' answer functions and the log of everything asked so far and
 * gives the outcome and the extended log.
 */
module RustlineLocal {
  import opened Wrappers
  import opened Strings
  import opened Assoc
  import opened Durations
  import opened Oracles
  import opened RustlineErrors
  import opened RustlineTypes
  import opened RustlineSteps
  import RustlinePost
  import RustlineCore
  import RustlineStage
  import RustlinePipeline
  import RustlineShell
  import RustlineContext

  // ---------------------------------------------------------------------
  // Configuration
  // ---------------------------------------------------------------------

  /** `ExecutorConfig`: only `shell` is ever read while executing. */
  datatype ExecutorConfig = ExecutorConfig(cwd: string, env: map<string, string>, shell: string)

  /** `LocalExecutor::new`: the derived default configuration. */
  function NewExecutor(): (c: ExecutorConfig)
    ensures c.cwd == "" && c.env == map[] && c.shell == ""
  {
    ExecutorConfig("", map[], "")
  }

  /** `with_cwd`: only the directory changes. */
  function WithCwd(c: ExecutorConfig, cwd: string): (r: ExecutorConfig)
    ensures r.cwd == cwd && r.env == c.env && r.shell == c.shell
  {
    ExecutorConfig(cwd, c.env, c.shell)
  }

  /** `with_env`: one variable inserted, overwriting. */
  function WithEnv(c: ExecutorConfig, key: string, value: string): (r: ExecutorConfig)
    ensures key in r.env && r.env[key] == value
    ensures forall k :: k != key ==> (k in r.env <==> k in c.env)
    ensures forall k :: k != key && k in c.env ==> r.env[k] == c.env[k]
    ensures r.cwd == c.cwd && r.shell == c.shell
  {
    ExecutorConfig(c.cwd, c.env[key := value], c.shell)
  }

  /** `with_shell`: only the shell changes. */
  function WithShell(c: ExecutorConfig, shell: string): (r: ExecutorConfig)
    ensures r.shell == shell && r.cwd == c.cwd && r.env == c.env
  {
    ExecutorConfig(c.cwd, c.env, shell)
  }

  /** The shell the main thread runs commands with: the configured one, or "sh" when none is set. */
  function ShellName(c: ExecutorConfig): (s: string)
    ensures s != ""
    ensures c.shell != "" ==> s == c.shell
  {
    if c.shell == "" then "sh" else c.shell
  }

  // ---------------------------------------------------------------------
  // The world: shell and clock oracles, and the log of what was asked
  // ---------------------------------------------------------------------

  /** One `<shell> -c <command>` process: the expanded command, its environment and directory. */
  datatype ShellRequest = ShellRequest(shell: string, command: string, env: map<string, string>, cwd: string)

  type Shell = Oracle<ShellRequest, RustlineShell.ProcessOutput>

  /** The clock is asked, for a step given `duration`, whether it finished within it. */
  type Clock = Oracle<Duration, bool>

  /** What every shell step of one run sees: the shell program, the context's environment and directory. */
  datatype Site = Site(shell: string, env: map<string, string>, cwd: string)

  /** The answer functions of the two oracles. */
  datatype World = World(shell: (nat, ShellRequest) -> RustlineShell.ProcessOutput, inTime: (nat, Duration) -> bool)

  /** Everything asked of the shell and of the clock so far. */
  datatype Log = Log(shell: seq<ShellRequest>, clock: seq<Duration>)

  datatype Run<T> = Run(outcome: Outcome<T>, log: Log)

  /** The configuration `execute_shell` builds from the context. */
  function ShellConfigOf(site: Site): RustlineShell.ShellConfig {
    RustlineShell.ShellConfig(site.cwd, site.env, site.shell, false, None)
  }

  /**
   * The process `ShellCommand::execute` starts for `command`: expanded
   * against the context environment, which is also the process environment.
   */
  function Request(site: Site, command: string): (q: ShellRequest)
    ensures q.command == RustlineShell.Expand(command, site.env)
    ensures q.env == site.env && q.shell == site.shell && q.cwd == site.cwd
  {
    var cmd := RustlineShell.NewShellCommand(ShellConfigOf(site));
    ShellRequest(site.shell, RustlineShell.Expand(command, site.env), RustlineShell.MergedEnv(cmd), site.cwd)
  }

  /**
   * `execute_shell` after the process ended: the outcome of
   * `ShellCommand::execute`, with its (unreachable) non-zero check.
   */
  function ShellStepResult(out: RustlineShell.ProcessOutput): (r: Result<Unit, PipelineError>)
    ensures r.Ok? <==> out.Finished? && out.code == Some(0)
    ensures out.SpawnError? ==> r == Err(Io(out.message))
    ensures out.Finished? && out.code != Some(0) ==>
      r == Err(CommandFailed(if out.code.Some? then out.code.value else -1, out.stderr))
  {
    match RustlineShell.Outcome(out, Duration(0, 0))
    case Err(e) => Err(e)
    case Ok(res) =>
      if !RustlineShell.IsSuccess(res) then Err(CommandFailed(res.exitCode, res.stderr)) else Ok(Unit)
  }

  /** One shell step: one question to the shell. */
  function ShellRun(command: string, site: Site, w: World, log: Log): (r: Run<Unit>)
    ensures r.outcome.Returned?
    ensures r.log == Log(log.shell + [Request(site, command)], log.clock)
  {
    var q := Request(site, command);
    Run(Returned(ShellStepResult(w.shell(|log.shell|, q))), Log(log.shell + [q], log.clock))
  }

  /** Runs one shell command through the shell oracle. */
  method ExecuteShell(command: string, site: Site, sh: Shell, clock: Clock) returns (r: Result<Unit, PipelineError>)
    modifies sh
    ensures Run(Returned(r), Log(sh.asked, clock.asked))
         == ShellRun(command, site, World(sh.answer, clock.answer), Log(old(sh.asked), clock.asked))
  {
    var q := Request(site, command);
    var out := sh.Ask(q);
    r := ShellStepResult(out);
  }

  // ---------------------------------------------------------------------
  // The step interpreter of the main thread (`execute_step`)
  // ---------------------------------------------------------------------

  /**
   * `execute_step` (and its twin `execute_step_arc`, run inside timeout
   * threads): Shell and Echo, Retry with at most `count` attempts,
   * Timeout, and every other kind a successful no-op.
   */
  function StepRun(step: Step, site: Site, w: World, log: Log): (r: Run<Unit>)
    decreases step, 0
  {
    match step.stepType
    case Shell(command) => ShellRun(command, site, w, log)
    case Echo(_) => Run(Returned(Ok(Unit)), log)
    case Retry(count, inner) => RetryRun(inner, count, None, site, w, log)
    case Timeout(d, inner) =>
      var r := StepRun(inner, site, w, log);
      if r.outcome.Panicked? then
        // the thread died without sending: the receiver is disconnected
        Run(Returned(Err(TimeoutError(d))), r.log)
      else
        var late := !w.inTime(|r.log.clock|, d);
        Run(if late then Returned(Err(TimeoutError(d))) else r.outcome, Log(r.log.shell, r.log.clock + [d]))
    case Stash(_, _) => Run(Returned(Ok(Unit)), log)
    case Unstash(_) => Run(Returned(Ok(Unit)), log)
    case Input(_, _) => Run(Returned(Ok(Unit)), log)
    case Dir(_, _) => Run(Returned(Ok(Unit)), log)
  }

  /**
   * The retry loop with `left` attempts remaining and the error of the last
   * failed attempt: the first Ok ends it, a panic propagates, and when no
   * attempt is left the last error is returned — or, with none recorded
   * (count 0), `last_error.unwrap()` panics.
   */
  function RetryRun(inner: Step, left: nat, last: Option<PipelineError>, site: Site, w: World, log: Log): (r: Run<Unit>)
    decreases inner, 1, left
  {
    if left == 0 then
      Run(if last.None? then Panicked else Returned(Err(last.value)), log)
    else
      var r := StepRun(inner, site, w, log);
      if r.outcome.Panicked? || r.outcome.result.Ok? then r
      else RetryRun(inner, left - 1, Some(r.outcome.result.error), site, w, r.log)
  }

  method ExecuteStep(step: Step, site: Site, sh: Shell, clock: Clock) returns (o: Outcome<Unit>)
    modifies sh, clock
    ensures Run(o, Log(sh.asked, clock.asked))
         == StepRun(step, site, World(sh.answer, clock.answer), Log(old(sh.asked), old(clock.asked)))
    decreases step
  {
    ghost var w := World(sh.answer, clock.answer);
    match step.stepType {
      case Shell(command) =>
        var r := ExecuteShell(command, site, sh, clock);
        o := Returned(r);
      case Echo(_) =>
        o := Returned(Ok(Unit));
      case Retry(count, inner) =>
        ghost var log0 := Log(sh.asked, clock.asked);
        var lastError: Option<PipelineError> := None;
        var succeeded := false;
        var attempt := 0;
        while attempt < count && !succeeded
          invariant attempt <= count
          invariant sh.answer == w.shell && clock.answer == w.inTime
          invariant succeeded ==>
            RetryRun(inner, count, None, site, w, log0) == Run(Returned(Ok(Unit)), Log(sh.asked, clock.asked))
          invariant !succeeded ==>
            RetryRun(inner, count, None, site, w, log0)
            == RetryRun(inner, count - attempt, lastError, site, w, Log(sh.asked, clock.asked))
          decreases count - attempt, if succeeded then 0 else 1
        {
          ghost var before := Log(sh.asked, clock.asked);
          var r := ExecuteStep(inner, site, sh, clock);
          assert RetryRun(inner, count - attempt, lastError, site, w, before)
              == (if r.Panicked? || r.result.Ok? then Run(r, Log(sh.asked, clock.asked))
                  else RetryRun(inner, count - attempt - 1, Some(r.result.error), site, w, Log(sh.asked, clock.asked)));
          match r {
            case Panicked =>
              return Panicked;
            case Returned(Ok(u)) =>
              assert u == Unit;
              succeeded := true;
            case Returned(Err(e)) =>
              lastError := Some(e);
              attempt := attempt + 1;
          }
        }
        if !succeeded {
          if lastError.None? {
            return Panicked;
          }
          return Returned(Err(lastError.value));
        }
        o := Returned(Ok(Unit));
      case Timeout(d, inner) =>
        var r := ExecuteStep(inner, site, sh, clock);
        if r.Panicked? {
          o := Returned(Err(TimeoutError(d)));
        } else {
          var inTime := clock.Ask(d);
          o := if inTime then r else Returned(Err(TimeoutError(d)));
        }
      case Stash(_, _) =>
        o := Returned(Ok(Unit));
      case Unstash(_) =>
        o := Returned(Ok(Unit));
      case Input(_, _) =>
        o := Returned(Ok(Unit));
      case Dir(_, _) =>
        o := Returned(Ok(Unit));
    }
  }

  /** `execute_steps`: in order, stopping at the first error or panic; Success otherwise. */
  function StepsRun(steps: seq<Step>, site: Site, w: World, log: Log): (r: Run<StageResult>)
    ensures r.outcome.Returned? && r.outcome.result.Ok? ==> r.outcome.result.value == Success
    decreases |steps|
  {
    if |steps| == 0 then Run(Returned(Ok(Success)), log)
    else
      var r := StepRun(steps[0], site, w, log);
      match r.outcome
      case Panicked => Run(Panicked, r.log)
      case Returned(Err(e)) => Run(Returned(Err(e)), r.log)
      case Returned(Ok(_)) => StepsRun(steps[1..], site, w, r.log)
  }

  method ExecuteSteps(steps: seq<Step>, site: Site, sh: Shell, clock: Clock) returns (o: Outcome<StageResult>)
    modifies sh, clock
    ensures Run(o, Log(sh.asked, clock.asked))
         == StepsRun(steps, site, World(sh.answer, clock.answer), Log(old(sh.asked), old(clock.asked)))
  {
    ghost var w := World(sh.answer, clock.answer);
    ghost var log0 := Log(sh.asked, clock.asked);
    var i := 0;
    while i < |steps|
      invariant 0 <= i <= |steps|
      invariant sh.answer == w.shell && clock.answer == w.inTime
      invariant StepsRun(steps[i..], site, w, Log(sh.asked, clock.asked)) == StepsRun(steps, site, w, log0)
      decreases |steps| - i
    {
      assert steps[i..][0] == steps[i] && steps[i..][1..] == steps[i + 1..];
      var r := ExecuteStep(steps[i], site, sh, clock);
      match r {
        case Panicked => return Panicked;
        case Returned(Err(e)) => return Returned(Err(e));
        case Returned(Ok(_)) =>
      }
      i := i + 1;
    }
    assert steps[i..] == [];
    o := Returned(Ok(Success));
  }

  // ---------------------------------------------------------------------
  // Branch threads (`execute_stage_static` and friends)
  // ---------------------------------------------------------------------

  /** Branch threads always run commands with "sh". */
  function StaticSite(site: Site): (s: Site)
    ensures s.shell == "sh" && s.env == site.env && s.cwd == site.cwd
  {
    Site("sh", site.env, site.cwd)
  }

  /** `execute_step_static`: Shell runs, every other kind (Retry and Timeout included) does nothing. */
  function StaticStepRun(step: Step, site: Site, w: World, log: Log): (r: Run<Unit>)
    ensures r.outcome.Returned? && r.log.clock == log.clock
    ensures !step.stepType.Shell? ==> r == Run(Returned(Ok(Unit)), log)
  {
    match step.stepType
    case Shell(command) => ShellRun(command, site, w, log)
    case _ => Run(Returned(Ok(Unit)), log)
  }

  /** `execute_steps_static`: in order, stopping at the first error. */
  function StaticStepsRun(steps: seq<Step>, site: Site, w: World, log: Log): (r: Run<StageResult>)
    ensures r.outcome.Returned? && r.log.clock == log.clock
    ensures r.outcome.result.Ok? ==> r.outcome.result.value == Success
    decreases |steps|
  {
    if |steps| == 0 then Run(Returned(Ok(Success)), log)
    else
      var r := StaticStepRun(steps[0], site, w, log);
      if r.outcome.result.Err? then Run(Returned(Err(r.outcome.result.error)), r.log)
      else StaticStepsRun(steps[1..], site, w, r.log)
  }

  /**
   * `execute_stage_static`: the branch's own parallel branches (an error
   * ends it), then its steps; matrix, agent, when and post are ignored.
   */
  function StaticStageRun(stage: RustlineStage.Stage, site: Site, w: World, log: Log): (r: Run<StageResult>)
    ensures r.outcome.Returned? && r.log.clock == log.clock
    ensures r.outcome.result.Ok? ==> r.outcome.result.value == Success
    decreases stage, 2
  {
    var b := if |stage.parallel| > 0 then StaticBranchesRun(stage.parallel, site, w, log)
             else Run(Returned(Ok(Success)), log);
    if b.outcome.result.Err? then b
    else if |stage.parallel| > 0 || |stage.steps| > 0 then StaticStepsRun(stage.steps, site, w, b.log)
    else Run(Returned(Ok(Success)), b.log)
  }

  /**
   * The results vector of `execute_parallel_branches[_static]`: every branch
   * runs, and its result is pushed. The threads are taken to finish in
   * declaration order.
   */
  function BranchResults(bs: seq<RustlineStage.ParallelBranch>, site: Site, w: World, log: Log)
    : (r: (seq<Result<StageResult, PipelineError>>, Log))
    ensures |r.0| == |bs| && r.1.clock == log.clock
    ensures forall i :: 0 <= i < |r.0| && r.0[i].Ok? ==> r.0[i].value == Success
    decreases bs, 1
  {
    if |bs| == 0 then ([], log)
    else
      var first := StaticStageRun(bs[0].stage, site, w, log);
      var rest := BranchResults(bs[1..], site, w, first.log);
      ([first.outcome.result] + rest.0, rest.1)
  }

  /**
   * The aggregation of the results vector: Success when no entry is an
   * error, and otherwise the first error entry.
   */
  function Aggregate(results: seq<Result<StageResult, PipelineError>>): (r: Result<StageResult, PipelineError>)
    ensures r.Ok? <==> forall i :: 0 <= i < |results| ==> results[i].Ok?
    ensures r.Ok? ==> r.value == Success
    ensures r.Err? ==>
      (exists i :: 0 <= i < |results| && results[i] == r && forall j :: 0 <= j < i ==> results[j].Ok?)
  {
    if |results| == 0 then Ok(Success)
    else if results[0].Err? then results[0]
    else
      var r := Aggregate(results[1..]);
      assert forall i :: 1 <= i < |results| ==> results[i] == results[1..][i - 1];
      if r.Err? then
        var i :| 0 <= i < |results[1..]| && results[1..][i] == r && forall j :: 0 <= j < i ==> results[1..][j].Ok?;
        assert results[i + 1] == r;
        r
      else r
  }

  /** `execute_parallel_branches`: run every branch, then aggregate. */
  function StaticBranchesRun(bs: seq<RustlineStage.ParallelBranch>, site: Site, w: World, log: Log)
    : (r: Run<StageResult>)
    ensures r.outcome.Returned? && r.log.clock == log.clock
    ensures r.outcome.result.Ok? ==> r.outcome.result.value == Success
    decreases bs, 2
  {
    var results := BranchResults(bs, site, w, log);
    Run(Returned(Aggregate(results.0)), results.1)
  }

  method ExecuteStageStatic(stage: RustlineStage.Stage, site: Site, sh: Shell, clock: Clock) returns (r: Result<StageResult, PipelineError>)
    modifies sh
    ensures Run(Returned(r), Log(sh.asked, clock.asked))
         == StaticStageRun(stage, site, World(sh.answer, clock.answer), Log(old(sh.asked), clock.asked))
    decreases stage, 2
  {
    ghost var w := World(sh.answer, clock.answer);
    ghost var log0 := Log(sh.asked, clock.asked);
    if |stage.parallel| > 0 {
      var b := ExecuteBranchesStatic(stage.parallel, site, sh, clock);
      if b.Err? {
        return Err(b.error);
      }
    }
    if |stage.parallel| > 0 || |stage.steps| > 0 {
      r := ExecuteStepsStatic(stage.steps, site, sh, clock);
      return;
    }
    r := Ok(Success);
  }

  method ExecuteBranchesStatic(bs: seq<RustlineStage.ParallelBranch>, site: Site, sh: Shell, clock: Clock)
    returns (r: Result<StageResult, PipelineError>)
    modifies sh
    ensures Run(Returned(r), Log(sh.asked, clock.asked))
         == StaticBranchesRun(bs, site, World(sh.answer, clock.answer), Log(old(sh.asked), clock.asked))
    decreases bs, 2
  {
    ghost var w := World(sh.answer, clock.answer);
    ghost var full := BranchResults(bs, site, w, Log(sh.asked, clock.asked));
    var results: seq<Result<StageResult, PipelineError>> := [];
    var i := 0;
    while i < |bs|
      invariant 0 <= i <= |bs|
      invariant sh.answer == w.shell
      invariant var tail := BranchResults(bs[i..], site, w, Log(sh.asked, clock.asked));
        results + tail.0 == full.0 && tail.1 == full.1
      decreases |bs| - i
    {
      assert bs[i..][0] == bs[i] && bs[i..][1..] == bs[i + 1..];
      var res := ExecuteStageStatic(bs[i].stage, site, sh, clock);
      results := results + [res];
      i := i + 1;
    }
    assert bs[i..] == [];
    assert results == full.0 && Log(sh.asked, clock.asked) == full.1;
    r := Aggregate(results);
  }

  method ExecuteStepsStatic(steps: seq<Step>, site: Site, sh: Shell, clock: Clock) returns (r: Result<StageResult, PipelineError>)
    modifies sh
    ensures Run(Returned(r), Log(sh.asked, clock.asked))
         == StaticStepsRun(steps, site, World(sh.answer, clock.answer), Log(old(sh.asked), clock.asked))
  {
    ghost var w := World(sh.answer, clock.answer);
    ghost var log0 := Log(sh.asked, clock.asked);
    var i := 0;
    while i < |steps|
      invariant 0 <= i <= |steps|
      invariant sh.answer == w.shell
      invariant StaticStepsRun(steps[i..], site, w, Log(sh.asked, clock.asked)) == StaticStepsRun(steps, site, w, log0)
      decreases |steps| - i
    {
      assert steps[i..][0] == steps[i] && steps[i..][1..] == steps[i + 1..];
      if steps[i].stepType.Shell? {
        var res := ExecuteShell(steps[i].stepType.command, site, sh, clock);
        if res.Err? {
          return Err(res.error);
        }
      }
      i := i + 1;
    }
    assert steps[i..] == [];
    r := Ok(Success);
  }

  // ---------------------------------------------------------------------
  // Matrix stages
  // ---------------------------------------------------------------------

  /** The `export k=v` shell step of one matrix pair. */
  function ExportStep(pair: (string, string)): (s: Step)
    ensures s == NewStep(Shell("export " + pair.0 + "=" + pair.1))
  {
    NewStep(Shell("export " + pair.0 + "=" + pair.1))
  }

  /**
   * The export steps in front of a branch's steps: each pair is inserted at
   * index 0, so they come out in the reverse of the pair order.
   */
  function ExportSteps(combo: RustlineCore.Combo): (r: seq<Step>)
    ensures |r| == |combo|
    ensures forall i :: 0 <= i < |combo| ==> r[i] == ExportStep(combo[|combo| - 1 - i])
  {
    if |combo| == 0 then []
    else [ExportStep(combo[|combo| - 1])] + ExportSteps(combo[..|combo| - 1])
  }

  /** The "k_v" label of each pair, in pair order. */
  function PairLabels(combo: RustlineCore.Combo): (r: seq<string>)
    ensures |r| == |combo|
    ensures forall i :: 0 <= i < |combo| ==> r[i] == combo[i].0 + "_" + combo[i].1
  {
    if |combo| == 0 then [] else [combo[0].0 + "_" + combo[0].1] + PairLabels(combo[1..])
  }

  /** The branch of one combination: named by its labels joined with '-', the same name for its stage. */
  function MatrixBranch(stage: RustlineStage.Stage, combo: RustlineCore.Combo): (b: RustlineStage.ParallelBranch)
    ensures b.name == Join(PairLabels(combo), "-") && b.stage.name == b.name
    ensures b.stage == RustlineStage.NewStage(b.name, ExportSteps(combo) + stage.steps)
  {
    var name := Join(PairLabels(combo), "-");
    RustlineStage.ParallelBranch(name, RustlineStage.NewStage(name, ExportSteps(combo) + stage.steps))
  }

  /** One branch per combination of the stage's matrix, in combination order. */
  function MatrixBranches(stage: RustlineStage.Stage): (r: seq<RustlineStage.ParallelBranch>)
    requires stage.matrix.Some?
    ensures |r| == |RustlineCore.Combinations(stage.matrix.value)|
    ensures forall i :: 0 <= i < |r| ==> r[i] == MatrixBranch(stage, RustlineCore.Combinations(stage.matrix.value)[i])
  {
    var combos := RustlineCore.Combinations(stage.matrix.value);
    seq(|combos|, i requires 0 <= i < |combos| => MatrixBranch(stage, combos[i]))
  }

  /** The branch construction loop of `execute_stage`. */
  method BuildMatrixBranches(stage: RustlineStage.Stage) returns (branches: seq<RustlineStage.ParallelBranch>)
    requires stage.matrix.Some?
    ensures branches == MatrixBranches(stage)
  {
    var combinations := RustlineCore.GenerateCombinations(stage.matrix.value);
    branches := [];
    var i := 0;
    while i < |combinations|
      invariant 0 <= i <= |combinations|
      invariant |branches| == i
      invariant forall k :: 0 <= k < i ==> branches[k] == MatrixBranch(stage, combinations[k])
      decreases |combinations| - i
    {
      var combo := combinations[i];
      var branchName := Join(PairLabels(combo), "-");
      var branchSteps := stage.steps;
      var j := 0;
      while j < |combo|
        invariant 0 <= j <= |combo|
        invariant branchSteps == ExportSteps(combo[..j]) + stage.steps
        decreases |combo| - j
      {
        assert combo[..j + 1][..j] == combo[..j];
        branchSteps := [ExportStep(combo[j])] + branchSteps;
        j := j + 1;
      }
      assert combo[..j] == combo;
      branches := branches + [RustlineStage.ParallelBranch(branchName, RustlineStage.NewStage(branchName, branchSteps))];
      i := i + 1;
    }
  }

  // ---------------------------------------------------------------------
  // Stages (`execute_stage`)
  // ---------------------------------------------------------------------

  /** The post-conditions of a stage, each selected by `should_execute(result, None)`. */
  function PostsRun(posts: seq<RustlinePost.PostCondition>, result: StageResult, site: Site, w: World, log: Log)
    : (r: Run<Unit>)
    decreases |posts|
  {
    if |posts| == 0 then Run(Returned(Ok(Unit)), log)
    else if !RustlinePost.ShouldExecute(posts[0], result, None) then PostsRun(posts[1..], result, site, w, log)
    else
      var s := StepsRun(RustlinePost.Steps(posts[0]), site, w, log);
      match s.outcome
      case Panicked => Run(Panicked, s.log)
      case Returned(Err(e)) => Run(Returned(Err(e)), s.log)
      case Returned(Ok(_)) => PostsRun(posts[1..], result, site, w, s.log)
  }

  /**
   * `execute_stage`: a matrix stage is only its branches; otherwise the
   * parallel branches (an error ends the stage), then the steps, then the
   * posts against the steps' result.
   */
  function StageRun(stage: RustlineStage.Stage, site: Site, w: World, log: Log): (r: Run<StageResult>)
    ensures r.outcome.Returned? && r.outcome.result.Ok? ==> r.outcome.result.value == Success
  {
    if stage.matrix.Some? then StaticBranchesRun(MatrixBranches(stage), StaticSite(site), w, log)
    else
      var b := if |stage.parallel| > 0 then StaticBranchesRun(stage.parallel, StaticSite(site), w, log)
               else Run(Returned(Ok(Success)), log);
      if b.outcome.result.Err? then b
      else
        var s := if |stage.parallel| > 0 || |stage.steps| > 0 then StepsRun(stage.steps, site, w, b.log)
                 else Run(Returned(Ok(Success)), b.log);
        match s.outcome
        case Panicked => s
        case Returned(Err(_)) => s
        case Returned(Ok(result)) =>
          var p := PostsRun(stage.post, result, site, w, s.log);
          match p.outcome
          case Panicked => Run(Panicked, p.log)
          case Returned(Err(e)) => Run(Returned(Err(e)), p.log)
          case Returned(Ok(_)) => Run(Returned(Ok(result)), p.log)
  }

  method ExecutePosts(posts: seq<RustlinePost.PostCondition>, result: StageResult, site: Site, sh: Shell, clock: Clock)
    returns (o: Outcome<Unit>)
    modifies sh, clock
    ensures Run(o, Log(sh.asked, clock.asked))
         == PostsRun(posts, result, site, World(sh.answer, clock.answer), Log(old(sh.asked), old(clock.asked)))
  {
    ghost var w := World(sh.answer, clock.answer);
    ghost var log0 := Log(sh.asked, clock.asked);
    var i := 0;
    while i < |posts|
      invariant 0 <= i <= |posts|
      invariant sh.answer == w.shell && clock.answer == w.inTime
      invariant PostsRun(posts[i..], result, site, w, Log(sh.asked, clock.asked)) == PostsRun(posts, result, site, w, log0)
      decreases |posts| - i
    {
      assert posts[i..][0] == posts[i] && posts[i..][1..] == posts[i + 1..];
      if RustlinePost.ShouldExecute(posts[i], result, None) {
        var s := ExecuteSteps(RustlinePost.Steps(posts[i]), site, sh, clock);
        match s {
          case Panicked => return Panicked;
          case Returned(Err(e)) => return Returned(Err(e));
          case Returned(Ok(_)) =>
        }
      }
      i := i + 1;
    }
    assert posts[i..] == [];
    o := Returned(Ok(Unit));
  }

  method ExecuteStage(stage: RustlineStage.Stage, site: Site, sh: Shell, clock: Clock) returns (o: Outcome<StageResult>)
    modifies sh, clock
    ensures Run(o, Log(sh.asked, clock.asked))
         == StageRun(stage, site, World(sh.answer, clock.answer), Log(old(sh.asked), old(clock.asked)))
  {
    if stage.matrix.Some? {
      var branches := BuildMatrixBranches(stage);
      var r := ExecuteBranchesStatic(branches, StaticSite(site), sh, clock);
      return Returned(r);
    }
    if |stage.parallel| > 0 {
      var b := ExecuteBranchesStatic(stage.parallel, StaticSite(site), sh, clock);
      if b.Err? {
        return Returned(Err(b.error));
      }
    }
    var result: StageResult;
    if |stage.parallel| > 0 || |stage.steps| > 0 {
      var s := ExecuteSteps(stage.steps, site, sh, clock);
      match s {
        case Panicked => return Panicked;
        case Returned(Err(e)) => return Returned(Err(e));
        case Returned(Ok(res)) => result := res;
      }
    } else {
      result := Success;
    }
    var p := ExecutePosts(stage.post, result, site, sh, clock);
    match p {
      case Panicked => return Panicked;
      case Returned(Err(e)) => return Returned(Err(e));
      case Returned(Ok(_)) =>
    }
    o := Returned(Ok(result));
  }

  // ---------------------------------------------------------------------
  // The pipeline (`execute`)
  // ---------------------------------------------------------------------

  /** Where the stage loop ended: it left early with an outcome, or went through every stage. */
  datatype StagesEnd =
    | Stopped(outcome: Outcome<StageResult>, log: Log, recorded: Entries<StageResult>)
    | Completed(log: Log, recorded: Entries<StageResult>)

  /**
   * The stage loop: an error or panic leaves at once; otherwise the result
   * is recorded under the stage's name, and a failed result ends the run
   * when the pipeline has no retry option.
   */
  function StagesFrom(stages: seq<RustlineStage.Stage>, retryNone: bool, site: Site, w: World, log: Log,
                      recorded: Entries<StageResult>): (r: StagesEnd)
    decreases |stages|
  {
    if |stages| == 0 then Completed(log, recorded)
    else
      var s := StageRun(stages[0], site, w, log);
      if s.outcome.Panicked? || s.outcome.result.Err? then Stopped(s.outcome, s.log, recorded)
      else
        var rec := Insert(recorded, stages[0].name, s.outcome.result.value);
        if IsFailure(s.outcome.result.value) && retryNone then Stopped(s.outcome, s.log, rec)
        else StagesFrom(stages[1..], retryNone, site, w, s.log, rec)
  }

  /**
   * The pipeline post-conditions: each runs when there is a recorded stage
   * result (the map's last value) and it selects that result.
   */
  function PipelinePostsRun(posts: seq<RustlinePost.PostCondition>, recorded: Entries<StageResult>,
                            site: Site, w: World, log: Log): (r: Run<StageResult>)
    decreases |posts|
  {
    if |posts| == 0 then Run(Returned(Ok(Success)), log)
    else if |recorded| == 0 || !RustlinePost.ShouldExecute(posts[0], recorded[|recorded| - 1].1, None) then
      PipelinePostsRun(posts[1..], recorded, site, w, log)
    else
      var s := StepsRun(RustlinePost.Steps(posts[0]), site, w, log);
      match s.outcome
      case Panicked => Run(Panicked, s.log)
      case Returned(Err(e)) => Run(Returned(Err(e)), s.log)
      case Returned(Ok(_)) => PipelinePostsRun(posts[1..], recorded, site, w, s.log)
  }

  /** The context environment: the process environment with the pipeline's variables inserted. */
  function RunEnv(p: RustlinePipeline.Pipeline, processEnv: Entries<string>): Entries<string> {
    InsertAll(processEnv, p.environment.vars)
  }

  /** What every main-thread shell step of `execute` sees. */
  function RunSite(p: RustlinePipeline.Pipeline, c: ExecutorConfig, processEnv: Entries<string>, cwd: string): Site {
    Site(ShellName(c), ToMap(RunEnv(p, processEnv)), cwd)
  }

  /**
   * `LocalExecutor::execute`, given the process environment, the current
   * directory and the fresh pipeline id that `PipelineContext::new` reads.
   */
  function ExecuteRun(p: RustlinePipeline.Pipeline, c: ExecutorConfig, processEnv: Entries<string>, cwd: string,
                      w: World, log: Log): (r: Run<StageResult>)
  {
    var site := RunSite(p, c, processEnv, cwd);
    match StagesFrom(p.stages, p.options.retry.None?, site, w, log, [])
    case Stopped(o, log', _) => Run(o, log')
    case Completed(log', recorded) => PipelinePostsRun(p.post, recorded, site, w, log')
  }

  /** The stage loop of `execute`, recording each stage's result in the context. */
  method ExecuteStages(stages: seq<RustlineStage.Stage>, retryNone: bool, site: Site,
                       context: RustlineContext.PipelineContext, sh: Shell, clock: Clock)
    returns (stopped: bool, o: Outcome<StageResult>)
    requires context.Valid()
    modifies sh, clock, context
    ensures context.Valid()
    ensures var e := StagesFrom(stages, retryNone, site, World(sh.answer, clock.answer),
                                Log(old(sh.asked), old(clock.asked)), old(context.stageResults));
      (stopped <==> e.Stopped?) && (stopped ==> o == e.outcome)
      && e.log == Log(sh.asked, clock.asked) && e.recorded == context.stageResults
    ensures context.env == old(context.env) && context.cwd == old(context.cwd)
  {
    ghost var w := World(sh.answer, clock.answer);
    ghost var full := StagesFrom(stages, retryNone, site, w, Log(sh.asked, clock.asked), context.stageResults);
    ghost var env0 := context.env;
    ghost var cwd0 := context.cwd;
    var i := 0;
    while i < |stages|
      invariant 0 <= i <= |stages|
      invariant sh.answer == w.shell && clock.answer == w.inTime
      invariant context.Valid() && context.env == env0 && context.cwd == cwd0
      invariant StagesFrom(stages[i..], retryNone, site, w, Log(sh.asked, clock.asked), context.stageResults) == full
      decreases |stages| - i
    {
      var stage := stages[i];
      assert stages[i..][0] == stage && stages[i..][1..] == stages[i + 1..];
      var r := ExecuteStage(stage, site, sh, clock);
      match r {
        case Panicked => return true, Panicked;
        case Returned(Err(e)) => return true, Returned(Err(e));
        case Returned(Ok(result)) =>
          context.RecordStageResult(stage.name, result);
          if IsFailure(result) && retryNone {
            return true, Returned(Ok(result));
          }
      }
      i := i + 1;
    }
    assert stages[i..] == [];
    stopped, o := false, Returned(Ok(Success));
  }

  /** The pipeline post-conditions of `execute`, selected by the last recorded stage result. */
  method ExecutePipelinePosts(posts: seq<RustlinePost.PostCondition>, context: RustlineContext.PipelineContext,
                              site: Site, sh: Shell, clock: Clock) returns (o: Outcome<StageResult>)
    modifies sh, clock
    ensures Run(o, Log(sh.asked, clock.asked))
         == PipelinePostsRun(posts, context.stageResults, site, World(sh.answer, clock.answer),
                             Log(old(sh.asked), old(clock.asked)))
  {
    ghost var w := World(sh.answer, clock.answer);
    ghost var full := PipelinePostsRun(posts, context.stageResults, site, w, Log(sh.asked, clock.asked));
    var j := 0;
    while j < |posts|
      invariant 0 <= j <= |posts|
      invariant sh.answer == w.shell && clock.answer == w.inTime
      invariant PipelinePostsRun(posts[j..], context.stageResults, site, w, Log(sh.asked, clock.asked)) == full
      decreases |posts| - j
    {
      assert posts[j..][0] == posts[j] && posts[j..][1..] == posts[j + 1..];
      var results := context.stageResults;
      if |results| > 0 && RustlinePost.ShouldExecute(posts[j], results[|results| - 1].1, None) {
        var s := ExecuteSteps(RustlinePost.Steps(posts[j]), site, sh, clock);
        match s {
          case Panicked => return Panicked;
          case Returned(Err(e)) => return Returned(Err(e));
          case Returned(Ok(_)) =>
        }
      }
      j := j + 1;
    }
    assert posts[j..] == [];
    o := Returned(Ok(Success));
  }

  method Execute(p: RustlinePipeline.Pipeline, c: ExecutorConfig, processEnv: Entries<string>, cwd: string,
                 pipelineId: string, sh: Shell, clock: Clock) returns (o: Outcome<StageResult>)
    requires Distinct(processEnv)
    modifies sh, clock
    ensures Run(o, Log(sh.asked, clock.asked))
         == ExecuteRun(p, c, processEnv, cwd, World(sh.answer, clock.answer), Log(old(sh.asked), old(clock.asked)))
  {
    var context := new RustlineContext.PipelineContext(processEnv, cwd, pipelineId);
    var vars := p.environment.vars;
    var k := 0;
    while k < |vars|
      invariant 0 <= k <= |vars|
      invariant context.Valid() && context.cwd == cwd && context.stageResults == []
      invariant sh.asked == old(sh.asked) && clock.asked == old(clock.asked)
      invariant InsertAll(context.env, vars[k..]) == RunEnv(p, processEnv)
      decreases |vars| - k
    {
      assert vars[k..][0] == vars[k] && vars[k..][1..] == vars[k + 1..];
      context.SetEnv(vars[k].0, vars[k].1);
      k := k + 1;
    }
    assert vars[k..] == [];
    var site := Site(ShellName(c), ToMap(context.env), context.cwd);
    assert site == RunSite(p, c, processEnv, cwd);
    ghost var w := World(sh.answer, clock.answer);
    ghost var e := StagesFrom(p.stages, p.options.retry.None?, site, w, Log(sh.asked, clock.asked), []);
    var stopped, r := ExecuteStages(p.stages, p.options.retry.None?, site, context, sh, clock);
    if stopped {
      return r;
    }
    assert e == Completed(Log(sh.asked, clock.asked), context.stageResults);
    o := ExecutePipelinePosts(p.post, context, site, sh, clock);
  }
}
