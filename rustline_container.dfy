/**
 * The container executors of the `src/` code: `ContainerExecutor`
 * (container.rs, Docker or Podman command line) and `DockerExecutor`
 * (docker.rs). Both run every shell step as one `<runtime> run --rm …`
 * process, with the same stage loop, retry and timeout rules; they differ
 * in the argument list and in the environment they set up.
 *
 * The container process and the clock are oracles (see `Oracles`); each
 * method is proved against the function of the same name ending in `Run`.
 */
module RustlineContainer {
  import opened Wrappers
  import opened Strings
  import opened Assoc
  import opened Durations
  import opened Oracles
  import opened RustlineErrors
  import opened RustlineTypes
  import opened RustlineSteps
  import RustlinePost
  import RustlineAgent
  import RustlineStage
  import RustlinePipeline
  import RustlineShell
  import RustlineContext

  // ---------------------------------------------------------------------
  // Executors and their configuration
  // ---------------------------------------------------------------------

  /** `ContainerRuntime`: Docker by default. */
  datatype ContainerRuntime = Docker | Podman

  /** `runtime_command`, and equally the runtime's `Display`. */
  function RuntimeCommand(r: ContainerRuntime): (s: string)
    ensures s == "docker" <==> r == Docker
    ensures s == "podman" <==> r == Podman
  {
    match r
    case Docker => "docker"
    case Podman => "podman"
  }

  /** Which executor: the container.rs one with its runtime, or the docker.rs one. */
  datatype Kind = ContainerCli(runtime: ContainerRuntime) | DockerCli

  datatype Executor = Executor(defaultImage: string, kind: Kind)

  /** The image every executor starts with. */
  const DefaultImage: string := "rust:latest"

  /** `ContainerExecutor::new`. */
  function NewContainerExecutor(): (e: Executor)
    ensures e.defaultImage == "rust:latest" && e.kind == ContainerCli(Docker)
  {
    Executor(DefaultImage, ContainerCli(Docker))
  }

  /** `ContainerExecutor::with_podman`. */
  function WithPodman(): (e: Executor)
    ensures e.defaultImage == "rust:latest" && e.kind == ContainerCli(Podman)
  {
    Executor(DefaultImage, ContainerCli(Podman))
  }

  /** `DockerExecutor::new`. */
  function NewDockerExecutor(): (e: Executor)
    ensures e.defaultImage == "rust:latest" && e.kind == DockerCli
  {
    Executor(DefaultImage, DockerCli)
  }

  /** `with_default_image`, on either executor. */
  function WithDefaultImage(e: Executor, image: string): (r: Executor)
    ensures r.defaultImage == image && r.kind == e.kind
  {
    Executor(image, e.kind)
  }

  /** `ContainerExecutor::with_runtime`. */
  function WithRuntime(e: Executor, runtime: ContainerRuntime): (r: Executor)
    requires e.kind.ContainerCli?
    ensures r.kind == ContainerCli(runtime) && r.defaultImage == e.defaultImage
  {
    Executor(e.defaultImage, ContainerCli(runtime))
  }

  /** The program each container process is started with. */
  function Program(e: Executor): (s: string)
    ensures e.kind.DockerCli? ==> s == "docker"
    ensures e.kind.ContainerCli? ==> s == RuntimeCommand(e.kind.runtime)
  {
    match e.kind
    case ContainerCli(runtime) => RuntimeCommand(runtime)
    case DockerCli => "docker"
  }

  /** The image of a stage: its Docker agent's image, and the executor's default otherwise. */
  function StageImage(e: Executor, agent: Option<RustlineAgent.AgentType>): (image: string)
    ensures agent.Some? && agent.value.Docker? ==> image == agent.value.docker.image
    ensures !(agent.Some? && agent.value.Docker?) ==> image == e.defaultImage
  {
    match agent
    case Some(Docker(config)) => config.image
    case _ => e.defaultImage
  }

  // ---------------------------------------------------------------------
  // The argument list of `run_in_container`
  // ---------------------------------------------------------------------

  /** What every container process of one run sees: the context's environment, id and directory. */
  datatype Site = Site(env: Entries<string>, pipelineId: string, cwd: string)

  /** One `-e k=v` pair per environment entry, in the context's order. */
  function EnvArgs(env: Entries<string>): (r: seq<string>)
    ensures |r| == 2 * |env|
    ensures forall i :: 0 <= i < |env| ==> r[2 * i] == "-e" && r[2 * i + 1] == env[i].0 + "=" + env[i].1
  {
    if |env| == 0 then []
    else
      var rest := EnvArgs(env[1..]);
      var r := ["-e", env[0].0 + "=" + env[0].1] + rest;
      assert forall i :: 1 <= i < |env| ==> r[2 * i] == rest[2 * (i - 1)] && r[2 * i + 1] == rest[2 * (i - 1) + 1];
      r
  }

  /** The arguments between `-w <cwd>` and the image: the bind mount for docker.rs, the cgroup manager for Podman. */
  function ExtraArgs(e: Executor, cwd: string): (r: seq<string>)
    ensures e.kind.DockerCli? ==> r == ["-v", cwd + ":" + cwd]
    ensures e.kind == ContainerCli(Podman) ==> r == ["--cgroup-manager=cgroupfs"]
    ensures e.kind == ContainerCli(Docker) ==> r == []
  {
    match e.kind
    case DockerCli => ["-v", cwd + ":" + cwd]
    case ContainerCli(Podman) => ["--cgroup-manager=cgroupfs"]
    case ContainerCli(Docker) => []
  }

  /**
   * The whole command line, program first: `run --rm -e
   * RUSTLINE_STAGE=<id>`, the environment pairs, `-w <cwd>`, the extra
   * arguments, then `<image> sh -c <command>`.
   */
  function RunArgs(e: Executor, image: string, command: string, site: Site): (r: seq<string>)
    ensures var n := 2 * |site.env|;
      && |r| == 11 + n + |ExtraArgs(e, site.cwd)|
      && r[..5] == [Program(e), "run", "--rm", "-e", "RUSTLINE_STAGE=" + site.pipelineId]
      && r[5..5 + n] == EnvArgs(site.env)
      && r[5 + n] == "-w" && r[6 + n] == site.cwd
      && r[7 + n..|r| - 4] == ExtraArgs(e, site.cwd)
      && r[|r| - 4..] == [image, "sh", "-c", command]
  {
    var head := [Program(e), "run", "--rm", "-e", "RUSTLINE_STAGE=" + site.pipelineId];
    var env := EnvArgs(site.env);
    var extra := ExtraArgs(e, site.cwd);
    var tail := [image, "sh", "-c", command];
    var r := head + env + ["-w", site.cwd] + extra + tail;
    assert r[..5] == head;
    assert r[5..5 + |env|] == env;
    assert r[7 + |env|..|r| - 4] == extra;
    assert r[|r| - 4..] == tail;
    r
  }

  /** The argument pushes of `run_in_container`. */
  method BuildRunArgs(e: Executor, image: string, command: string, site: Site) returns (args: seq<string>)
    ensures args == RunArgs(e, image, command, site)
  {
    args := [Program(e), "run", "--rm", "-e", "RUSTLINE_STAGE=" + site.pipelineId];
    var i := 0;
    while i < |site.env|
      invariant 0 <= i <= |site.env|
      invariant args == [Program(e), "run", "--rm", "-e", "RUSTLINE_STAGE=" + site.pipelineId] + EnvArgs(site.env[..i])
      decreases |site.env| - i
    {
      EnvArgsSnoc(site.env[..i + 1]);
      assert site.env[..i + 1][..i] == site.env[..i];
      args := args + ["-e", site.env[i].0 + "=" + site.env[i].1];
      i := i + 1;
    }
    assert site.env[..i] == site.env;
    args := args + ["-w", site.cwd];
    match e.kind {
      case DockerCli =>
        args := args + ["-v", site.cwd + ":" + site.cwd];
      case ContainerCli(Podman) =>
        args := args + ["--cgroup-manager=cgroupfs"];
      case ContainerCli(Docker) =>
    }
    args := args + [image, "sh", "-c", command];
  }

  /** The pairs of a longer environment extend those of its prefix. */
  lemma {:induction false} EnvArgsSnoc(env: Entries<string>)
    requires |env| > 0
    ensures EnvArgs(env) == EnvArgs(env[..|env| - 1]) + ["-e", env[|env| - 1].0 + "=" + env[|env| - 1].1]
    decreases |env|
  {
    if |env| > 1 {
      EnvArgsSnoc(env[1..]);
      assert env[1..][..|env| - 2] == env[..|env| - 1][1..];
    }
  }

  /** What one container process gave: an I/O error, CommandFailed (code -1 when killed), or success. */
  function RunResult(out: RustlineShell.ProcessOutput): (r: Result<Unit, PipelineError>)
    ensures r.Ok? <==> out.Finished? && out.code == Some(0)
    ensures out.SpawnError? ==> r == Err(Io(out.message))
    ensures out.Finished? && out.code != Some(0) ==>
      r == Err(CommandFailed(if out.code.Some? then out.code.value else -1, out.stderr))
  {
    match out
    case SpawnError(message) => Err(Io(message))
    case Finished(_, stderr, code) =>
      if code != Some(0) then Err(CommandFailed(if code.Some? then code.value else -1, stderr)) else Ok(Unit)
  }

  // ---------------------------------------------------------------------
  // The world
  // ---------------------------------------------------------------------

  /** The container processes: asked with a command line, answering with its output. */
  type Runner = Oracle<seq<string>, RustlineShell.ProcessOutput>

  type Clock = Oracle<Duration, bool>

  datatype World = World(run: (nat, seq<string>) -> RustlineShell.ProcessOutput, inTime: (nat, Duration) -> bool)

  /** Every command line started and every deadline checked so far. */
  datatype Log = Log(runs: seq<seq<string>>, clock: seq<Duration>)

  datatype Run<T> = Run(outcome: Outcome<T>, log: Log)

  // ---------------------------------------------------------------------
  // Steps
  // ---------------------------------------------------------------------

  /** One shell step: one container process. */
  function ShellRun(e: Executor, image: string, command: string, site: Site, w: World, log: Log): (r: Run<Unit>)
    ensures r.outcome.Returned? && r.log == Log(log.runs + [RunArgs(e, image, command, site)], log.clock)
  {
    var args := RunArgs(e, image, command, site);
    Run(Returned(RunResult(w.run(|log.runs|, args))), Log(log.runs + [args], log.clock))
  }

  /**
   * `execute_step`: Shell, Echo, Retry with at most `count` attempts (and a
   * panic on `last_error.unwrap()` when `count` is 0), Timeout through a
   * thread, every other kind a successful no-op.
   */
  function StepRun(e: Executor, step: Step, image: string, site: Site, w: World, log: Log): (r: Run<Unit>)
    decreases step, 0
  {
    match step.stepType
    case Shell(command) => ShellRun(e, image, command, site, w, log)
    case Echo(_) => Run(Returned(Ok(Unit)), log)
    case Retry(count, inner) => RetryRun(e, inner, count, None, image, site, w, log)
    case Timeout(d, inner) =>
      var r := StepRun(e, inner, image, site, w, log);
      if r.outcome.Panicked? then Run(Returned(Err(TimeoutError(d))), r.log)
      else
        var late := !w.inTime(|r.log.clock|, d);
        Run(if late then Returned(Err(TimeoutError(d))) else r.outcome, Log(r.log.runs, r.log.clock + [d]))
    case Stash(_, _) => Run(Returned(Ok(Unit)), log)
    case Unstash(_) => Run(Returned(Ok(Unit)), log)
    case Input(_, _) => Run(Returned(Ok(Unit)), log)
    case Dir(_, _) => Run(Returned(Ok(Unit)), log)
  }

  /** The retry loop with `left` attempts remaining and the last error seen. */
  function RetryRun(e: Executor, inner: Step, left: nat, last: Option<PipelineError>, image: string, site: Site,
                    w: World, log: Log): (r: Run<Unit>)
    decreases inner, 1, left
  {
    if left == 0 then
      Run(if last.None? then Panicked else Returned(Err(last.value)), log)
    else
      var r := StepRun(e, inner, image, site, w, log);
      if r.outcome.Panicked? || r.outcome.result.Ok? then r
      else RetryRun(e, inner, left - 1, Some(r.outcome.result.error), image, site, w, r.log)
  }

  method RunInContainer(e: Executor, image: string, command: string, site: Site, runner: Runner, clock: Clock)
    returns (r: Result<Unit, PipelineError>)
    modifies runner
    ensures Run(Returned(r), Log(runner.asked, clock.asked))
         == ShellRun(e, image, command, site, World(runner.answer, clock.answer), Log(old(runner.asked), clock.asked))
  {
    var args := BuildRunArgs(e, image, command, site);
    var out := runner.Ask(args);
    r := RunResult(out);
  }

  method ExecuteStep(e: Executor, step: Step, image: string, site: Site, runner: Runner, clock: Clock)
    returns (o: Outcome<Unit>)
    modifies runner, clock
    ensures Run(o, Log(runner.asked, clock.asked))
         == StepRun(e, step, image, site, World(runner.answer, clock.answer), Log(old(runner.asked), old(clock.asked)))
    decreases step
  {
    ghost var w := World(runner.answer, clock.answer);
    match step.stepType {
      case Shell(command) =>
        var r := RunInContainer(e, image, command, site, runner, clock);
        o := Returned(r);
      case Echo(_) =>
        o := Returned(Ok(Unit));
      case Retry(count, inner) =>
        ghost var log0 := Log(runner.asked, clock.asked);
        var lastError: Option<PipelineError> := None;
        var succeeded := false;
        var attempt := 0;
        while attempt < count && !succeeded
          invariant attempt <= count
          invariant runner.answer == w.run && clock.answer == w.inTime
          invariant succeeded ==>
            RetryRun(e, inner, count, None, image, site, w, log0) == Run(Returned(Ok(Unit)), Log(runner.asked, clock.asked))
          invariant !succeeded ==>
            RetryRun(e, inner, count, None, image, site, w, log0)
            == RetryRun(e, inner, count - attempt, lastError, image, site, w, Log(runner.asked, clock.asked))
          decreases count - attempt, if succeeded then 0 else 1
        {
          ghost var before := Log(runner.asked, clock.asked);
          var r := ExecuteStep(e, inner, image, site, runner, clock);
          assert RetryRun(e, inner, count - attempt, lastError, image, site, w, before)
              == (if r.Panicked? || r.result.Ok? then Run(r, Log(runner.asked, clock.asked))
                  else RetryRun(e, inner, count - attempt - 1, Some(r.result.error), image, site, w,
                                Log(runner.asked, clock.asked)));
          match r {
            case Panicked =>
              return Panicked;
            case Returned(Ok(u)) =>
              assert u == Unit;
              succeeded := true;
            case Returned(Err(err)) =>
              lastError := Some(err);
              attempt := attempt + 1;
          }
        }
        if !succeeded {
          if lastError.None? {
            return Panicked;
          }
          return Returned(Err(lastError.value));
        }
        o := Returned(Ok(Unit));
      case Timeout(d, inner) =>
        var r := ExecuteStep(e, inner, image, site, runner, clock);
        if r.Panicked? {
          o := Returned(Err(TimeoutError(d)));
        } else {
          var inTime := clock.Ask(d);
          o := if inTime then r else Returned(Err(TimeoutError(d)));
        }
      case Stash(_, _) =>
        o := Returned(Ok(Unit));
      case Unstash(_) =>
        o := Returned(Ok(Unit));
      case Input(_, _) =>
        o := Returned(Ok(Unit));
      case Dir(_, _) =>
        o := Returned(Ok(Unit));
    }
  }

  /** `execute_steps`: in order, stopping at the first error or panic; Success otherwise. */
  function StepsRun(e: Executor, steps: seq<Step>, image: string, site: Site, w: World, log: Log): (r: Run<StageResult>)
    ensures r.outcome.Returned? && r.outcome.result.Ok? ==> r.outcome.result.value == Success
    decreases |steps|
  {
    if |steps| == 0 then Run(Returned(Ok(Success)), log)
    else
      var r := StepRun(e, steps[0], image, site, w, log);
      match r.outcome
      case Panicked => Run(Panicked, r.log)
      case Returned(Err(err)) => Run(Returned(Err(err)), r.log)
      case Returned(Ok(_)) => StepsRun(e, steps[1..], image, site, w, r.log)
  }

  method ExecuteSteps(e: Executor, steps: seq<Step>, image: string, site: Site, runner: Runner, clock: Clock)
    returns (o: Outcome<StageResult>)
    modifies runner, clock
    ensures Run(o, Log(runner.asked, clock.asked))
         == StepsRun(e, steps, image, site, World(runner.answer, clock.answer), Log(old(runner.asked), old(clock.asked)))
  {
    ghost var w := World(runner.answer, clock.answer);
    ghost var full := StepsRun(e, steps, image, site, w, Log(runner.asked, clock.asked));
    var i := 0;
    while i < |steps|
      invariant 0 <= i <= |steps|
      invariant runner.answer == w.run && clock.answer == w.inTime
      invariant StepsRun(e, steps[i..], image, site, w, Log(runner.asked, clock.asked)) == full
      decreases |steps| - i
    {
      assert steps[i..][0] == steps[i] && steps[i..][1..] == steps[i + 1..];
      var r := ExecuteStep(e, steps[i], image, site, runner, clock);
      match r {
        case Panicked => return Panicked;
        case Returned(Err(err)) => return Returned(Err(err));
        case Returned(Ok(_)) =>
      }
      i := i + 1;
    }
    assert steps[i..] == [];
    o := Returned(Ok(Success));
  }

  // ---------------------------------------------------------------------
  // Stages and the pipeline
  // ---------------------------------------------------------------------

  /** The stage's post-conditions, each selected by `should_execute(result, None)`. */
  function PostsRun(e: Executor, posts: seq<RustlinePost.PostCondition>, result: StageResult, image: string,
                    site: Site, w: World, log: Log): (r: Run<Unit>)
    decreases |posts|
  {
    if |posts| == 0 then Run(Returned(Ok(Unit)), log)
    else if !RustlinePost.ShouldExecute(posts[0], result, None) then PostsRun(e, posts[1..], result, image, site, w, log)
    else
      var s := StepsRun(e, RustlinePost.Steps(posts[0]), image, site, w, log);
      match s.outcome
      case Panicked => Run(Panicked, s.log)
      case Returned(Err(err)) => Run(Returned(Err(err)), s.log)
      case Returned(Ok(_)) => PostsRun(e, posts[1..], result, image, site, w, s.log)
  }

  /** `execute_stage`: the steps in the stage's image, then its posts against their result. */
  function StageRun(e: Executor, stage: RustlineStage.Stage, site: Site, w: World, log: Log): (r: Run<StageResult>)
    ensures r.outcome.Returned? && r.outcome.result.Ok? ==> r.outcome.result.value == Success
  {
    var image := StageImage(e, stage.agent);
    var s := StepsRun(e, stage.steps, image, site, w, log);
    match s.outcome
    case Panicked => s
    case Returned(Err(_)) => s
    case Returned(Ok(result)) =>
      var p := PostsRun(e, stage.post, result, image, site, w, s.log);
      match p.outcome
      case Panicked => Run(Panicked, p.log)
      case Returned(Err(err)) => Run(Returned(Err(err)), p.log)
      case Returned(Ok(_)) => Run(Returned(Ok(result)), p.log)
  }

  method ExecutePosts(e: Executor, posts: seq<RustlinePost.PostCondition>, result: StageResult, image: string,
                      site: Site, runner: Runner, clock: Clock) returns (o: Outcome<Unit>)
    modifies runner, clock
    ensures Run(o, Log(runner.asked, clock.asked))
         == PostsRun(e, posts, result, image, site, World(runner.answer, clock.answer),
                     Log(old(runner.asked), old(clock.asked)))
  {
    ghost var w := World(runner.answer, clock.answer);
    ghost var full := PostsRun(e, posts, result, image, site, w, Log(runner.asked, clock.asked));
    var i := 0;
    while i < |posts|
      invariant 0 <= i <= |posts|
      invariant runner.answer == w.run && clock.answer == w.inTime
      invariant PostsRun(e, posts[i..], result, image, site, w, Log(runner.asked, clock.asked)) == full
      decreases |posts| - i
    {
      assert posts[i..][0] == posts[i] && posts[i..][1..] == posts[i + 1..];
      if RustlinePost.ShouldExecute(posts[i], result, None) {
        var s := ExecuteSteps(e, RustlinePost.Steps(posts[i]), image, site, runner, clock);
        match s {
          case Panicked => return Panicked;
          case Returned(Err(err)) => return Returned(Err(err));
          case Returned(Ok(_)) =>
        }
      }
      i := i + 1;
    }
    assert posts[i..] == [];
    o := Returned(Ok(Unit));
  }

  method ExecuteStage(e: Executor, stage: RustlineStage.Stage, site: Site, runner: Runner, clock: Clock)
    returns (o: Outcome<StageResult>)
    modifies runner, clock
    ensures Run(o, Log(runner.asked, clock.asked))
         == StageRun(e, stage, site, World(runner.answer, clock.answer), Log(old(runner.asked), old(clock.asked)))
  {
    var image := StageImage(e, stage.agent);
    var s := ExecuteSteps(e, stage.steps, image, site, runner, clock);
    var result: StageResult;
    match s {
      case Panicked => return Panicked;
      case Returned(Err(err)) => return Returned(Err(err));
      case Returned(Ok(res)) => result := res;
    }
    var p := ExecutePosts(e, stage.post, result, image, site, runner, clock);
    match p {
      case Panicked => return Panicked;
      case Returned(Err(err)) => return Returned(Err(err));
      case Returned(Ok(_)) =>
    }
    o := Returned(Ok(result));
  }

  /** Where the stage loop ended: early with an outcome, or after every stage. */
  datatype StagesEnd =
    | Stopped(outcome: Outcome<StageResult>, log: Log, recorded: Entries<StageResult>)
    | Completed(log: Log, recorded: Entries<StageResult>)

  /**
   * The stage loop of `execute`: an error or panic leaves at once;
   * otherwise the result is recorded, and a failed result ends the run when
   * the pipeline has no retry option.
   */
  function StagesFrom(e: Executor, stages: seq<RustlineStage.Stage>, retryNone: bool, site: Site, w: World, log: Log,
                      recorded: Entries<StageResult>): (r: StagesEnd)
    decreases |stages|
  {
    if |stages| == 0 then Completed(log, recorded)
    else
      var s := StageRun(e, stages[0], site, w, log);
      if s.outcome.Panicked? || s.outcome.result.Err? then Stopped(s.outcome, s.log, recorded)
      else
        var rec := Insert(recorded, stages[0].name, s.outcome.result.value);
        if IsFailure(s.outcome.result.value) && retryNone then Stopped(s.outcome, s.log, rec)
        else StagesFrom(e, stages[1..], retryNone, site, w, s.log, rec)
  }

  /**
   * The context environment of `execute`: the process environment, the
   * pipeline's variables, and for container.rs `CONTAINER_RUNTIME` set to
   * the runtime's name.
   */
  function RunEnv(e: Executor, p: RustlinePipeline.Pipeline, processEnv: Entries<string>): (env: Entries<string>)
  {
    var base := InsertAll(processEnv, p.environment.vars);
    match e.kind
    case ContainerCli(runtime) => Insert(base, "CONTAINER_RUNTIME", RuntimeCommand(runtime))
    case DockerCli => base
  }

  /**
   * `execute` of either executor, given the process environment, the
   * current directory and the fresh pipeline id of `PipelineContext::new`.
   * Neither runs the pipeline's own post-conditions.
   */
  function ExecuteRun(e: Executor, p: RustlinePipeline.Pipeline, processEnv: Entries<string>, cwd: string, id: string,
                      w: World, log: Log): (r: Run<StageResult>)
  {
    var site := Site(RunEnv(e, p, processEnv), id, cwd);
    match StagesFrom(e, p.stages, p.options.retry.None?, site, w, log, [])
    case Stopped(o, log', _) => Run(o, log')
    case Completed(log', _) => Run(Returned(Ok(Success)), log')
  }

  method ExecuteStages(e: Executor, stages: seq<RustlineStage.Stage>, retryNone: bool, site: Site,
                       context: RustlineContext.PipelineContext, runner: Runner, clock: Clock)
    returns (stopped: bool, o: Outcome<StageResult>)
    requires context.Valid()
    modifies runner, clock, context
    ensures context.Valid()
    ensures var end := StagesFrom(e, stages, retryNone, site, World(runner.answer, clock.answer),
                                  Log(old(runner.asked), old(clock.asked)), old(context.stageResults));
      (stopped <==> end.Stopped?) && (stopped ==> o == end.outcome)
      && end.log == Log(runner.asked, clock.asked) && end.recorded == context.stageResults
  {
    ghost var w := World(runner.answer, clock.answer);
    ghost var full := StagesFrom(e, stages, retryNone, site, w, Log(runner.asked, clock.asked), context.stageResults);
    var i := 0;
    while i < |stages|
      invariant 0 <= i <= |stages|
      invariant runner.answer == w.run && clock.answer == w.inTime
      invariant context.Valid()
      invariant StagesFrom(e, stages[i..], retryNone, site, w, Log(runner.asked, clock.asked), context.stageResults) == full
      decreases |stages| - i
    {
      var stage := stages[i];
      assert stages[i..][0] == stage && stages[i..][1..] == stages[i + 1..];
      var r := ExecuteStage(e, stage, site, runner, clock);
      match r {
        case Panicked => return true, Panicked;
        case Returned(Err(err)) => return true, Returned(Err(err));
        case Returned(Ok(result)) =>
          context.RecordStageResult(stage.name, result);
          if IsFailure(result) && retryNone {
            return true, Returned(Ok(result));
          }
      }
      i := i + 1;
    }
    assert stages[i..] == [];
    stopped, o := false, Returned(Ok(Success));
  }

  method Execute(e: Executor, p: RustlinePipeline.Pipeline, processEnv: Entries<string>, cwd: string, id: string,
                 runner: Runner, clock: Clock) returns (o: Outcome<StageResult>)
    requires Distinct(processEnv)
    modifies runner, clock
    ensures Run(o, Log(runner.asked, clock.asked))
         == ExecuteRun(e, p, processEnv, cwd, id, World(runner.answer, clock.answer), Log(old(runner.asked), old(clock.asked)))
  {
    var context := new RustlineContext.PipelineContext(processEnv, cwd, id);
    var vars := p.environment.vars;
    var k := 0;
    while k < |vars|
      invariant 0 <= k <= |vars|
      invariant context.Valid() && context.cwd == cwd && context.pipelineId == id && context.stageResults == []
      invariant runner.asked == old(runner.asked) && clock.asked == old(clock.asked)
      invariant InsertAll(context.env, vars[k..]) == InsertAll(processEnv, vars)
      decreases |vars| - k
    {
      assert vars[k..][0] == vars[k] && vars[k..][1..] == vars[k + 1..];
      context.SetEnv(vars[k].0, vars[k].1);
      k := k + 1;
    }
    assert vars[k..] == [];
    if e.kind.ContainerCli? {
      context.SetEnv("CONTAINER_RUNTIME", RuntimeCommand(e.kind.runtime));
    }
    var site := Site(context.env, context.pipelineId, context.cwd);
    ghost var w := World(runner.answer, clock.answer);
    ghost var end := StagesFrom(e, p.stages, p.options.retry.None?, site, w, Log(runner.asked, clock.asked), []);
    var stopped, r := ExecuteStages(e, p.stages, p.options.retry.None?, site, context, runner, clock);
    if stopped {
      return r;
    }
    assert end.Completed?;
    o := Returned(Ok(Success));
  }
}
