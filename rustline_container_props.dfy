/**
 * Properties of the container executors of the `src/` code: the argument
 * list, the environment handed to every container, retry and timeout
 * rules, and the stage loop.
 */
module RustlineContainerProps {
  import opened Wrappers
  import opened Assoc
  import opened Durations
  import opened RustlineErrors
  import opened RustlineTypes
  import opened RustlineSteps
  import opened RustlineContainer
  import RustlineStage
  import RustlinePipeline

  /** The step result the runner's n-th answer gives for `command`. */
  function Answer(e: Executor, w: World, image: string, site: Site, command: string, n: nat): Result<Unit, PipelineError> {
    RunResult(w.run(n, RunArgs(e, image, command, site)))
  }

  /** Every context variable reaches the container as `-e k=v`, in the context's order, right after the stage marker. */
  lemma EveryVariablePassed(e: Executor, image: string, command: string, site: Site, i: nat)
    requires i < |site.env|
    ensures var r := RunArgs(e, image, command, site);
      r[5 + 2 * i] == "-e" && r[6 + 2 * i] == site.env[i].0 + "=" + site.env[i].1
  {
    var r := RunArgs(e, image, command, site);
    var n := 2 * |site.env|;
    assert r[5 + 2 * i] == r[5..5 + n][2 * i];
    assert r[6 + 2 * i] == r[5..5 + n][2 * i + 1];
  }

  /** docker.rs mounts the working directory on itself right before the image; container.rs never does. */
  lemma DockerMountsWorkingDir(e: Executor, image: string, command: string, site: Site)
    ensures var r := RunArgs(e, image, command, site);
      && (e.kind.DockerCli? ==> r[|r| - 6] == "-v" && r[|r| - 5] == site.cwd + ":" + site.cwd)
      && (e.kind.ContainerCli? ==> "-v" !in r[7 + 2 * |site.env|..|r| - 4])
  {
    var r := RunArgs(e, image, command, site);
    var n := 2 * |site.env|;
    if e.kind.DockerCli? {
      assert r[7 + n..|r| - 4] == ["-v", site.cwd + ":" + site.cwd];
      assert r[|r| - 6] == r[7 + n..|r| - 4][0];
    }
  }

  /** Podman gets `--cgroup-manager=cgroupfs` right before the image. */
  lemma PodmanCgroupManager(e: Executor, image: string, command: string, site: Site)
    requires e.kind == ContainerCli(Podman)
    ensures var r := RunArgs(e, image, command, site);
      r[0] == "podman" && r[|r| - 5] == "--cgroup-manager=cgroupfs"
  {
    var r := RunArgs(e, image, command, site);
    var n := 2 * |site.env|;
    assert r[0] == r[..5][0];
    assert r[|r| - 5] == r[7 + n..|r| - 4][0];
  }

  /** container.rs exposes its runtime's name as `CONTAINER_RUNTIME`, whatever the pipeline sets. */
  lemma ContainerRuntimeVariable(e: Executor, p: RustlinePipeline.Pipeline, processEnv: Entries<string>)
    requires e.kind.ContainerCli?
    ensures Get(RunEnv(e, p, processEnv), "CONTAINER_RUNTIME") == Some(RuntimeCommand(e.kind.runtime))
  {
    GetInsert(InsertAll(processEnv, p.environment.vars), "CONTAINER_RUNTIME", RuntimeCommand(e.kind.runtime),
              "CONTAINER_RUNTIME");
  }

  /** A pipeline variable (among distinct ones) overrides the process environment in both executors, except `CONTAINER_RUNTIME` in container.rs. */
  lemma PipelineVariablesWin(e: Executor, p: RustlinePipeline.Pipeline, processEnv: Entries<string>, k: string)
    requires Distinct(p.environment.vars) && HasKey(p.environment.vars, k)
    requires e.kind.ContainerCli? ==> k != "CONTAINER_RUNTIME"
    ensures Get(RunEnv(e, p, processEnv), k) == Get(p.environment.vars, k)
  {
    var base := InsertAll(processEnv, p.environment.vars);
    GetInsertAll(processEnv, p.environment.vars, k);
    if e.kind.ContainerCli? {
      GetInsert(base, "CONTAINER_RUNTIME", RuntimeCommand(e.kind.runtime), k);
    }
  }

  /** A retried shell step whose attempts all fail runs exactly `left` more times and returns the last error. */
  lemma {:induction false} RetryShellAllFail(e: Executor, inner: Step, left: nat, last: Option<PipelineError>,
                                             image: string, site: Site, w: World, log: Log)
    requires inner.stepType.Shell?
    requires forall n :: |log.runs| <= n < |log.runs| + left ==> Answer(e, w, image, site, inner.stepType.command, n).Err?
    ensures var r := RetryRun(e, inner, left, last, image, site, w, log);
      && |r.log.runs| == |log.runs| + left
      && r.log.clock == log.clock
      && (left == 0 ==> r.outcome == if last.None? then Panicked else Returned(Err(last.value)))
      && (left > 0 ==> r.outcome == Returned(Answer(e, w, image, site, inner.stepType.command, |log.runs| + left - 1)))
    decreases left
  {
    if left > 0 {
      var r := StepRun(e, inner, image, site, w, log);
      assert r.outcome == Returned(Answer(e, w, image, site, inner.stepType.command, |log.runs|));
      RetryShellAllFail(e, inner, left - 1, Some(r.outcome.result.error), image, site, w, r.log);
    }
  }

  /** A retried shell step whose attempt `j` (counting from 0, below `left`) is the first to succeed runs `j + 1` times. */
  lemma {:induction false} RetryShellFirstSuccess(e: Executor, inner: Step, left: nat, last: Option<PipelineError>, j: nat,
                                                  image: string, site: Site, w: World, log: Log)
    requires inner.stepType.Shell?
    requires j < left
    requires forall n :: |log.runs| <= n < |log.runs| + j ==> Answer(e, w, image, site, inner.stepType.command, n).Err?
    requires Answer(e, w, image, site, inner.stepType.command, |log.runs| + j).Ok?
    ensures var r := RetryRun(e, inner, left, last, image, site, w, log);
      r.outcome == Returned(Ok(Unit)) && |r.log.runs| == |log.runs| + j + 1
    decreases j
  {
    var r := StepRun(e, inner, image, site, w, log);
    assert r.outcome == Returned(Answer(e, w, image, site, inner.stepType.command, |log.runs|));
    if j > 0 {
      RetryShellFirstSuccess(e, inner, left - 1, Some(r.outcome.result.error), j - 1, image, site, w, r.log);
    }
  }

  /**
   * A timeout step never panics: it gives the inner result when the inner
   * step returned in time, and `Timeout { duration }` otherwise.
   */
  lemma TimeoutRules(e: Executor, d: Duration, inner: Step, image: string, site: Site, w: World, log: Log)
    ensures var r := StepRun(e, NewStep(Timeout(d, inner)), image, site, w, log);
      var i := StepRun(e, inner, image, site, w, log);
      && r.outcome.Returned?
      && (r.outcome == i.outcome || r.outcome.result == Err(TimeoutError(d)))
      && (i.outcome.Returned? && w.inTime(|i.log.clock|, d) ==> r.outcome == i.outcome)
  {
  }

  /** A stage never returns a failed result, so the pipeline's retry option never changes the stage loop. */
  lemma {:induction false} RetryOptionIrrelevant(e: Executor, stages: seq<RustlineStage.Stage>, site: Site, w: World,
                                                 log: Log, recorded: Entries<StageResult>)
    ensures StagesFrom(e, stages, true, site, w, log, recorded) == StagesFrom(e, stages, false, site, w, log, recorded)
    decreases |stages|
  {
    if |stages| > 0 {
      var s := StageRun(e, stages[0], site, w, log);
      if s.outcome.Returned? && s.outcome.result.Ok? {
        RetryOptionIrrelevant(e, stages[1..], site, w, s.log, Insert(recorded, stages[0].name, s.outcome.result.value));
      }
    }
  }

  /** Post-conditions of a stage that failed with an error never run: the error is the stage's outcome. */
  lemma ErrorSkipsPosts(e: Executor, stage: RustlineStage.Stage, site: Site, w: World, log: Log)
    requires StepsRun(e, stage.steps, StageImage(e, stage.agent), site, w, log).outcome.Returned?
    requires StepsRun(e, stage.steps, StageImage(e, stage.agent), site, w, log).outcome.result.Err?
    ensures StageRun(e, stage, site, w, log) == StepsRun(e, stage.steps, StageImage(e, stage.agent), site, w, log)
  {
  }
}
