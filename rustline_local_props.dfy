/**
 * Properties of the `src/` local executor model: retry and timeout rules,
 * when the interpreter can panic, what a stage and the stage loop can
 * return, and which post-conditions can run.
 */
module RustlineLocalProps {
  import opened Wrappers
  import opened Assoc
  import opened Durations
  import opened RustlineErrors
  import opened RustlineTypes
  import opened RustlineSteps
  import opened RustlineLocal
  import RustlinePost
  import RustlineStage
  import RustlineCore
  import RustlinePipeline

  /** The step result the shell's n-th answer gives for `command`. */
  function Answer(w: World, site: Site, command: string, n: nat): Result<Unit, PipelineError> {
    ShellStepResult(w.shell(n, Request(site, command)))
  }

  // ---------------------------------------------------------------------
  // Retry
  // ---------------------------------------------------------------------

  /**
   * A retried shell command whose every attempt fails is run exactly
   * `left` more times, and the error of the last attempt is returned; with
   * no attempt at all the recorded error is returned, or the run panics.
   */
  lemma {:induction false} RetryShellAllFail(inner: Step, left: nat, last: Option<PipelineError>,
                                             site: Site, w: World, log: Log)
    requires inner.stepType.Shell?
    requires forall n :: |log.shell| <= n < |log.shell| + left ==> Answer(w, site, inner.stepType.command, n).Err?
    ensures var r := RetryRun(inner, left, last, site, w, log);
      && |r.log.shell| == |log.shell| + left
      && r.log.clock == log.clock
      && (left == 0 ==> r.outcome == if last.None? then Panicked else Returned(Err(last.value)))
      && (left > 0 ==> r.outcome == Returned(Answer(w, site, inner.stepType.command, |log.shell| + left - 1)))
    decreases left
  {
    if left > 0 {
      var cmd := inner.stepType.command;
      var r := StepRun(inner, site, w, log);
      assert r.outcome == Returned(Answer(w, site, cmd, |log.shell|));
      RetryShellAllFail(inner, left - 1, Some(r.outcome.result.error), site, w, r.log);
    }
  }

  /** `retry(0, …)`: no attempt, so the unwrap of the missing error panics. */
  lemma RetryZeroPanics(inner: Step, site: Site, w: World, log: Log)
    ensures StepRun(NewStep(Retry(0, inner)), site, w, log) == Run(Panicked, log)
  {
  }

  /**
   * A retried shell command whose attempt number `j` is the first to
   * succeed, with `j` below the remaining attempts, succeeds after exactly
   * `j + 1` runs.
   */
  lemma {:induction false} RetryShellFirstSuccess(inner: Step, left: nat, last: Option<PipelineError>, j: nat,
                                                  site: Site, w: World, log: Log)
    requires inner.stepType.Shell?
    requires j < left
    requires forall n :: |log.shell| <= n < |log.shell| + j ==> Answer(w, site, inner.stepType.command, n).Err?
    requires Answer(w, site, inner.stepType.command, |log.shell| + j).Ok?
    ensures var r := RetryRun(inner, left, last, site, w, log);
      r.outcome == Returned(Ok(Unit)) && |r.log.shell| == |log.shell| + j + 1 && r.log.clock == log.clock
    decreases j
  {
    var r := StepRun(inner, site, w, log);
    assert r.outcome == Returned(Answer(w, site, inner.stepType.command, |log.shell|));
    if j > 0 {
      RetryShellFirstSuccess(inner, left - 1, Some(r.outcome.result.error), j - 1, site, w, r.log);
    }
  }

  // ---------------------------------------------------------------------
  // Panics and timeouts
  // ---------------------------------------------------------------------

  /**
   * Whether running `step` can reach `last_error.unwrap()` on no error: a
   * `retry(0, …)` that is not inside a timeout (a timeout's thread turns the
   * panic into a timeout error).
   */
  predicate MayPanic(step: Step) {
    match step.stepType
    case Retry(count, inner) => count == 0 || MayPanic(inner)
    case _ => false
  }

  /** A step without an unprotected `retry(0, …)` always returns. */
  lemma {:induction false} NoPanicWithoutEmptyRetry(step: Step, site: Site, w: World, log: Log)
    requires !MayPanic(step)
    ensures StepRun(step, site, w, log).outcome.Returned?
    decreases step, 0
  {
    match step.stepType
    case Retry(count, inner) =>
      RetryReturns(inner, count, None, site, w, log);
    case _ =>
  }

  lemma {:induction false} RetryReturns(inner: Step, left: nat, last: Option<PipelineError>, site: Site, w: World, log: Log)
    requires !MayPanic(inner)
    requires left == 0 ==> last.Some?
    ensures RetryRun(inner, left, last, site, w, log).outcome.Returned?
    decreases inner, 1, left
  {
    if left > 0 {
      NoPanicWithoutEmptyRetry(inner, site, w, log);
      var r := StepRun(inner, site, w, log);
      if r.outcome.result.Err? {
        RetryReturns(inner, left - 1, Some(r.outcome.result.error), site, w, r.log);
      }
    }
  }

  /**
   * A timeout step never panics and asks the clock once; it gives the inner
   * step's result when the clock says it was in time and the inner step
   * returned, and otherwise the timeout error of its duration.
   */
  lemma TimeoutRules(d: Duration, inner: Step, site: Site, w: World, log: Log)
    ensures var r := StepRun(NewStep(Timeout(d, inner)), site, w, log);
      var i := StepRun(inner, site, w, log);
      && r.outcome.Returned?
      && (i.outcome.Panicked? ==> r == Run(Returned(Err(TimeoutError(d))), i.log))
      && (i.outcome.Returned? ==>
            r.log == Log(i.log.shell, i.log.clock + [d])
            && r.outcome.result == if w.inTime(|i.log.clock|, d) then i.outcome.result else Err(TimeoutError(d)))
  {
  }

  /** Stash, unstash, input and dir steps do nothing and succeed in this executor. */
  lemma UnimplementedStepsSucceed(step: Step, site: Site, w: World, log: Log)
    requires step.stepType.Stash? || step.stepType.Unstash? || step.stepType.Input? || step.stepType.Dir?
    ensures StepRun(step, site, w, log) == Run(Returned(Ok(Unit)), log)
  {
  }

  // ---------------------------------------------------------------------
  // Step sequences
  // ---------------------------------------------------------------------

  /** Running `a + b` is running `a`, then, if it succeeded, `b` from where `a` left the log. */
  lemma {:induction false} StepsAppend(a: seq<Step>, b: seq<Step>, site: Site, w: World, log: Log)
    ensures var ra := StepsRun(a, site, w, log);
      StepsRun(a + b, site, w, log)
      == if ra.outcome == Returned(Ok(Success)) then StepsRun(b, site, w, ra.log) else ra
    decreases |a|
  {
    if |a| == 0 {
      assert a + b == b;
    } else {
      assert (a + b)[0] == a[0] && (a + b)[1..] == a[1..] + b;
      var r := StepRun(a[0], site, w, log);
      if r.outcome.Returned? && r.outcome.result.Ok? {
        StepsAppend(a[1..], b, site, w, r.log);
      }
    }
  }

  /** Branch threads run no retry, timeout or other non-shell step: without a shell step nothing is asked. */
  lemma {:induction false} StaticWithoutShellAsksNothing(steps: seq<Step>, site: Site, w: World, log: Log)
    requires forall i :: 0 <= i < |steps| ==> !steps[i].stepType.Shell?
    ensures StaticStepsRun(steps, site, w, log) == Run(Returned(Ok(Success)), log)
    decreases |steps|
  {
    if |steps| > 0 {
      StaticWithoutShellAsksNothing(steps[1..], site, w, log);
    }
  }

  // ---------------------------------------------------------------------
  // The stage loop
  // ---------------------------------------------------------------------

  /**
   * A stage that returns always returns Success, so the early stop on a
   * failed stage never fires: the pipeline's retry option makes no
   * difference to the stage loop.
   */
  lemma {:induction false} RetryOptionIrrelevant(stages: seq<RustlineStage.Stage>, site: Site, w: World, log: Log,
                                                 recorded: Entries<StageResult>)
    ensures StagesFrom(stages, true, site, w, log, recorded) == StagesFrom(stages, false, site, w, log, recorded)
    decreases |stages|
  {
    if |stages| > 0 {
      var s := StageRun(stages[0], site, w, log);
      if s.outcome.Returned? && s.outcome.result.Ok? {
        assert !IsFailure(s.outcome.result.value);
        RetryOptionIrrelevant(stages[1..], site, w, s.log, Insert(recorded, stages[0].name, s.outcome.result.value));
      }
    }
  }

  /** Every recorded value is Success. */
  predicate AllSuccess(recorded: Entries<StageResult>) {
    forall i :: 0 <= i < |recorded| ==> recorded[i].1 == Success
  }

  /**
   * When the stage loop goes through every stage, each stage's name is
   * recorded, and every recorded result is Success; a stop leaves only
   * Success results recorded too.
   */
  lemma {:induction false} StagesRecordSuccess(stages: seq<RustlineStage.Stage>, retryNone: bool, site: Site,
                                               w: World, log: Log, recorded: Entries<StageResult>)
    requires AllSuccess(recorded)
    ensures var e := StagesFrom(stages, retryNone, site, w, log, recorded);
      && AllSuccess(e.recorded)
      && (forall k :: HasKey(recorded, k) ==> HasKey(e.recorded, k))
      && (e.Completed? ==> forall i :: 0 <= i < |stages| ==> Get(e.recorded, stages[i].name) == Some(Success))
    decreases |stages|
  {
    if |stages| > 0 {
      var s := StageRun(stages[0], site, w, log);
      if s.outcome.Returned? && s.outcome.result.Ok? {
        var name := stages[0].name;
        var rec := Insert(recorded, name, Success);
        InsertSuccess(recorded, name);
        StagesRecordSuccess(stages[1..], retryNone, site, w, s.log, rec);
        var e := StagesFrom(stages[1..], retryNone, site, w, s.log, rec);
        assert !IsFailure(s.outcome.result.value);
        if e.Completed? {
          forall i | 0 <= i < |stages| ensures Get(e.recorded, stages[i].name) == Some(Success) {
            if i == 0 {
              assert HasKey(rec, name);
              assert HasKey(e.recorded, name);
              OnlySuccessValues(e.recorded, name);
            } else {
              assert stages[i] == stages[1..][i - 1];
            }
          }
        }
      }
    }
  }

  /** Inserting Success keeps every value Success and adds the key. */
  lemma InsertSuccess(recorded: Entries<StageResult>, name: string)
    requires AllSuccess(recorded)
    ensures AllSuccess(Insert(recorded, name, Success))
    ensures HasKey(Insert(recorded, name, Success), name)
    ensures forall k :: HasKey(recorded, k) ==> HasKey(Insert(recorded, name, Success), k)
  {
    var r := Insert(recorded, name, Success);
    GetInsertEach(recorded, name, Success);
    forall i | 0 <= i < |r| ensures r[i].1 == Success {
      if !HasKey(recorded, name) {
        assert r == recorded + [(name, Success)];
      } else {
        assert r[i] in r;
        InsertValues(recorded, name, Success, r[i]);
      }
    }
    forall k | HasKey(recorded, k) ensures HasKey(r, k) {
      GetInsert(recorded, name, Success, k);
    }
  }

  /** Every entry of an insertion is the inserted pair or an entry of the original. */
  lemma {:induction false} InsertValues(m: Entries<StageResult>, k: string, v: StageResult, e: (string, StageResult))
    requires e in Insert(m, k, v)
    ensures e == (k, v) || e in m
    decreases |m|
  {
    if |m| > 0 && m[0].0 != k {
      var r := Insert(m, k, v);
      assert r == [m[0]] + Insert(m[1..], k, v);
      if e != m[0] {
        InsertValues(m[1..], k, v, e);
      }
    }
  }

  lemma OnlySuccessValues(m: Entries<StageResult>, k: string)
    requires AllSuccess(m) && HasKey(m, k)
    ensures Get(m, k) == Some(Success)
  {
  }

  // ---------------------------------------------------------------------
  // Pipeline post-conditions
  // ---------------------------------------------------------------------

  /** With no stage result recorded, no pipeline post-condition runs. */
  lemma {:induction false} NoRecordNoPosts(posts: seq<RustlinePost.PostCondition>, site: Site, w: World, log: Log)
    ensures PipelinePostsRun(posts, [], site, w, log) == Run(Returned(Ok(Success)), log)
    decreases |posts|
  {
    if |posts| > 0 {
      NoRecordNoPosts(posts[1..], site, w, log);
    }
  }

  /**
   * After a Success result, only Always, OnSuccess and Changed
   * post-conditions run: a pipeline whose posts are all failure or unstable
   * handlers asks nothing.
   */
  lemma {:induction false} FailureHandlersSkipped(posts: seq<RustlinePost.PostCondition>, recorded: Entries<StageResult>,
                                                  site: Site, w: World, log: Log)
    requires AllSuccess(recorded)
    requires forall i :: 0 <= i < |posts| ==> posts[i].OnFailure? || posts[i].OnUnstable?
    ensures PipelinePostsRun(posts, recorded, site, w, log) == Run(Returned(Ok(Success)), log)
    decreases |posts|
  {
    if |posts| > 0 {
      FailureHandlersSkipped(posts[1..], recorded, site, w, log);
    }
  }

  /** A pipeline with no stages runs none of its post-conditions and asks nothing. */
  lemma NoStagesNothingRuns(p: RustlinePipeline.Pipeline, c: ExecutorConfig, processEnv: Entries<string>, cwd: string,
                            w: World, log: Log)
    requires p.stages == []
    ensures ExecuteRun(p, c, processEnv, cwd, w, log) == Run(Returned(Ok(Success)), log)
  {
    NoRecordNoPosts(p.post, RunSite(p, c, processEnv, cwd), w, log);
  }

  /** A pipeline run that returns always returns Success. */
  lemma ExecuteOkIsSuccess(p: RustlinePipeline.Pipeline, c: ExecutorConfig, processEnv: Entries<string>, cwd: string,
                           w: World, log: Log)
    ensures var r := ExecuteRun(p, c, processEnv, cwd, w, log);
      r.outcome.Returned? && r.outcome.result.Ok? ==> r.outcome.result.value == Success
  {
    var site := RunSite(p, c, processEnv, cwd);
    StoppedOkIsSuccess(p.stages, p.options.retry.None?, site, w, log, []);
    var e := StagesFrom(p.stages, p.options.retry.None?, site, w, log, []);
    if e.Completed? {
      PostsOkIsSuccess(p.post, e.recorded, site, w, e.log);
    }
  }

  lemma {:induction false} StoppedOkIsSuccess(stages: seq<RustlineStage.Stage>, retryNone: bool, site: Site,
                                              w: World, log: Log, recorded: Entries<StageResult>)
    ensures var e := StagesFrom(stages, retryNone, site, w, log, recorded);
      e.Stopped? && e.outcome.Returned? && e.outcome.result.Ok? ==> e.outcome.result.value == Success
    decreases |stages|
  {
    if |stages| > 0 {
      var s := StageRun(stages[0], site, w, log);
      if s.outcome.Returned? && s.outcome.result.Ok? {
        StoppedOkIsSuccess(stages[1..], retryNone, site, w, s.log,
                           Insert(recorded, stages[0].name, s.outcome.result.value));
      }
    }
  }

  lemma {:induction false} PostsOkIsSuccess(posts: seq<RustlinePost.PostCondition>, recorded: Entries<StageResult>,
                                            site: Site, w: World, log: Log)
    ensures var r := PipelinePostsRun(posts, recorded, site, w, log);
      r.outcome.Returned? && r.outcome.result.Ok? ==> r.outcome.result.value == Success
    decreases |posts|
  {
    if |posts| > 0 {
      var s := StepsRun(RustlinePost.Steps(posts[0]), site, w, log);
      PostsOkIsSuccess(posts[1..], recorded, site, w, log);
      if s.outcome.Returned? && s.outcome.result.Ok? {
        PostsOkIsSuccess(posts[1..], recorded, site, w, s.log);
      }
    }
  }

  // ---------------------------------------------------------------------
  // Matrix stages
  // ---------------------------------------------------------------------

  /** A matrix stage's posts and its own parallel branches are never run. */
  lemma MatrixIgnoresPostsAndBranches(stage: RustlineStage.Stage, site: Site, w: World, log: Log)
    requires stage.matrix.Some?
    ensures StageRun(stage, site, w, log) == StageRun(stage.(post := [], parallel := []), site, w, log)
  {
    assert MatrixBranches(stage) == MatrixBranches(stage.(post := [], parallel := []));
  }

  /** A matrix without axes has no combinations: the stage asks nothing and succeeds. */
  lemma EmptyMatrixSucceeds(stage: RustlineStage.Stage, site: Site, w: World, log: Log)
    requires stage.matrix.Some? && stage.matrix.value.axes == []
    ensures StageRun(stage, site, w, log) == Run(Returned(Ok(Success)), log)
  {
    assert RustlineCore.Combinations(stage.matrix.value) == [];
    assert MatrixBranches(stage) == [];
    assert BranchResults([], StaticSite(site), w, log) == ([], log);
    assert StaticBranchesRun([], StaticSite(site), w, log) == Run(Returned(Ok(Success)), log);
  }
}
