/**
 * Properties of the local executor: which name each result carries, what
 * a retry step attempts and returns, what a timeout returns, and the shape
 * of the result list of a whole pipeline, stated against a flat loop over
 * all of the pipeline's steps.
 */
module ExecLocalProps {
  import opened CorePipeline
  import ExecRuntime
  import opened ExecLocal

  /** Whether `stage` is the name of `step` or, through retry and timeout wrappers, of a step inside it. */
  predicate NamedBy(step: Step, stage: string)
    decreases step
  {
    stage == ExecRuntime.StepName(step)
    || (step.stepType.Retry? && NamedBy(step.stepType.step, stage))
    || (step.stepType.Timeout? && NamedBy(step.stepType.step, stage))
  }

  /** Each result is named after its step, or after a step the retry or timeout wraps. */
  lemma {:induction false} StepRunNamed(step: Step, w: World, log: Log)
    ensures NamedBy(step, StepRun(step, w, log).result.stage)
    decreases step, 1
  {
    match step.stepType
    case Retry(count, inner) =>
      RetryRunNamed(inner, ExecRuntime.StepName(step), count, count, "", w, log);
    case Timeout(d, inner) =>
      StepRunNamed(inner, w, log);
    case _ =>
  }

  lemma {:induction false} RetryRunNamed(inner: Step, name: string, count: nat, left: nat, last: string, w: World, log: Log)
    ensures var s := RetryRun(inner, name, count, left, last, w, log).result.stage;
      s == name || NamedBy(inner, s)
    decreases inner, 2, left
  {
    if left > 0 {
      var r := StepRun(inner, w, log);
      if r.result.success {
        StepRunNamed(inner, w, log);
      } else {
        RetryRunNamed(inner, name, count, left - 1, r.result.output, w, r.log);
      }
    }
  }

  /** A step that wraps no other step names its result after itself. */
  lemma PlainStepNamed(step: Step, w: World, log: Log)
    requires !step.stepType.Retry? && !step.stepType.Timeout?
    ensures StepRun(step, w, log).result.stage == ExecRuntime.StepName(step)
  {
  }

  /** An echo step succeeds with its message and asks nothing. */
  lemma EchoStep(step: Step, w: World, log: Log)
    requires step.stepType.Echo?
    ensures var r := StepRun(step, w, log);
      r.result.success && r.result.output == step.stepType.message && r.log == log
  {
  }

  /**
   * A shell step asks the shell once; it succeeds iff the process ran and
   * exited successfully; its output is stdout unless that is empty, then
   * stderr, or the spawn error's message.
   */
  lemma ShellStep(step: Step, w: World, log: Log)
    requires step.stepType.Shell?
    ensures var r := StepRun(step, w, log);
      var a := w.shell(|log.shell|, step.stepType.command);
      && r.log.shell == log.shell + [step.stepType.command]
      && (r.result.success <==> a.Finished? && a.exitedOk)
      && (a.Finished? && a.stdout != "" ==> r.result.output == a.stdout)
      && (a.Finished? && a.stdout == "" ==> r.result.output == a.stderr)
      && (a.SpawnError? ==> r.result.output == a.message)
  {
  }

  /** Any other kind of step succeeds with a fixed message and asks nothing. */
  lemma OtherStepSucceeds(step: Step, w: World, log: Log)
    requires !step.stepType.Shell? && !step.stepType.Echo? && !step.stepType.Retry? && !step.stepType.Timeout?
    ensures StepRun(step, w, log) == Run(LocalResult(true, ExecRuntime.StepName(step), NotImplemented), log)
  {
  }

  // ---------------------------------------------------------------------
  // Retry
  // ---------------------------------------------------------------------

  /** The attempts a retry makes with `left` attempts allowed: the inner step, again and again, up to its first success. */
  function Attempts(inner: Step, left: nat, w: World, log: Log): (a: seq<Run>)
    ensures |a| <= left
  {
    if left == 0 then []
    else
      var r := StepRun(inner, w, log);
      if r.result.success then [r] else [r] + Attempts(inner, left - 1, w, r.log)
  }

  /**
   * A retry makes at most `left` attempts, every one but the last failed;
   * it succeeds iff the last attempt did, and then returns that attempt
   * unchanged; otherwise all `left` attempts failed and it fails with the
   * retry message holding the last attempt's output.
   */
  lemma {:induction false} RetryByAttempts(inner: Step, name: string, count: nat, left: nat, last: string, w: World, log: Log)
    ensures var a := Attempts(inner, left, w, log);
      var r := RetryRun(inner, name, count, left, last, w, log);
      && (forall k :: 0 <= k < |a| - 1 ==> !a[k].result.success)
      && (r.result.success <==> |a| > 0 && a[|a| - 1].result.success)
      && (r.result.success ==> r == a[|a| - 1])
      && (!r.result.success ==>
            && |a| == left
            && r.result == LocalResult(false, name, RetryMessage(count, if |a| == 0 then last else a[|a| - 1].result.output))
            && r.log == if |a| == 0 then log else a[|a| - 1].log)
    decreases left
  {
    if left > 0 {
      var r := StepRun(inner, w, log);
      if !r.result.success {
        RetryByAttempts(inner, name, count, left - 1, r.result.output, w, r.log);
        var rest := Attempts(inner, left - 1, w, r.log);
        assert Attempts(inner, left, w, log) == [r] + rest;
      }
    }
  }

  /** The retry step as a whole: the first successful attempt, or failure after `count` failed attempts. */
  lemma RetryStep(step: Step, w: World, log: Log)
    requires step.stepType.Retry?
    ensures var count := step.stepType.count;
      var a := Attempts(step.stepType.step, count, w, log);
      var r := StepRun(step, w, log);
      && |a| <= count
      && (forall k :: 0 <= k < |a| - 1 ==> !a[k].result.success)
      && (r.result.success ==> |a| > 0 && r == a[|a| - 1])
      && (!r.result.success ==>
            && |a| == count
            && r.result.stage == ExecRuntime.StepName(step)
            && r.result.output == RetryMessage(count, if count == 0 then "" else a[count - 1].result.output))
  {
    RetryByAttempts(step.stepType.step, ExecRuntime.StepName(step), step.stepType.count, step.stepType.count, "", w, log);
  }

  /** A retry with a count of 0 runs nothing and fails. */
  lemma RetryZeroFails(step: Step, w: World, log: Log)
    requires step.stepType.Retry? && step.stepType.count == 0
    ensures StepRun(step, w, log)
         == Run(LocalResult(false, ExecRuntime.StepName(step), "Retry failed after 0 attempts: "), log)
  {
    assert RetryMessage(0, "") == "Retry failed after 0 attempts: ";
  }

  // ---------------------------------------------------------------------
  // Timeout
  // ---------------------------------------------------------------------

  /** A timeout runs its inner step, then asks the deadline once: in time gives the inner result, late a failure. */
  lemma TimeoutStep(step: Step, w: World, log: Log)
    requires step.stepType.Timeout?
    ensures var d := step.stepType.duration;
      var i := StepRun(step.stepType.step, w, log);
      var r := StepRun(step, w, log);
      && r.log == i.log.(deadline := i.log.deadline + [d])
      && (w.inTime(|i.log.deadline|, d) ==> r.result == i.result)
      && (!w.inTime(|i.log.deadline|, d) ==>
            !r.result.success && r.result.output == TimeoutMessage(d) && r.result.stage == ExecRuntime.StepName(step))
  {
  }

  // ---------------------------------------------------------------------
  // The pipeline loop
  // ---------------------------------------------------------------------

  /** Every step of the stages, in stage order. */
  function Flatten(stages: seq<Stage>): seq<Step> {
    if stages == [] then [] else stages[0].steps + Flatten(stages[1..])
  }

  /** The reference loop: a flat list of steps run in order, stopping after the first unsuccessful one. */
  function FlatRun(steps: seq<Step>, w: World, log: Log): (r: (seq<LocalResult>, Log)) {
    if steps == [] then ([], log)
    else
      var s := StepRun(steps[0], w, log);
      if !s.result.success then ([s.result], s.log)
      else
        var t := FlatRun(steps[1..], w, s.log);
        ([s.result] + t.0, t.1)
  }

  /** The nested stage/step loop is the flat loop over the flattened steps. */
  lemma {:induction false} RunFromIsFlat(steps: seq<Step>, stages: seq<Stage>, acc: seq<LocalResult>, w: World, log: Log)
    ensures var f := FlatRun(steps + Flatten(stages), w, log);
      RunFrom(steps, stages, acc, w, log) == (acc + f.0, f.1)
    decreases |stages|, |steps|
  {
    if |steps| > 0 {
      assert (steps + Flatten(stages))[0] == steps[0];
      assert (steps + Flatten(stages))[1..] == steps[1..] + Flatten(stages);
      var s := StepRun(steps[0], w, log);
      if s.result.success {
        RunFromIsFlat(steps[1..], stages, acc + [s.result], w, s.log);
        var t := FlatRun(steps[1..] + Flatten(stages), w, s.log);
        assert FlatRun(steps + Flatten(stages), w, log) == ([s.result] + t.0, t.1);
        assert acc + [s.result] + t.0 == acc + ([s.result] + t.0);
      }
    } else if |stages| > 0 {
      assert steps + Flatten(stages) == stages[0].steps + Flatten(stages[1..]);
      RunFromIsFlat(stages[0].steps, stages[1..], acc, w, log);
    } else {
      assert steps + Flatten(stages) == [];
      assert acc + [] == acc;
    }
  }

  /**
   * The flat loop's results: at most one per step, every one but the last
   * successful, and ending early only after an unsuccessful step.
   */
  lemma {:induction false} FlatRunStops(steps: seq<Step>, w: World, log: Log)
    ensures var rs := FlatRun(steps, w, log).0;
      && |rs| <= |steps|
      && (steps != [] ==> |rs| > 0)
      && (forall k :: 0 <= k < |rs| - 1 ==> rs[k].success)
      && (|rs| < |steps| ==> !rs[|rs| - 1].success)
    decreases |steps|
  {
    if steps != [] {
      var s := StepRun(steps[0], w, log);
      if s.result.success {
        FlatRunStops(steps[1..], w, s.log);
        var t := FlatRun(steps[1..], w, s.log).0;
        assert FlatRun(steps, w, log).0 == [s.result] + t;
      }
    }
  }

  /** The flat loop's result at position k is named by the k-th step. */
  lemma {:induction false} FlatRunNamed(steps: seq<Step>, w: World, log: Log)
    ensures var rs := FlatRun(steps, w, log).0;
      forall k :: 0 <= k < |rs| && k < |steps| ==> NamedBy(steps[k], rs[k].stage)
    decreases |steps|
  {
    if steps != [] {
      var s := StepRun(steps[0], w, log);
      StepRunNamed(steps[0], w, log);
      if s.result.success {
        FlatRunNamed(steps[1..], w, s.log);
        var t := FlatRun(steps[1..], w, s.log).0;
        var rs := [s.result] + t;
        assert FlatRun(steps, w, log).0 == rs;
        forall k | 0 <= k < |rs| && k < |steps|
          ensures NamedBy(steps[k], rs[k].stage)
        {
          if k > 0 {
            assert rs[k] == t[k - 1] && steps[k] == steps[1..][k - 1];
          }
        }
      }
    }
  }

  lemma SeqEmptyPrefix(rs: seq<LocalResult>)
    ensures [] + rs == rs
  {
  }

  lemma ExecuteIsFlat(p: Pipeline, w: World, log: Log)
    ensures ExecuteRun(p, w, log).0 == FlatRun(Flatten(p.stages), w, log).0
  {
    var steps := Flatten(p.stages);
    RunFromIsFlat([], p.stages, [], w, log);
    assert [] + steps == steps;
    SeqEmptyPrefix(FlatRun(steps, w, log).0);
  }

  /**
   * `execute`: the results follow the pipeline's steps in stage/step order,
   * each named by its step; the run stops right after the first
   * unsuccessful step, whose result is the last; with all steps successful
   * there is one result per step, and a pipeline without stages gives none.
   */
  lemma ExecuteShape(p: Pipeline, w: World, log: Log)
    ensures var rs := ExecuteRun(p, w, log).0;
      var steps := Flatten(p.stages);
      && |rs| <= |steps|
      && (forall k :: 0 <= k < |rs| - 1 ==> rs[k].success)
      && (|rs| < |steps| ==> |rs| > 0 && !rs[|rs| - 1].success)
      && (forall k :: 0 <= k < |rs| ==> NamedBy(steps[k], rs[k].stage))
      && (p.stages == [] ==> rs == [])
  {
    ExecuteIsFlat(p, w, log);
    FlatRunStops(Flatten(p.stages), w, log);
    FlatRunNamed(Flatten(p.stages), w, log);
  }
}
