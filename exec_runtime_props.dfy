/**
 * Properties of the `pipeliner-executor` step interpreter: retry and
 * timeout rules, what each step kind may change in the context, step
 * sequences, and the literal `${key}` substitution.
 */
module ExecRuntimeProps {
  import opened Wrappers
  import opened Strings
  import opened Assoc
  import opened Durations
  import opened ExecLib
  import opened ExecContext
  import CoreEnvironment
  import opened CorePipeline
  import opened ExecRuntime

  /** A step of the given kind with no name, timeout or retry option. */
  function Plain(kind: StepType): (s: Step)
    ensures s.stepType == kind && s.name.None?
  {
    Step(kind, None, None, None)
  }

  // ---------------------------------------------------------------------
  // Retry
  // ---------------------------------------------------------------------

  /**
   * The attempts a retry loop with `left` attempts to go makes: each starts
   * from the context and log the previous one left, and they stop after
   * the first Ok result or when no attempt is left.
   */
  function Attempts(inner: Step, left: nat, c: Ctx, w: World, log: Log): (runs: seq<Run>)
    ensures |runs| <= left
    ensures left > 0 ==> |runs| > 0 && runs[0] == StepRun(inner, c, w, log)
    ensures forall i :: 0 <= i < |runs| - 1 ==>
              runs[i].result.Err? && runs[i + 1] == StepRun(inner, runs[i].ctx, w, runs[i].log)
    decreases left
  {
    if left == 0 then []
    else
      var r := StepRun(inner, c, w, log);
      if r.result.Ok? then [r]
      else
        var rest := Attempts(inner, left - 1, r.ctx, w, r.log);
        assert forall i :: 1 <= i < |rest| + 1 ==> ([r] + rest)[i] == rest[i - 1];
        [r] + rest
  }

  /**
   * The retry loop ends as its last attempt did — the first Ok result,
   * of whatever status, unchanged, or the error of the last attempt — and
   * stops early only on an Ok result.
   */
  lemma {:induction false} RetryIsLastAttempt(inner: Step, left: nat, last: Option<ExecError>, count: nat,
                                              c: Ctx, w: World, log: Log)
    requires left > 0
    ensures var runs := Attempts(inner, left, c, w, log);
      && RetryRun(inner, left, last, count, c, w, log) == runs[|runs| - 1]
      && (|runs| < left ==> runs[|runs| - 1].result.Ok?)
    decreases left
  {
    var r := StepRun(inner, c, w, log);
    if r.result.Err? && left > 1 {
      RetryIsLastAttempt(inner, left - 1, Some(r.result.error), count, r.ctx, w, r.log);
    }
  }

  /**
   * `Retry(count, inner)` makes between 1 and `count + 1` attempts; all
   * but the last end in an error; it stops before `count + 1` attempts only
   * on an Ok result; and it returns exactly what the last attempt returned,
   * so when every attempt fails there were `count + 1` of them and the last
   * error is returned.
   */
  lemma RetrySemantics(count: nat, inner: Step, c: Ctx, w: World, log: Log)
    ensures var c1 := c.(currentStep := Some("unnamed"));
      var runs := Attempts(inner, count + 1, c1, w, log);
      var r := StepRun(Plain(Retry(count, inner)), c, w, log);
      && 1 <= |runs| <= count + 1
      && (forall i :: 0 <= i < |runs| - 1 ==> runs[i].result.Err?)
      && (runs[|runs| - 1].result.Err? ==> |runs| == count + 1)
      && r.result == runs[|runs| - 1].result
      && r.log == runs[|runs| - 1].log
  {
    var c1 := c.(currentStep := Some("unnamed"));
    RetryIsLastAttempt(inner, count + 1, None, count, c1, w, log);
  }

  // ---------------------------------------------------------------------
  // Timeout
  // ---------------------------------------------------------------------

  /**
   * A timeout asks the deadline once, after its inner step; in time it
   * passes the inner result on (an error included), late it yields
   * Ok(Timeout). So it returns an error only when its inner step did, in
   * time.
   */
  lemma TimeoutRules(d: Duration, inner: Step, c: Ctx, w: World, log: Log)
    ensures var r := StepRun(Plain(StepType.Timeout(d, inner)), c, w, log);
      var i := StepRun(inner, c.(currentStep := Some("unnamed")), w, log);
      && r.log == i.log.(deadline := i.log.deadline + [d])
      && r.result == (if w.inTime(|i.log.deadline|, d) then i.result else Ok(ExecutionStatus.Timeout))
      && (r.result.Err? ==> i.result.Err? && w.inTime(|i.log.deadline|, d))
  {
    var c1 := c.(currentStep := Some("unnamed"));
    assert DispatchRun(Plain(StepType.Timeout(d, inner)), c1, w, log) == TimeoutRun(inner, d, c1, w, log);
  }

  // ---------------------------------------------------------------------
  // What a step may change
  // ---------------------------------------------------------------------

  /** `b` differs from `a` at most in its stashes and its current-step marker. */
  predicate OnlyStashesAndStep(a: Ctx, b: Ctx) {
    b == a.(stashes := b.stashes, currentStep := b.currentStep)
  }

  /**
   * Every step leaves the working directory, the directory stack and
   * everything else in the context as it found it, except the stash map;
   * and it leaves no current step marked. In particular a `Dir` block
   * restores the directory and the stack whatever its steps return.
   */
  lemma {:induction false} StepKeepsContext(step: Step, c: Ctx, w: World, log: Log)
    ensures var r := StepRun(step, c, w, log);
      OnlyStashesAndStep(c, r.ctx) && r.ctx.currentStep.None?
    decreases step, 2
  {
    var c1 := c.(currentStep := Some(StepName(step)));
    DispatchKeepsContext(step, c1, w, log);
  }

  lemma {:induction false} DispatchKeepsContext(step: Step, c: Ctx, w: World, log: Log)
    ensures OnlyStashesAndStep(c, DispatchRun(step, c, w, log).ctx)
    decreases step, 1
  {
    match step.stepType
    case Retry(count, inner) => RetryKeepsContext(inner, count + 1, None, count, c, w, log);
    case Timeout(d, inner) => StepKeepsContext(inner, c, w, log);
    case Dir(path, steps) =>
      var pushed := PushDirOf(c, path);
      StepsKeepContext(steps, pushed, w, log);
      var r := StepsRun(steps, pushed, w, log);
      assert r.ctx.dirStack == pushed.dirStack;
    case _ =>
  }

  lemma {:induction false} RetryKeepsContext(inner: Step, left: nat, last: Option<ExecError>, count: nat,
                                             c: Ctx, w: World, log: Log)
    ensures OnlyStashesAndStep(c, RetryRun(inner, left, last, count, c, w, log).ctx)
    decreases inner, 3, left
  {
    if left > 0 {
      StepKeepsContext(inner, c, w, log);
      var r := StepRun(inner, c, w, log);
      if r.result.Err? {
        RetryKeepsContext(inner, left - 1, Some(r.result.error), count, r.ctx, w, r.log);
      }
    }
  }

  lemma {:induction false} StepsKeepContext(steps: seq<Step>, c: Ctx, w: World, log: Log)
    ensures OnlyStashesAndStep(c, StepsRun(steps, c, w, log).ctx)
    decreases steps, 0
  {
    if |steps| > 0 {
      StepKeepsContext(steps[0], c, w, log);
      var r := StepRun(steps[0], c, w, log);
      if r.result == Ok(Success) {
        StepsKeepContext(steps[1..], r.ctx, w, r.log);
      }
    }
  }

  /** In particular, a `Dir` step gives back the directory and the stack it found. */
  lemma DirRestoresDirectory(path: string, steps: seq<Step>, c: Ctx, w: World, log: Log)
    ensures var r := StepRun(Plain(Dir(path, steps)), c, w, log);
      r.ctx.workingDir == c.workingDir && r.ctx.dirStack == c.dirStack
  {
    StepKeepsContext(Plain(Dir(path, steps)), c, w, log);
  }

  // ---------------------------------------------------------------------
  // Simple kinds
  // ---------------------------------------------------------------------

  /** Echo, Input and Custom steps always succeed and ask nothing. */
  lemma InertStepsSucceed(step: Step, c: Ctx, w: World, log: Log)
    requires step.stepType.Echo? || step.stepType.Input? || step.stepType.Custom?
    ensures var r := StepRun(step, c, w, log);
      r.result == Ok(Success) && r.log == log && r.ctx == c.(currentStep := None)
  {
  }

  /** Unstashing a name that was never stashed is Ok(Failure), and asks nothing. */
  lemma UnstashMissingFails(name: string, c: Ctx, w: World, log: Log)
    requires !HasStashOf(c, name)
    ensures var r := StepRun(Plain(Unstash(name)), c, w, log);
      r.result == Ok(Failure) && r.log == log
  {
  }

  /**
   * A shell step whose command line splits into words starts exactly one
   * process and is Success exactly when that process exited successfully;
   * a non-successful exit is Failure, not an error.
   */
  lemma ShellStatus(command: string, c: Ctx, w: World, log: Log)
    requires var line := ResolveVariables(ResolveVariables(command, c.environment.vars), c.environment.vars);
      w.split(line).Ok? && |w.split(line).value| > 0
    ensures var r := StepRun(Plain(Shell(command)), c, w, log);
      && |r.log.process| == |log.process| + 1
      && var a := w.process(|log.process|, r.log.process[|log.process|]);
      && (r.result == Ok(Success) <==> a == Exited(true))
      && (r.result == Ok(Failure) <==> a == Exited(false))
  {
  }

  /** A stash followed by an unstash of the same name, both succeeding, leaves no stash of that name behind. */
  lemma StashThenUnstash(name: string, includes: seq<string>, excludes: seq<string>, c: Ctx, w: World, log: Log)
    ensures var s := StepRun(Plain(Stash(name, includes, excludes)), c, w, log);
      var u := StepRun(Plain(Unstash(name)), s.ctx, w, s.log);
      && (s.result.Ok? ==> HasStashOf(s.ctx, name) && (u.result.Ok? ==> u.result.value == Success))
      && !HasStashOf(u.ctx, name)
  {
  }

  // ---------------------------------------------------------------------
  // Step sequences
  // ---------------------------------------------------------------------

  /**
   * Running `a + b` is running `a` and, only if it ended in Ok(Success),
   * `b` from where `a` left the context and the log; so a failing status or
   * an error stops the sequence, and later steps are never run.
   */
  lemma {:induction false} StepsAppend(a: seq<Step>, b: seq<Step>, c: Ctx, w: World, log: Log)
    ensures var ra := StepsRun(a, c, w, log);
      StepsRun(a + b, c, w, log) == if ra.result == Ok(Success) then StepsRun(b, ra.ctx, w, ra.log) else ra
    decreases |a|
  {
    if |a| == 0 {
      assert a + b == b;
    } else {
      assert (a + b)[0] == a[0] && (a + b)[1..] == a[1..] + b;
      var r := StepRun(a[0], c, w, log);
      if r.result == Ok(Success) {
        StepsAppend(a[1..], b, r.ctx, w, r.log);
      }
    }
  }

  /** A single step run as a sequence gives that step's own result. */
  lemma StepsSingle(s: Step, c: Ctx, w: World, log: Log)
    ensures StepsRun([s], c, w, log) == StepRun(s, c, w, log)
  {
    var r := StepRun(s, c, w, log);
    assert [s][1..] == [];
  }

  /** The empty sequence succeeds without asking anything. */
  lemma StepsEmpty(c: Ctx, w: World, log: Log)
    ensures StepsRun([], c, w, log) == Run(Ok(Success), c, log)
  {
  }

  // ---------------------------------------------------------------------
  // Variable substitution
  // ---------------------------------------------------------------------

  /**
   * Text in which no key's placeholder occurs comes back unchanged:
   * unknown placeholders, `$NAME` forms and everything else are left as
   * they are.
   */
  lemma {:induction false} ResolveUntouched(input: string, vars: Entries<CoreEnvironment.EnvVarValue>)
    requires forall i :: 0 <= i < |vars| ==> !Contains(input, Placeholder(vars[i].0))
    ensures ResolveVariables(input, vars) == input
    decreases |vars|
  {
    if |vars| > 0 {
      ReplaceAbsent(input, Placeholder(vars[0].0), CoreEnvironment.Display(vars[0].1));
      assert forall i :: 0 <= i < |vars[1..]| ==> vars[1..][i] == vars[i + 1];
      ResolveUntouched(input, vars[1..]);
    }
  }

  /** Text without any `${` is never changed. */
  lemma ResolveWithoutPlaceholders(input: string, vars: Entries<CoreEnvironment.EnvVarValue>)
    requires !Contains(input, "${")
    ensures ResolveVariables(input, vars) == input
  {
    forall i | 0 <= i < |vars| ensures !Contains(input, Placeholder(vars[i].0)) {
      var p := Placeholder(vars[i].0);
      if Contains(input, p) {
        var j :| 0 <= j <= |input| - |p| && OccursAt(input, p, j);
        assert input[j..j + |p|] == p;
        assert input[j..j + 2] == input[j..j + |p|][..2];
        assert OccursAt(input, "${", j);
      }
    }
    ResolveUntouched(input, vars);
  }

  /** `${FOO}` with FOO set to "bar" gives "bar"; a masked secret is substituted as "***". */
  lemma ResolveExamples(secret: string)
    ensures ResolveVariables("${FOO}", [("FOO", CoreEnvironment.Value("bar"))]) == "bar"
    ensures ResolveVariables("${TOKEN}", [("TOKEN", CoreEnvironment.Secret(secret, true))]) == "***"
  {
    assert Placeholder("FOO") == "${FOO}";
    assert ReplaceAll("${FOO}", "${FOO}", "bar") == "bar" + ReplaceAll("", "${FOO}", "bar");
    assert Placeholder("TOKEN") == "${TOKEN}";
    assert ReplaceAll("${TOKEN}", "${TOKEN}", "***") == "***" + ReplaceAll("", "${TOKEN}", "***");
  }
}
