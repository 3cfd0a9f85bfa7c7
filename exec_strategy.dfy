/**
 * The execution strategies of `pipeliner-executor`: the sequential stage
 * loop, the matrix loop that reruns the whole pipeline once per cell, and
 * `execute_stage`.
 *
 * Besides the oracles of the step interpreter, the strategies read a clock
 * (`chrono::Utc::now`), an oracle answering the current time in
 * milliseconds; durations are differences of two readings.
 */
module ExecStrategy {
  import opened Wrappers
  import opened Assoc
  import opened Oracles
  import opened ExecLib
  import opened ExecContext
  import opened CorePipeline
  import opened ExecRuntime
  import CoreMatrix

  type Clock = Oracle<Unit, int>

  /** A strategy's result, the context after it, the interpreter's log and the number of clock readings. */
  datatype Outcome = Outcome(result: Result<ExecutionResult, ExecError>, ctx: Ctx, log: Log, readings: nat)

  // ---------------------------------------------------------------------
  // execute_stage
  // ---------------------------------------------------------------------

  /**
   * `execute_stage`: the stage's steps in order through a fresh step
   * executor — the same loop as `execute_steps`, so it is proved against
   * the same function.
   */
  method ExecuteStage(stage: Stage, ctx: ExecutionContext, split: Splitter, procs: Processes, files: Files, deadline: Deadline)
    returns (result: Result<ExecutionStatus, ExecError>)
    modifies ctx, procs, files, deadline
    ensures Run(result, ctx.State(), LogOf(procs, files, deadline))
         == StepsRun(stage.steps, old(ctx.State()), WorldOf(split, procs, files, deadline), old(LogOf(procs, files, deadline)))
  {
    ghost var w := WorldOf(split, procs, files, deadline);
    ghost var full := StepsRun(stage.steps, ctx.State(), w, LogOf(procs, files, deadline));
    var steps := stage.steps;
    var i := 0;
    while i < |steps|
      invariant 0 <= i <= |steps|
      invariant WorldOf(split, procs, files, deadline) == w
      invariant StepsRun(steps[i..], ctx.State(), w, LogOf(procs, files, deadline)) == full
    {
      assert steps[i..][0] == steps[i] && steps[i..][1..] == steps[i + 1..];
      var r := Execute(steps[i], ctx, split, procs, files, deadline);
      if r != Ok(Success) {
        return r;
      }
      i := i + 1;
    }
    assert steps[i..] == [];
    result := Ok(Success);
  }

  // ---------------------------------------------------------------------
  // The sequential strategy
  // ---------------------------------------------------------------------

  /** A stage result that lets the sequential loop go on: Ok(Success) or Ok(Unstable). */
  predicate Continues(r: Result<ExecutionStatus, ExecError>) {
    r == Ok(Success) || r == Ok(Unstable)
  }

  /** The message of the failure result for a stage that stopped the run. */
  function StopMessage(name: string, r: Result<ExecutionStatus, ExecError>): string {
    if r.Ok? then "Stage '" + name + "' failed with status: " + StatusName(r.value)
    else "Stage '" + name + "' error: " + ErrorMessage(r.error)
  }

  /**
   * The stage loop over the stages still to run, with the counts so far and
   * the start time: each stage is marked current, run, and counted with all
   * its declared steps; a stage that does not continue ends the run with a
   * failure result and stays marked; otherwise its marker is cleared.
   */
  function StagesRun(stages: seq<Stage>, done: nat, steps: nat, start: int, c: Ctx, w: World,
                     now: (nat, Unit) -> int, log: Log, readings: nat): (o: Outcome)
    ensures o.readings > readings
    decreases |stages|
  {
    if |stages| == 0 then
      Outcome(Ok(SuccessResult(done, steps, now(readings, Unit) - start)), c, log, readings + 1)
    else
      var s := stages[0];
      var r := StepsRun(s.steps, c.(currentStage := Some(s.name)), w, log);
      if Continues(r.result) then
        StagesRun(stages[1..], done + 1, steps + |s.steps|, start, r.ctx.(currentStage := None), w, now, r.log, readings)
      else
        Outcome(Ok(FailureResult(done + 1, steps + |s.steps|, now(readings, Unit) - start, StopMessage(s.name, r.result))),
                r.ctx, r.log, readings + 1)
  }

  /** `SequentialStrategy::execute`: the clock is read at the start, then the stage loop runs. */
  function SequentialRun(p: Pipeline, c: Ctx, w: World, now: (nat, Unit) -> int, log: Log, readings: nat): (o: Outcome)
    ensures o.readings >= readings + 2
  {
    StagesRun(p.stages, 0, 0, now(readings, Unit), c, w, now, log, readings + 1)
  }

  /** A turn of the stage loop whose stage lets the run go on. */
  lemma ContinueTurn(stages: seq<Stage>, done: nat, steps: nat, start: int, c: Ctx, w: World,
                     now: (nat, Unit) -> int, log: Log, readings: nat, r: Run)
    requires |stages| > 0
    requires r == StepsRun(stages[0].steps, c.(currentStage := Some(stages[0].name)), w, log)
    requires Continues(r.result)
    ensures StagesRun(stages, done, steps, start, c, w, now, log, readings)
         == StagesRun(stages[1..], done + 1, steps + |stages[0].steps|, start, r.ctx.(currentStage := None), w, now, r.log, readings)
  {
  }

  /** A turn of the stage loop whose stage stops the run. */
  lemma StopTurn(stages: seq<Stage>, done: nat, steps: nat, start: int, c: Ctx, w: World,
                 now: (nat, Unit) -> int, log: Log, readings: nat, r: Run)
    requires |stages| > 0
    requires r == StepsRun(stages[0].steps, c.(currentStage := Some(stages[0].name)), w, log)
    requires !Continues(r.result)
    ensures StagesRun(stages, done, steps, start, c, w, now, log, readings)
         == Outcome(Ok(FailureResult(done + 1, steps + |stages[0].steps|, now(readings, Unit) - start,
                                     StopMessage(stages[0].name, r.result))), r.ctx, r.log, readings + 1)
  {
  }

  /**
   * One stage of the sequential loop: it is marked current and its steps
   * run; the marker is cleared only when the stage lets the run go on.
   */
  method StageTurn(stage: Stage, ctx: ExecutionContext, split: Splitter, procs: Processes, files: Files, deadline: Deadline)
    returns (r: Result<ExecutionStatus, ExecError>)
    modifies ctx, procs, files, deadline
    ensures var rr := StepsRun(stage.steps, old(ctx.State()).(currentStage := Some(stage.name)),
                               WorldOf(split, procs, files, deadline), old(LogOf(procs, files, deadline)));
            r == rr.result && LogOf(procs, files, deadline) == rr.log
            && ctx.State() == if Continues(r) then rr.ctx.(currentStage := None) else rr.ctx
  {
    ctx.SetCurrentStage(stage.name);
    r := ExecuteStage(stage, ctx, split, procs, files, deadline);
    if Continues(r) {
      ctx.ClearCurrentStage();
    }
  }

  /**
   * One turn of the sequential loop: stage `i` is run and counted and,
   * when it stops the run, the clock is read and the failure result built.
   */
  method SequentialTurn(p: Pipeline, i: nat, done: nat, steps: nat, start: int,
                        ctx: ExecutionContext, split: Splitter, procs: Processes, files: Files,
                        deadline: Deadline, clock: Clock)
    returns (stop: bool, result: Result<ExecutionResult, ExecError>)
    requires i < |p.stages|
    modifies ctx, procs, files, deadline, clock
    ensures stop ==>
              Outcome(result, ctx.State(), LogOf(procs, files, deadline), |clock.asked|)
              == StagesRun(p.stages[i..], done, steps, start, old(ctx.State()), WorldOf(split, procs, files, deadline),
                           clock.answer, old(LogOf(procs, files, deadline)), old(|clock.asked|))
    ensures !stop ==>
              StagesRun(p.stages[i + 1..], done + 1, steps + |p.stages[i].steps|, start, ctx.State(),
                        WorldOf(split, procs, files, deadline), clock.answer, LogOf(procs, files, deadline), |clock.asked|)
              == StagesRun(p.stages[i..], done, steps, start, old(ctx.State()), WorldOf(split, procs, files, deadline),
                           clock.answer, old(LogOf(procs, files, deadline)), old(|clock.asked|))
  {
    var stage := p.stages[i];
    ghost var stages := p.stages[i..];
    assert stages[0] == stage && stages[1..] == p.stages[i + 1..];
    ghost var w := WorldOf(split, procs, files, deadline);
    ghost var c := ctx.State();
    ghost var log := LogOf(procs, files, deadline);
    ghost var k := |clock.asked|;
    var r := StageTurn(stage, ctx, split, procs, files, deadline);
    ghost var rr := StepsRun(stage.steps, c.(currentStage := Some(stage.name)), w, log);
    assert r == rr.result && LogOf(procs, files, deadline) == rr.log;
    if Continues(r) {
      ContinueTurn(stages, done, steps, start, c, w, clock.answer, log, k, rr);
      return false, Ok(SuccessResult(0, 0, 0));
    }
    StopTurn(stages, done, steps, start, c, w, clock.answer, log, k, rr);
    var t := clock.Ask(Unit);
    assert t == clock.answer(k, Unit) && |clock.asked| == k + 1;
    assert ctx.State() == rr.ctx && LogOf(procs, files, deadline) == rr.log;
    return true, Ok(FailureResult(done + 1, steps + |stage.steps|, t - start, StopMessage(stage.name, r)));
  }

  /** `SequentialStrategy::execute`, proved against `SequentialRun`. */
  method Sequential(p: Pipeline, ctx: ExecutionContext, split: Splitter, procs: Processes, files: Files,
                    deadline: Deadline, clock: Clock)
    returns (result: Result<ExecutionResult, ExecError>)
    modifies ctx, procs, files, deadline, clock
    ensures Outcome(result, ctx.State(), LogOf(procs, files, deadline), |clock.asked|)
         == SequentialRun(p, old(ctx.State()), WorldOf(split, procs, files, deadline), clock.answer,
                          old(LogOf(procs, files, deadline)), old(|clock.asked|))
  {
    ghost var w := WorldOf(split, procs, files, deadline);
    ghost var c := ctx.State();
    ghost var log := LogOf(procs, files, deadline);
    ghost var k := |clock.asked|;
    var start := clock.Ask(Unit);
    assert ctx.State() == c && LogOf(procs, files, deadline) == log && start == clock.answer(k, Unit);
    ghost var full := StagesRun(p.stages, 0, 0, start, c, w, clock.answer, log, k + 1);
    assert full == SequentialRun(p, c, w, clock.answer, log, k);
    var stagesExecuted: nat := 0;
    var stepsExecuted: nat := 0;
    var i := 0;
    while i < |p.stages|
      invariant 0 <= i <= |p.stages|
      invariant WorldOf(split, procs, files, deadline) == w
      invariant StagesRun(p.stages[i..], stagesExecuted, stepsExecuted, start, ctx.State(), w, clock.answer,
                          LogOf(procs, files, deadline), |clock.asked|) == full
    {
      var stop, r := SequentialTurn(p, i, stagesExecuted, stepsExecuted, start, ctx, split, procs, files, deadline, clock);
      if stop {
        return r;
      }
      stagesExecuted := stagesExecuted + 1;
      stepsExecuted := stepsExecuted + |p.stages[i].steps|;
      i := i + 1;
    }
    assert p.stages[i..] == [];
    result := FinishStages(p.stages[i..], stagesExecuted, stepsExecuted, start, ctx, split, procs, files, deadline, clock);
  }

  /** After the stage loop: the clock is read and the success result reports the counts. */
  method FinishStages(ghost stages: seq<Stage>, stagesExecuted: nat, stepsExecuted: nat, start: int,
                      ctx: ExecutionContext, split: Splitter, procs: Processes, files: Files, deadline: Deadline, clock: Clock)
    returns (result: Result<ExecutionResult, ExecError>)
    requires stages == []
    modifies clock
    ensures Outcome(result, ctx.State(), LogOf(procs, files, deadline), |clock.asked|)
         == StagesRun(stages, stagesExecuted, stepsExecuted, start, ctx.State(), WorldOf(split, procs, files, deadline),
                      clock.answer, LogOf(procs, files, deadline), old(|clock.asked|))
  {
    var t := clock.Ask(Unit);
    result := Ok(SuccessResult(stagesExecuted, stepsExecuted, t - start));
  }

  // ---------------------------------------------------------------------
  // The matrix strategy
  // ---------------------------------------------------------------------

  /** What the matrix loop writes before each cell's run: the cell name as metadata, then each value as a parameter. */
  function CellSetup(c: Ctx, cell: CoreMatrix.MatrixCell): (r: Ctx)
    ensures GetMetadataOf(r, "matrix_cell") == Some(cell.name)
  {
    var named := SetMetadataOf(c, "matrix_cell", cell.name);
    named.(parameters := InsertAll(named.parameters, cell.values))
  }

  /**
   * The loop over the cells still to run, as `MatrixStrategy::execute`
   * writes it: each cell is set up and the whole pipeline run
   * sequentially; every `Ok` run counts as executed and only an `Err` as
   * failed. At the end the clock is read and a failure result is returned
   * if any cell failed. Since the sequential strategy reports a failed
   * stage as an `Ok` failure result, a failed cell counts as executed.
   */
  function CellsRun(p: Pipeline, cells: seq<CoreMatrix.MatrixCell>, executed: nat, failed: nat, start: int,
                    c: Ctx, w: World, now: (nat, Unit) -> int, log: Log, readings: nat): (o: Outcome)
    decreases |cells|
  {
    if |cells| == 0 then
      var duration := now(readings, Unit) - start;
      var r := if failed > 0 then FailureResult(executed, failed, duration, NatToText(failed) + " matrix cells failed")
               else SuccessResult(executed, failed, duration);
      Outcome(Ok(r), c, log, readings + 1)
    else
      var o := SequentialRun(p, CellSetup(c, cells[0]), w, now, log, readings);
      CellsRun(p, cells[1..], if o.result.Ok? then executed + 1 else executed,
               if o.result.Ok? then failed else failed + 1, start, o.ctx, w, now, o.log, o.readings)
  }

  /**
   * The corrected reference for the cell count: a cell counts as executed
   * only when its run gives a success result.
   */
  predicate CellSucceeded(r: Result<ExecutionResult, ExecError>) {
    r.Ok? && ResultIsSuccess(r.value)
  }

  /** The corrected cell loop: a run with a success result counts as executed and any other as failed. */
  function CellsRunIntended(p: Pipeline, cells: seq<CoreMatrix.MatrixCell>, executed: nat, failed: nat, start: int,
                    c: Ctx, w: World, now: (nat, Unit) -> int, log: Log, readings: nat): (o: Outcome)
    decreases |cells|
  {
    if |cells| == 0 then
      var duration := now(readings, Unit) - start;
      var r := if failed > 0 then FailureResult(executed, failed, duration, NatToText(failed) + " matrix cells failed")
               else SuccessResult(executed, failed, duration);
      Outcome(Ok(r), c, log, readings + 1)
    else
      var o := SequentialRun(p, CellSetup(c, cells[0]), w, now, log, readings);
      var ok := CellSucceeded(o.result);
      CellsRunIntended(p, cells[1..], if ok then executed + 1 else executed, if ok then failed else failed + 1,
                       start, o.ctx, w, now, o.log, o.readings)
  }

  function NatToText(n: nat): string {
    Strings.NatToString(n)
  }

  /**
   * `MatrixStrategy::execute`: without a matrix, the sequential strategy;
   * otherwise the cells are generated, the clock read, and the cells run.
   * None stands for the panic of `generate_cells` on a range step of 0,
   * which happens before anything else is done.
   */
  function MatrixRun(p: Pipeline, c: Ctx, w: World, now: (nat, Unit) -> int, log: Log, readings: nat): (o: Option<Outcome>)
    ensures o.None? <==> p.matrix.Some? && CoreMatrix.HasZeroStep(p.matrix.value.axes)
  {
    if p.matrix.None? then Some(SequentialRun(p, c, w, now, log, readings))
    else
      var m := p.matrix.value;
      match CoreMatrix.Combinations(m)
      case None => None
      case Some(combos) =>
        Some(CellsRun(p, CoreMatrix.CellsOf(m, combos), 0, 0, now(readings, Unit), c, w, now, log, readings + 1))
  }

  method Matrix(p: Pipeline, ctx: ExecutionContext, split: Splitter, procs: Processes, files: Files,
                deadline: Deadline, clock: Clock)
    returns (result: Option<Result<ExecutionResult, ExecError>>)
    modifies ctx, procs, files, deadline, clock
    ensures MatrixRun(p, old(ctx.State()), WorldOf(split, procs, files, deadline), clock.answer,
                      old(LogOf(procs, files, deadline)), old(|clock.asked|))
         == if result.None? then None
            else Some(Outcome(result.value, ctx.State(), LogOf(procs, files, deadline), |clock.asked|))
  {
    if p.matrix.None? {
      var r := Sequential(p, ctx, split, procs, files, deadline, clock);
      return Some(r);
    }
    ghost var w := WorldOf(split, procs, files, deadline);
    var m := p.matrix.value;
    var generated := CoreMatrix.GenerateCells(m);
    if generated.None? {
      return None;
    }
    var cells := generated.value;
    ghost var full := CellsRun(p, cells, 0, 0, clock.answer(|clock.asked|, Unit), ctx.State(), w, clock.answer,
                               LogOf(procs, files, deadline), |clock.asked| + 1);
    assert MatrixRun(p, ctx.State(), w, clock.answer, LogOf(procs, files, deadline), |clock.asked|) == Some(full);
    ghost var c0 := ctx.State();
    ghost var log0 := LogOf(procs, files, deadline);
    var start := clock.Ask(Unit);
    assert ctx.State() == c0 && LogOf(procs, files, deadline) == log0;
    assert full == CellsRun(p, cells, 0, 0, start, c0, w, clock.answer, log0, |clock.asked|);
    var executed: nat := 0;
    var failed: nat := 0;
    var i := 0;
    while i < |cells|
      invariant 0 <= i <= |cells|
      invariant WorldOf(split, procs, files, deadline) == w
      invariant CellsRun(p, cells[i..], executed, failed, start, ctx.State(), w, clock.answer,
                         LogOf(procs, files, deadline), |clock.asked|) == full
    {
      var r := RunCell(p, cells, i, executed, failed, start, ctx, split, procs, files, deadline, clock);
      if r.Ok? {
        executed := executed + 1;
      } else {
        failed := failed + 1;
      }
      i := i + 1;
    }
    assert cells[i..] == [];
    var r := FinishCells(p, cells[i..], executed, failed, start, ctx, split, procs, files, deadline, clock);
    return Some(r);
  }

  /** After the cell loop: the clock is read and the result reports how many cells ran and how many failed. */
  method FinishCells(ghost p: Pipeline, ghost cells: seq<CoreMatrix.MatrixCell>, executed: nat, failed: nat, start: int,
                     ctx: ExecutionContext, split: Splitter, procs: Processes, files: Files, deadline: Deadline, clock: Clock)
    returns (result: Result<ExecutionResult, ExecError>)
    requires cells == []
    modifies clock
    ensures Outcome(result, ctx.State(), LogOf(procs, files, deadline), |clock.asked|)
         == CellsRun(p, cells, executed, failed, start, ctx.State(), WorldOf(split, procs, files, deadline),
                     clock.answer, LogOf(procs, files, deadline), old(|clock.asked|))
  {
    CellsDone(p, cells, executed, failed, start, ctx.State(), WorldOf(split, procs, files, deadline),
              clock.answer, LogOf(procs, files, deadline), |clock.asked|);
    var t := clock.Ask(Unit);
    if failed > 0 {
      result := Ok(FailureResult(executed, failed, t - start, NatToText(failed) + " matrix cells failed"));
    } else {
      result := Ok(SuccessResult(executed, failed, t - start));
    }
  }

  /** The end of the cell loop, written out. */
  lemma CellsDone(p: Pipeline, cells: seq<CoreMatrix.MatrixCell>, executed: nat, failed: nat, start: int,
                  c: Ctx, w: World, now: (nat, Unit) -> int, log: Log, readings: nat)
    requires cells == []
    ensures CellsRun(p, cells, executed, failed, start, c, w, now, log, readings)
         == Outcome(Ok(if failed > 0 then FailureResult(executed, failed, now(readings, Unit) - start,
                                                        NatToText(failed) + " matrix cells failed")
                       else SuccessResult(executed, failed, now(readings, Unit) - start)), c, log, readings + 1)
  {
  }

  /** A turn of the cell loop, written out. */
  lemma CellTurn(p: Pipeline, cells: seq<CoreMatrix.MatrixCell>, executed: nat, failed: nat, start: int,
                 c: Ctx, w: World, now: (nat, Unit) -> int, log: Log, readings: nat, o: Outcome)
    requires |cells| > 0
    requires o == SequentialRun(p, CellSetup(c, cells[0]), w, now, log, readings)
    ensures CellsRun(p, cells, executed, failed, start, c, w, now, log, readings)
         == CellsRun(p, cells[1..], if o.result.Ok? then executed + 1 else executed,
                     if o.result.Ok? then failed else failed + 1, start, o.ctx, w, now, o.log, o.readings)
  {
  }

  /**
   * One turn of the matrix loop: the name and values of cell `i` are
   * written into the context, then the whole pipeline runs, and the run is
   * counted as executed when it returns `Ok` and as failed otherwise.
   */
  method RunCell(p: Pipeline, cells: seq<CoreMatrix.MatrixCell>, i: nat,
                 ghost executed: nat, ghost failed: nat, ghost start: int,
                 ctx: ExecutionContext, split: Splitter, procs: Processes,
                 files: Files, deadline: Deadline, clock: Clock)
    returns (result: Result<ExecutionResult, ExecError>)
    requires i < |cells|
    modifies ctx, procs, files, deadline, clock
    ensures CellsRun(p, cells[i + 1..], if result.Ok? then executed + 1 else executed,
                     if result.Ok? then failed else failed + 1, start, ctx.State(), WorldOf(split, procs, files, deadline),
                     clock.answer, LogOf(procs, files, deadline), |clock.asked|)
         == CellsRun(p, cells[i..], executed, failed, start, old(ctx.State()), WorldOf(split, procs, files, deadline),
                     clock.answer, old(LogOf(procs, files, deadline)), old(|clock.asked|))
  {
    var cell := cells[i];
    assert cells[i..][0] == cell && cells[i..][1..] == cells[i + 1..];
    ghost var w := WorldOf(split, procs, files, deadline);
    ghost var c := ctx.State();
    ghost var log := LogOf(procs, files, deadline);
    ghost var k := |clock.asked|;
    ctx.SetMetadata("matrix_cell", cell.name);
    SetParameters(ctx, cell.values);
    assert ctx.State() == CellSetup(c, cell);
    result := Sequential(p, ctx, split, procs, files, deadline, clock);
    CellTurn(p, cells[i..], executed, failed, start, c, w, clock.answer, log, k,
             Outcome(result, ctx.State(), LogOf(procs, files, deadline), |clock.asked|));
  }

  /** The `for (key, value) in &cell_values { set_parameter(key, value) }` loop. */
  method SetParameters(ctx: ExecutionContext, values: Entries<string>)
    modifies ctx
    ensures ctx.State() == old(ctx.State()).(parameters := InsertAll(old(ctx.parameters), values))
  {
    ghost var full := InsertAll(ctx.parameters, values);
    var j := 0;
    while j < |values|
      invariant 0 <= j <= |values|
      invariant InsertAll(ctx.parameters, values[j..]) == full
      invariant ctx.State() == old(ctx.State()).(parameters := ctx.parameters)
    {
      assert values[j..][0] == values[j] && values[j..][1..] == values[j + 1..];
      ctx.SetParameter(values[j].0, values[j].1);
      j := j + 1;
    }
    assert values[j..] == [];
  }
}
