/**
 * Properties of the execution strategies: the sequential strategy never
 * returns an error; it reports as executed every stage it started and
 * every step those stages declare; it succeeds exactly when every stage
 * it ran let the run go on, and a stage that stops the run stays marked
 * as the current stage. The matrix strategy never returns an error and
 * counts every cell once, as executed or as failed.
 */
module ExecStrategyProps {
  import opened Wrappers
  import opened Assoc
  import opened ExecLib
  import opened ExecContext
  import opened CorePipeline
  import opened ExecRuntime
  import opened ExecRuntimeProps
  import opened ExecStrategy
  import CoreMatrix

  /**
   * The runs of the stages the sequential loop starts, each from the
   * context and log the previous one left; the list ends with the first
   * stage that does not let the run go on.
   */
  function StageRuns(stages: seq<Stage>, c: Ctx, w: World, log: Log): (rs: seq<Run>)
    ensures |rs| <= |stages|
    decreases |stages|
  {
    if |stages| == 0 then []
    else
      var r := StepsRun(stages[0].steps, c.(currentStage := Some(stages[0].name)), w, log);
      if Continues(r.result) then [r] + StageRuns(stages[1..], r.ctx.(currentStage := None), w, r.log)
      else [r]
  }

  /** The number of steps the stages declare. */
  function DeclaredSteps(stages: seq<Stage>): nat {
    if |stages| == 0 then 0 else |stages[0].steps| + DeclaredSteps(stages[1..])
  }

  /** Every run of the list let the run go on. */
  predicate AllContinue(rs: seq<Run>) {
    forall i :: 0 <= i < |rs| ==> Continues(rs[i].result)
  }

  lemma AllContinueCons(r: Run, tail: seq<Run>)
    ensures AllContinue([r] + tail) <==> Continues(r.result) && AllContinue(tail)
  {
    var rs := [r] + tail;
    if Continues(r.result) && AllContinue(tail) {
      forall i | 0 <= i < |rs| ensures Continues(rs[i].result) {
        if i > 0 { assert rs[i] == tail[i - 1]; }
      }
    }
    if AllContinue(rs) {
      assert rs[0] == r;
      forall i | 0 <= i < |tail| ensures Continues(tail[i].result) {
        assert tail[i] == rs[i + 1];
      }
    }
  }

  lemma DeclaredStepsPrefix(stages: seq<Stage>, k: nat)
    requires 0 < k <= |stages|
    ensures DeclaredSteps(stages[..k]) == |stages[0].steps| + DeclaredSteps(stages[1..][..k - 1])
  {
    assert stages[..k][0] == stages[0];
    assert stages[..k][1..] == stages[1..][..k - 1];
  }

  /**
   * What the stage loop counts: it never gives an error and reads the
   * clock once more; the counts add the stages started and the steps they
   * declare, and the duration runs from the start reading to the last.
   */
  lemma {:induction false} StagesRunCounts(stages: seq<Stage>, done: nat, steps: nat, start: int, c: Ctx, w: World,
                                           now: (nat, Unit) -> int, log: Log, readings: nat)
    ensures var o := StagesRun(stages, done, steps, start, c, w, now, log, readings);
            var rs := StageRuns(stages, c, w, log);
            o.result.Ok? && o.readings == readings + 1
            && o.result.value.stagesExecuted == done + |rs|
            && o.result.value.stepsExecuted == steps + DeclaredSteps(stages[..|rs|])
            && o.result.value.duration == now(readings, Unit) - start
    decreases |stages|
  {
    if |stages| > 0 {
      var s := stages[0];
      var r := StepsRun(s.steps, c.(currentStage := Some(s.name)), w, log);
      var rs := StageRuns(stages, c, w, log);
      if Continues(r.result) {
        var c2 := r.ctx.(currentStage := None);
        StagesRunCounts(stages[1..], done + 1, steps + |s.steps|, start, c2, w, now, r.log, readings);
        assert rs == [r] + StageRuns(stages[1..], c2, w, r.log);
        DeclaredStepsPrefix(stages, |rs|);
      } else {
        assert rs == [r];
        DeclaredStepsPrefix(stages, 1);
      }
    }
  }

  /**
   * How the stage loop ends: with a success result exactly when every
   * started stage let the run go on, and then every stage was started;
   * otherwise with the stopping stage still marked current.
   */
  lemma {:induction false} StagesRunStatus(stages: seq<Stage>, done: nat, steps: nat, start: int, c: Ctx, w: World,
                                           now: (nat, Unit) -> int, log: Log, readings: nat)
    ensures var o := StagesRun(stages, done, steps, start, c, w, now, log, readings);
            var rs := StageRuns(stages, c, w, log);
            o.result.Ok?
            && (ResultIsSuccess(o.result.value) <==> AllContinue(rs))
            && (AllContinue(rs) ==> |rs| == |stages|)
            && (!AllContinue(rs) ==> o.ctx.currentStage == Some(stages[|rs| - 1].name))
    decreases |stages|
  {
    if |stages| > 0 {
      var s := stages[0];
      var c1 := c.(currentStage := Some(s.name));
      var r := StepsRun(s.steps, c1, w, log);
      var rs := StageRuns(stages, c, w, log);
      if Continues(r.result) {
        var c2 := r.ctx.(currentStage := None);
        StagesRunStatus(stages[1..], done + 1, steps + |s.steps|, start, c2, w, now, r.log, readings);
        var tail := StageRuns(stages[1..], c2, w, r.log);
        assert rs == [r] + tail;
        AllContinueCons(r, tail);
        if !AllContinue(rs) {
          assert stages[|rs| - 1] == stages[1..][|tail| - 1];
        }
      } else {
        StepsKeepContext(s.steps, c1, w, log);
        assert rs == [r];
        assert !Continues(rs[0].result);
      }
    }
  }

  /** `SequentialStrategy::execute` never returns an error. */
  lemma SequentialNeverFails(p: Pipeline, c: Ctx, w: World, now: (nat, Unit) -> int, log: Log, readings: nat)
    ensures SequentialRun(p, c, w, now, log, readings).result.Ok?
  {
    StagesRunCounts(p.stages, 0, 0, now(readings, Unit), c, w, now, log, readings + 1);
  }

  /** A pipeline without stages succeeds at once, with nothing executed and the context untouched. */
  lemma EmptyPipelineSucceeds(p: Pipeline, c: Ctx, w: World, now: (nat, Unit) -> int, log: Log, readings: nat)
    requires p.stages == []
    ensures var o := SequentialRun(p, c, w, now, log, readings);
            o.result == Ok(SuccessResult(0, 0, now(readings + 1, Unit) - now(readings, Unit)))
            && o.ctx == c && o.log == log && o.readings == readings + 2
  {
  }

  // ---------------------------------------------------------------------
  // The matrix strategy
  // ---------------------------------------------------------------------

  /**
   * What the corrected cell loop reports: never an error; every cell is
   * counted once, in `stagesExecuted` when its run succeeded and in
   * `stepsExecuted` when it did not; the result is a success exactly when
   * no cell failed, and otherwise names the number of failed cells.
   */
  lemma {:induction false} CellsRunCounts(p: Pipeline, cells: seq<CoreMatrix.MatrixCell>, executed: nat, failed: nat,
                                          start: int, c: Ctx, w: World, now: (nat, Unit) -> int, log: Log, readings: nat)
    ensures var o := CellsRunIntended(p, cells, executed, failed, start, c, w, now, log, readings);
            o.result.Ok?
            && o.result.value.stagesExecuted + o.result.value.stepsExecuted == executed + failed + |cells|
            && o.result.value.stagesExecuted >= executed && o.result.value.stepsExecuted >= failed
            && (ResultIsSuccess(o.result.value) <==> o.result.value.stepsExecuted == 0)
            && (!ResultIsSuccess(o.result.value) ==>
                  o.result.value.error == Some(NatToText(o.result.value.stepsExecuted) + " matrix cells failed"))
    decreases |cells|
  {
    if |cells| > 0 {
      var o := SequentialRun(p, CellSetup(c, cells[0]), w, now, log, readings);
      var ok := CellSucceeded(o.result);
      CellsRunCounts(p, cells[1..], if ok then executed + 1 else executed, if ok then failed else failed + 1,
                     start, o.ctx, w, now, o.log, o.readings);
    }
  }

  /**
   * `MatrixStrategy::execute` with a matrix whose generation does not
   * panic: never an error, a success result, and every generated cell
   * counted as executed, none as failed, whatever the cells' runs gave.
   */
  lemma MatrixCountsEveryCell(p: Pipeline, c: Ctx, w: World, now: (nat, Unit) -> int, log: Log, readings: nat)
    requires p.matrix.Some? && !CoreMatrix.HasZeroStep(p.matrix.value.axes)
    ensures var o := MatrixRun(p, c, w, now, log, readings);
            var m := p.matrix.value;
            o.Some? && o.value.result.Ok? && ResultIsSuccess(o.value.result.value)
            && o.value.result.value.stagesExecuted == |CoreMatrix.CellsOf(m, CoreMatrix.Combinations(m).value)|
            && o.value.result.value.stepsExecuted == 0
  {
    var m := p.matrix.value;
    AsWrittenNeverCountsFailure(p, CoreMatrix.CellsOf(m, CoreMatrix.Combinations(m).value), 0, 0, now(readings, Unit),
                                c, w, now, log, readings + 1);
  }

  /**
   * The cell loop as written counts every cell as executed and none as
   * failed, whatever its run reported, because the sequential strategy
   * never returns an error.
   */
  lemma {:induction false} AsWrittenNeverCountsFailure(p: Pipeline, cells: seq<CoreMatrix.MatrixCell>, executed: nat,
                                                       failed: nat, start: int, c: Ctx, w: World,
                                                       now: (nat, Unit) -> int, log: Log, readings: nat)
    ensures var o := CellsRun(p, cells, executed, failed, start, c, w, now, log, readings);
            o.result.Ok? && o.result.value.stagesExecuted == executed + |cells| && o.result.value.stepsExecuted == failed
            && (failed == 0 ==> ResultIsSuccess(o.result.value))
    decreases |cells|
  {
    if |cells| > 0 {
      var o := SequentialRun(p, CellSetup(c, cells[0]), w, now, log, readings);
      SequentialNeverFails(p, CellSetup(c, cells[0]), w, now, log, readings);
      AsWrittenNeverCountsFailure(p, cells[1..], executed + 1, failed, start, o.ctx, w, now, o.log, o.readings);
    }
  }

  /**
   * A one-cell matrix over a pipeline whose only stage unstashes a stash
   * that does not exist: the cell's run is a failure result, yet the loop
   * as written reports overall success with the cell counted as executed,
   * while the corrected loop reports "1 matrix cells failed".
   */
  lemma FailedCellReportedAsSuccess(p: Pipeline, cell: CoreMatrix.MatrixCell, name: string, start: int, c: Ctx,
                                    w: World, now: (nat, Unit) -> int, log: Log, readings: nat)
    requires |p.stages| == 1 && p.stages[0].steps == [Plain(Unstash(name))] && !HasStashOf(c, name)
    ensures var r := SequentialRun(p, CellSetup(c, cell), w, now, log, readings).result;
            r.Ok? && !ResultIsSuccess(r.value)
    ensures var o := CellsRun(p, [cell], 0, 0, start, c, w, now, log, readings);
            o.result.Ok? && ResultIsSuccess(o.result.value) && o.result.value.stagesExecuted == 1
    ensures var o := CellsRunIntended(p, [cell], 0, 0, start, c, w, now, log, readings);
            o.result.Ok? && !ResultIsSuccess(o.result.value) && o.result.value.stepsExecuted == 1
            && o.result.value.error == Some("1 matrix cells failed")
  {
    FailedCellRun(p, cell, name, c, w, now, log, readings);
    AsWrittenNeverCountsFailure(p, [cell], 0, 0, start, c, w, now, log, readings);
    var o := SequentialRun(p, CellSetup(c, cell), w, now, log, readings);
    assert !CellSucceeded(o.result);
    assert [cell][1..] == [];
    assert CellsRunIntended(p, [cell], 0, 0, start, c, w, now, log, readings)
        == CellsRunIntended(p, [], 0, 1, start, o.ctx, w, now, o.log, o.readings);
    OneCellFailedText();
  }

  /** The one stage of such a pipeline fails on the missing stash. */
  lemma FailedCellRun(p: Pipeline, cell: CoreMatrix.MatrixCell, name: string, c: Ctx,
                      w: World, now: (nat, Unit) -> int, log: Log, readings: nat)
    requires |p.stages| == 1 && p.stages[0].steps == [Plain(Unstash(name))] && !HasStashOf(c, name)
    ensures var r := SequentialRun(p, CellSetup(c, cell), w, now, log, readings).result;
            r.Ok? && !ResultIsSuccess(r.value)
  {
    var s := p.stages[0];
    var c1 := CellSetup(c, cell).(currentStage := Some(s.name));
    assert !HasStashOf(c1, name);
    UnstashMissingFails(name, c1, w, log);
    assert StepsRun(s.steps, c1, w, log).result == Ok(Failure);
    StagesRunStatus(p.stages, 0, 0, now(readings, Unit), CellSetup(c, cell), w, now, log, readings + 1);
  }

  lemma OneCellFailedText()
    ensures NatToText(1) + " matrix cells failed" == "1 matrix cells failed"
  {
  }

  /** What the matrix loop writes before a cell's run: each of the cell's values can be read back as a parameter. */
  lemma CellSetupParameters(c: Ctx, cell: CoreMatrix.MatrixCell, key: string)
    requires Distinct(cell.values)
    ensures GetParameterOf(CellSetup(c, cell), key)
            == if HasKey(cell.values, key) then Get(cell.values, key) else GetParameterOf(c, key)
  {
    GetInsertAll(SetMetadataOf(c, "matrix_cell", cell.name).parameters, cell.values, key);
  }
}
