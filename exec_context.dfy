/**
 * `ExecutionContext`: the mutable state threaded through a pipeline run —
 * working directory and directory stack, stashes, parameters, metadata,
 * the current stage and step markers and the result logs.
 *
 * The state is also available as a value (`Ctx`), and each operation is a
 * function on that value; the class's methods are proved to perform
 * exactly those functions, and the round-trip properties are lemmas about
 * the functions.
 */
module ExecContext {
  import opened Wrappers
  import opened Assoc
  import CoreEnvironment
  import opened ExecLib

  /** `StageResult`. */
  datatype StageResult = StageResult(name: string, status: ExecutionStatus, duration: int, error: Option<string>)

  /** `StepResult`. */
  datatype StepResult = StepResult(stage: string, name: Option<string>, status: ExecutionStatus,
                                   duration: int, error: Option<string>, output: Option<string>)

  /** Everything in an execution context except its identifier and start time. */
  datatype Ctx = Ctx(
    workingDir: string, environment: CoreEnvironment.Environment, stashes: Entries<string>,
    currentStage: Option<string>, currentStep: Option<string>,
    stageResults: seq<StageResult>, stepResults: seq<StepResult>,
    dirStack: seq<string>, parameters: Entries<string>, metadata: Entries<string>)

  /** `ExecutionContext::new`, given the process's current directory (None when it cannot be read). */
  function NewCtx(currentDir: Option<string>): (c: Ctx)
    ensures c.workingDir == (if currentDir.Some? then currentDir.value else ".")
    ensures CoreEnvironment.IsEmpty(c.environment) && c.stashes == [] && c.dirStack == []
    ensures c.currentStage.None? && c.currentStep.None? && c.stageResults == [] && c.stepResults == []
    ensures c.parameters == [] && c.metadata == []
  {
    Ctx(if currentDir.Some? then currentDir.value else ".", CoreEnvironment.NewEnvironment(), [],
        None, None, [], [], [], [], [])
  }

  /** `push_dir`: the old directory goes on the stack and `path` becomes the directory, verbatim. */
  function PushDirOf(c: Ctx, path: string): (r: Ctx)
    ensures r.workingDir == path && |r.dirStack| == |c.dirStack| + 1
    ensures r.dirStack[..|c.dirStack|] == c.dirStack && r.dirStack[|c.dirStack|] == c.workingDir
    ensures r.(workingDir := c.workingDir, dirStack := c.dirStack) == c
  {
    c.(dirStack := c.dirStack + [c.workingDir], workingDir := path)
  }

  /**
   * `pop_dir`: the top of the stack becomes the directory and is returned;
   * on an empty stack nothing changes and None is returned.
   */
  function PopDirOf(c: Ctx): (r: (Option<string>, Ctx))
    ensures c.dirStack == [] <==> r.0.None?
    ensures c.dirStack == [] ==> r.1 == c
    ensures c.dirStack != [] ==> r.0 == Some(c.dirStack[|c.dirStack| - 1]) && r.1.workingDir == r.0.value
    ensures c.dirStack != [] ==> r.1.dirStack == c.dirStack[..|c.dirStack| - 1]
    ensures r.1.(workingDir := c.workingDir, dirStack := c.dirStack) == c
  {
    if c.dirStack == [] then (None, c)
    else
      var prev := c.dirStack[|c.dirStack| - 1];
      (Some(prev), c.(dirStack := c.dirStack[..|c.dirStack| - 1], workingDir := prev))
  }

  /** `pop_dir` after `push_dir` restores the directory and the stack, and returns the restored directory. */
  lemma PopAfterPush(c: Ctx, path: string)
    ensures PopDirOf(PushDirOf(c, path)) == (Some(c.workingDir), c)
  {
    assert (c.dirStack + [c.workingDir])[..|c.dirStack|] == c.dirStack;
  }

  /** `stash`: records the path under the name, overwriting an earlier stash of that name. */
  function StashOf(c: Ctx, name: string, path: string): (r: Ctx)
    ensures HasStashOf(r, name)
    ensures r.(stashes := c.stashes) == c
  {
    GetInsertEach(c.stashes, name, path);
    c.(stashes := Insert(c.stashes, name, path))
  }

  /** `unstash`: takes the entry out, returning its path if there was one. */
  function UnstashOf(c: Ctx, name: string): (r: (Option<string>, Ctx))
    ensures r.0.Some? <==> HasStashOf(c, name)
    ensures !HasStashOf(r.1, name)
    ensures r.1.(stashes := c.stashes) == c
  {
    GetRemove(c.stashes, name, name);
    (Get(c.stashes, name), c.(stashes := Remove(c.stashes, name)))
  }

  /** `has_stash`. */
  predicate HasStashOf(c: Ctx, name: string) {
    HasKey(c.stashes, name)
  }

  /**
   * After `stash(n, p)`, `has_stash(n)` holds and `unstash(n)` gives `p`; a
   * second `unstash(n)` gives None, because the first removed the entry.
   */
  lemma StashThenUnstashTwice(c: Ctx, name: string, path: string)
    ensures HasStashOf(StashOf(c, name, path), name)
    ensures UnstashOf(StashOf(c, name, path), name).0 == Some(path)
    ensures UnstashOf(UnstashOf(StashOf(c, name, path), name).1, name).0 == None
  {
    GetInsert(c.stashes, name, path, name);
  }

  /** Stashing a name twice keeps only the second path; other names are unaffected. */
  lemma StashOverwrites(c: Ctx, name: string, first: string, second: string, other: string)
    ensures UnstashOf(StashOf(StashOf(c, name, first), name, second), name).0 == Some(second)
    ensures other != name ==> UnstashOf(StashOf(c, name, first), other).0 == UnstashOf(c, other).0
  {
    GetInsert(Insert(c.stashes, name, first), name, second, name);
    GetInsert(c.stashes, name, first, other);
  }

  /** `record_stage_result`: appended at the end, earlier entries kept. */
  function RecordStageResultOf(c: Ctx, result: StageResult): (r: Ctx)
    ensures |r.stageResults| == |c.stageResults| + 1 && r.stageResults[|c.stageResults|] == result
    ensures r.stageResults[..|c.stageResults|] == c.stageResults
    ensures r.(stageResults := c.stageResults) == c
  {
    c.(stageResults := c.stageResults + [result])
  }

  /** `record_step_result`: appended at the end, earlier entries kept. */
  function RecordStepResultOf(c: Ctx, result: StepResult): (r: Ctx)
    ensures |r.stepResults| == |c.stepResults| + 1 && r.stepResults[|c.stepResults|] == result
    ensures r.stepResults[..|c.stepResults|] == c.stepResults
    ensures r.(stepResults := c.stepResults) == c
  {
    c.(stepResults := c.stepResults + [result])
  }

  /** `set_parameter`: inserted, overwriting. */
  function SetParameterOf(c: Ctx, name: string, value: string): (r: Ctx)
    ensures GetParameterOf(r, name) == Some(value)
    ensures r.(parameters := c.parameters) == c
  {
    GetInsertEach(c.parameters, name, value);
    c.(parameters := Insert(c.parameters, name, value))
  }

  /** `get_parameter`. */
  function GetParameterOf(c: Ctx, name: string): Option<string> {
    Get(c.parameters, name)
  }

  /** `set_parameter` then `get_parameter` round-trips; other names keep their values, and an unknown name gives None. */
  lemma ParameterRoundTrip(c: Ctx, name: string, value: string, other: string)
    ensures GetParameterOf(SetParameterOf(c, name, value), name) == Some(value)
    ensures other != name ==> GetParameterOf(SetParameterOf(c, name, value), other) == GetParameterOf(c, other)
    ensures GetParameterOf(NewCtx(None), other).None?
  {
    GetInsert(c.parameters, name, value, other);
  }

  /** `set_metadata`: inserted, overwriting. */
  function SetMetadataOf(c: Ctx, key: string, value: string): (r: Ctx)
    ensures GetMetadataOf(r, key) == Some(value)
    ensures r.(metadata := c.metadata) == c
  {
    GetInsertEach(c.metadata, key, value);
    c.(metadata := Insert(c.metadata, key, value))
  }

  /** `get_metadata`. */
  function GetMetadataOf(c: Ctx, key: string): Option<string> {
    Get(c.metadata, key)
  }

  /** `set_metadata` on one key leaves every other key's metadata as it was. */
  lemma MetadataOtherKeys(c: Ctx, key: string, value: string, other: string)
    requires other != key
    ensures GetMetadataOf(SetMetadataOf(c, key, value), other) == GetMetadataOf(c, other)
  {
    GetInsert(c.metadata, key, value, other);
  }

  /**
   * `resolve`: a parameter of that name wins; otherwise the environment
   * variable, displayed (a masked secret shows as "***").
   */
  function ResolveOf(c: Ctx, name: string): (r: Option<string>)
    ensures GetParameterOf(c, name).Some? ==> r == GetParameterOf(c, name)
    ensures GetParameterOf(c, name).None? ==> r == CoreEnvironment.Resolve(c.environment, name)
    ensures r.Some? <==> GetParameterOf(c, name).Some? || CoreEnvironment.Get(c.environment, name).Some?
  {
    match GetParameterOf(c, name)
    case Some(v) => Some(v)
    case None => CoreEnvironment.Resolve(c.environment, name)
  }

  /** A parameter shadows an environment variable of the same name. */
  lemma ParameterShadowsEnvironment(c: Ctx, name: string, value: string, envValue: string)
    ensures ResolveOf(SetParameterOf(CtxWithVariable(c, name, envValue), name, value), name) == Some(value)
  {
  }

  /** The context with one plain environment variable inserted. */
  function CtxWithVariable(c: Ctx, key: string, value: string): (r: Ctx)
    ensures r.(environment := c.environment) == c
  {
    c.(environment := CoreEnvironment.Insert(c.environment, key, value))
  }

  /** Without parameters, `resolve` is the environment's resolution. */
  lemma ResolveFallsBack(c: Ctx, key: string, value: string)
    requires c.parameters == []
    ensures ResolveOf(CtxWithVariable(c, key, value), key) == Some(value)
  {
    CoreEnvironment.ResolveInserted(c.environment, key, value, value);
  }

  /** The execution context object. */
  class ExecutionContext {
    /** A fresh UUID and the clock reading at creation: opaque inputs here. */
    const executionId: string
    const startTime: int
    var workingDir: string
    var environment: CoreEnvironment.Environment
    var stashes: Entries<string>
    var currentStage: Option<string>
    var currentStep: Option<string>
    var stageResults: seq<StageResult>
    var stepResults: seq<StepResult>
    var dirStack: seq<string>
    var parameters: Entries<string>
    var metadata: Entries<string>

    /** The state as a value. */
    function State(): Ctx
      reads this
    {
      Ctx(workingDir, environment, stashes, currentStage, currentStep,
          stageResults, stepResults, dirStack, parameters, metadata)
    }

    /** `ExecutionContext::new`. */
    constructor (executionId: string, startTime: int, currentDir: Option<string>)
      ensures State() == NewCtx(currentDir)
      ensures this.executionId == executionId && this.startTime == startTime
    {
      this.executionId := executionId;
      this.startTime := startTime;
      workingDir := if currentDir.Some? then currentDir.value else ".";
      environment := CoreEnvironment.NewEnvironment();
      stashes := [];
      currentStage := None;
      currentStep := None;
      stageResults := [];
      stepResults := [];
      dirStack := [];
      parameters := [];
      metadata := [];
    }

    /** `with_working_dir`: a new context whose directory is `path`. */
    constructor WithWorkingDir(executionId: string, startTime: int, path: string)
      ensures State() == NewCtx(Some(path))
      ensures this.executionId == executionId && this.startTime == startTime
    {
      this.executionId := executionId;
      this.startTime := startTime;
      workingDir := path;
      environment := CoreEnvironment.NewEnvironment();
      stashes := [];
      currentStage := None;
      currentStep := None;
      stageResults := [];
      stepResults := [];
      dirStack := [];
      parameters := [];
      metadata := [];
    }

    /** `cwd`. */
    function Cwd(): (d: string)
      reads this
      ensures d == State().workingDir
    {
      workingDir
    }

    method PushDir(path: string)
      modifies this
      ensures State() == PushDirOf(old(State()), path)
    {
      dirStack := dirStack + [workingDir];
      workingDir := path;
    }

    method PopDir() returns (r: Option<string>)
      modifies this
      ensures (r, State()) == PopDirOf(old(State()))
    {
      if |dirStack| == 0 {
        r := None;
      } else {
        var prev := dirStack[|dirStack| - 1];
        dirStack := dirStack[..|dirStack| - 1];
        workingDir := prev;
        r := Some(workingDir);
      }
    }

    method Stash(name: string, path: string)
      modifies this
      ensures State() == StashOf(old(State()), name, path)
    {
      stashes := Insert(stashes, name, path);
    }

    method Unstash(name: string) returns (r: Option<string>)
      modifies this
      ensures (r, State()) == UnstashOf(old(State()), name)
    {
      r := Get(stashes, name);
      stashes := Remove(stashes, name);
    }

    predicate HasStash(name: string)
      reads this
    {
      HasStashOf(State(), name)
    }

    method RecordStageResult(result: StageResult)
      modifies this
      ensures State() == RecordStageResultOf(old(State()), result)
    {
      stageResults := stageResults + [result];
    }

    method RecordStepResult(result: StepResult)
      modifies this
      ensures State() == RecordStepResultOf(old(State()), result)
    {
      stepResults := stepResults + [result];
    }

    method SetParameter(name: string, value: string)
      modifies this
      ensures State() == SetParameterOf(old(State()), name, value)
    {
      parameters := Insert(parameters, name, value);
    }

    function GetParameter(name: string): Option<string>
      reads this
    {
      GetParameterOf(State(), name)
    }

    method SetMetadata(key: string, value: string)
      modifies this
      ensures State() == SetMetadataOf(old(State()), key, value)
    {
      metadata := Insert(metadata, key, value);
    }

    function GetMetadata(key: string): Option<string>
      reads this
    {
      GetMetadataOf(State(), key)
    }

    /** `set_current_stage`: only that marker changes. */
    method SetCurrentStage(name: string)
      modifies this
      ensures State() == old(State()).(currentStage := Some(name))
    {
      currentStage := Some(name);
    }

    /** `set_current_step`: only that marker changes. */
    method SetCurrentStep(name: string)
      modifies this
      ensures State() == old(State()).(currentStep := Some(name))
    {
      currentStep := Some(name);
    }

    /** `clear_current_stage`: only that marker changes. */
    method ClearCurrentStage()
      modifies this
      ensures State() == old(State()).(currentStage := None)
    {
      currentStage := None;
    }

    /** `clear_current_step`: only that marker changes. */
    method ClearCurrentStep()
      modifies this
      ensures State() == old(State()).(currentStep := None)
    {
      currentStep := None;
    }

    /** `VariableResolver::resolve`. */
    function Resolve(name: string): Option<string>
      reads this
    {
      ResolveOf(State(), name)
    }
  }

  /** `push_dir` then `pop_dir` on the object leaves every field as it was. */
  method PushPopDir(ctx: ExecutionContext, path: string) returns (popped: Option<string>)
    modifies ctx
    ensures popped == Some(old(ctx.workingDir))
    ensures ctx.State() == old(ctx.State())
  {
    ctx.PushDir(path);
    popped := ctx.PopDir();
    PopAfterPush(old(ctx.State()), path);
  }
}
