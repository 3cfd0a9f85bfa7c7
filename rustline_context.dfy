/**
 * The execution context of the `src/` executors (`PipelineContext`), and the
 * executor capability and health descriptions.
 */
module RustlineContext {
  import opened Wrappers
  import opened Assoc
  import opened RustlineTypes

  datatype ExecutorCapabilities = ExecutorCapabilities(
    canExecuteShell: bool, canRunDocker: bool, canRunKubernetes: bool,
    supportsParallel: bool, supportsCaching: bool, supportsTimeout: bool, supportsRetry: bool)

  /** `ExecutorCapabilities::default`: shell, timeout and retry only. */
  function DefaultCapabilities(): (c: ExecutorCapabilities)
    ensures c.canExecuteShell && c.supportsTimeout && c.supportsRetry
    ensures !c.canRunDocker && !c.canRunKubernetes && !c.supportsParallel && !c.supportsCaching
  {
    ExecutorCapabilities(true, false, false, false, false, true, true)
  }

  datatype HealthStatus = Healthy | Degraded(reason: string) | Unhealthy(reason: string)

  /** `HealthStatus::is_operational`: healthy or degraded. */
  predicate IsOperational(h: HealthStatus) {
    !h.Unhealthy?
  }

  /** Only an unhealthy executor is out of operation. */
  lemma OperationalIff(h: HealthStatus)
    ensures !IsOperational(h) <==> exists reason :: h == Unhealthy(reason)
  {
    if !IsOperational(h) {
      assert h == Unhealthy(h.reason);
    }
  }

  /**
   * `PipelineContext`: environment, working directory, pipeline id and the
   * results of the stages run so far. The maps are association lists whose
   * order stands for the hash maps' iteration order.
   */
  class PipelineContext {
    var env: Entries<string>
    var cwd: string
    var pipelineId: string
    var stageResults: Entries<StageResult>

    ghost predicate Valid()
      reads this
    {
      Distinct(env) && Distinct(stageResults)
    }

    /**
     * `PipelineContext::new`: the process environment, the current
     * directory and a fresh id, all given here.
     */
    constructor (processEnv: Entries<string>, currentDir: string, id: string)
      requires Distinct(processEnv)
      ensures env == processEnv && cwd == currentDir && pipelineId == id && stageResults == []
      ensures Valid()
    {
      env, cwd, pipelineId, stageResults := processEnv, currentDir, id, [];
    }

    /** `set_env`: insert or overwrite. */
    method SetEnv(key: string, value: string)
      requires Valid()
      modifies this
      ensures env == Insert(old(env), key, value)
      ensures cwd == old(cwd) && pipelineId == old(pipelineId) && stageResults == old(stageResults)
      ensures Valid()
      ensures GetEnv(key) == Some(value)
      ensures forall k :: k != key ==> GetEnv(k) == old(GetEnv(k))
    {
      InsertDistinct(env, key, value);
      GetInsertEach(env, key, value);
      env := Insert(env, key, value);
    }

    /** `get_env`. */
    function GetEnv(key: string): Option<string>
      reads this
    {
      Get(env, key)
    }

    /** `set_cwd`: only the working directory changes. */
    method SetCwd(path: string)
      modifies this
      ensures cwd == path
      ensures env == old(env) && pipelineId == old(pipelineId) && stageResults == old(stageResults)
    {
      cwd := path;
    }

    /** `record_stage_result`: insert, overwriting an earlier result of the same stage. */
    method RecordStageResult(stage: string, result: StageResult)
      requires Valid()
      modifies this
      ensures stageResults == Insert(old(stageResults), stage, result)
      ensures env == old(env) && cwd == old(cwd) && pipelineId == old(pipelineId)
      ensures Valid()
      ensures GetStageResult(stage) == Some(result)
      ensures forall s :: s != stage ==> GetStageResult(s) == old(GetStageResult(s))
    {
      InsertDistinct(stageResults, stage, result);
      GetInsertEach(stageResults, stage, result);
      stageResults := Insert(stageResults, stage, result);
    }

    /** `get_stage_result`. */
    function GetStageResult(stage: string): Option<StageResult>
      reads this
    {
      Get(stageResults, stage)
    }
  }
}
