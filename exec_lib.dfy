/**
 * The entry types of the `pipeliner-executor` crate: execution statuses,
 * execution results, the error kinds and the execution configuration.
 */
module ExecLib {
  import opened Wrappers
  import opened Durations
  import opened Strings
  import CoreEnvironment

  /** `ExecutorErrorKind`; an I/O error is carried as its message. */
  datatype ExecError =
    | StepFailed(reason: string)
    | StageFailed(stage: string)
    | TimeoutExceeded
    | RetryExhausted(attempts: nat)
    | AgentAllocationFailed(reason: string)
    | IoError(ioMessage: string)
    | UnexpectedTermination(reason: string)

  /** The `Display` text of an executor error. */
  function ErrorMessage(e: ExecError): (s: string)
    ensures e.StepFailed? ==> s == "step execution failed: " + e.reason
    ensures e.IoError? ==> s == "I/O error: " + e.ioMessage
    ensures e.RetryExhausted? ==> s == "step retry exhausted after " + NatToString(e.attempts) + " attempts"
  {
    match e
    case StepFailed(reason) => "step execution failed: " + reason
    case StageFailed(stage) => "stage '" + stage + "' failed"
    case TimeoutExceeded => "pipeline timeout exceeded"
    case RetryExhausted(attempts) => "step retry exhausted after " + NatToString(attempts) + " attempts"
    case AgentAllocationFailed(reason) => "agent allocation failed: " + reason
    case IoError(message) => "I/O error: " + message
    case UnexpectedTermination(reason) => "unexpected termination: " + reason
  }

  datatype ExecutionStatus = Pending | Running | Success | Failure | Timeout | Aborted | Unstable

  /** `ExecutionStatus::default`. */
  function DefaultStatus(): (s: ExecutionStatus)
    ensures s == Pending
  {
    Pending
  }

  /** The `Debug` name of a status, as the strategies print it. */
  function StatusName(s: ExecutionStatus): (n: string)
    ensures n != ""
  {
    match s
    case Pending => "Pending"
    case Running => "Running"
    case Success => "Success"
    case Failure => "Failure"
    case Timeout => "Timeout"
    case Aborted => "Aborted"
    case Unstable => "Unstable"
  }

  /** Distinct statuses print distinctly. */
  lemma StatusNameInjective(a: ExecutionStatus, b: ExecutionStatus)
    requires StatusName(a) == StatusName(b)
    ensures a == b
  {
  }

  /** `ExecutionStatus::is_success`. */
  predicate IsSuccess(s: ExecutionStatus) {
    s.Success?
  }

  /** `ExecutionStatus::is_failure`. */
  predicate IsFailure(s: ExecutionStatus) {
    s.Failure? || s.Timeout? || s.Aborted?
  }

  /**
   * The two predicates split the statuses three ways: Success alone is a
   * success; Failure, Timeout and Aborted are failures; Pending, Running and
   * Unstable are neither; no status is both.
   */
  lemma StatusClassification(s: ExecutionStatus)
    ensures IsSuccess(s) <==> s == Success
    ensures IsFailure(s) <==> s in {Failure, Timeout, Aborted}
    ensures !(IsSuccess(s) && IsFailure(s))
    ensures !IsSuccess(s) && !IsFailure(s) <==> s in {Pending, Running, Unstable}
  {
  }

  /** `ExecutionResult`; the duration is a signed count of milliseconds (a `chrono::Duration`). */
  datatype ExecutionResult = ExecutionResult(
    status: ExecutionStatus, duration: int, stagesExecuted: nat, stepsExecuted: nat, error: Option<string>)

  /** `ExecutionResult::default`: pending, zero counts, no error. */
  function DefaultResult(): (r: ExecutionResult)
    ensures r.status == Pending && r.duration == 0 && r.stagesExecuted == 0 && r.stepsExecuted == 0 && r.error.None?
  {
    ExecutionResult(DefaultStatus(), 0, 0, 0, None)
  }

  /** `ExecutionResult::success`. */
  function SuccessResult(stages: nat, steps: nat, duration: int): (r: ExecutionResult)
    ensures ResultIsSuccess(r) && !ResultIsFailure(r) && r.error.None?
    ensures r.stagesExecuted == stages && r.stepsExecuted == steps && r.duration == duration
  {
    ExecutionResult(Success, duration, stages, steps, None)
  }

  /** `ExecutionResult::failure`. */
  function FailureResult(stages: nat, steps: nat, duration: int, error: string): (r: ExecutionResult)
    ensures ResultIsFailure(r) && !ResultIsSuccess(r) && r.error == Some(error)
    ensures r.stagesExecuted == stages && r.stepsExecuted == steps && r.duration == duration
  {
    ExecutionResult(Failure, duration, stages, steps, Some(error))
  }

  /** `ExecutionResult::is_success`. */
  predicate ResultIsSuccess(r: ExecutionResult) {
    r.status.Success?
  }

  /** `ExecutionResult::is_failure`: only the Failure status, unlike `ExecutionStatus::is_failure`. */
  predicate ResultIsFailure(r: ExecutionResult) {
    r.status.Failure?
  }

  /**
   * On results, `is_success` agrees with the status's own `is_success`,
   * while `is_failure` is narrower: a Timeout or Aborted result is a failing
   * status but not a failed result.
   */
  lemma ResultPredicatesAgree(r: ExecutionResult)
    ensures ResultIsSuccess(r) <==> IsSuccess(r.status)
    ensures ResultIsFailure(r) ==> IsFailure(r.status)
    ensures IsFailure(r.status) && !ResultIsFailure(r) <==> r.status in {Timeout, Aborted}
  {
  }

  /** `ExecutionConfig`; the global timeout and output file are carried but never read. */
  datatype ExecutionConfig = ExecutionConfig(
    workingDir: string, environment: CoreEnvironment.Environment, globalTimeout: Option<Duration>,
    retryOnFailure: bool, maxRetries: nat, retryDelay: Duration, cleanup: bool, colors: bool,
    quiet: bool, outputFile: Option<string>)

  /**
   * `ExecutionConfig::default`, given the process's current directory (None
   * when it cannot be read) and whether standard output is a terminal.
   */
  function DefaultConfig(currentDir: Option<string>, stdoutIsTerminal: bool): (c: ExecutionConfig)
    ensures c.workingDir == (if currentDir.Some? then currentDir.value else ".")
    ensures CoreEnvironment.IsEmpty(c.environment) && c.globalTimeout.None? && c.outputFile.None?
    ensures !c.retryOnFailure && c.maxRetries == 0 && c.retryDelay == FromSecs(1)
    ensures c.cleanup && !c.quiet && c.colors == stdoutIsTerminal
  {
    ExecutionConfig(if currentDir.Some? then currentDir.value else ".", CoreEnvironment.NewEnvironment(), None,
                    false, 0, FromSecs(1), true, stdoutIsTerminal, false, None)
  }
}
