/** The error values of the `src/` pipeline code (`ValidationError`, `PipelineError`). */
module RustlineErrors {
  import opened Wrappers
  import opened RustlineTypes
  import opened Durations

  datatype ValidationError =
    | EmptyName
    | NameTooLong(max: nat, len: nat)
    | InvalidNameChars(name: string)
    | EmptyPipeline
    | EmptyStage(stage: string)
    | InvalidTimeout(value: nat)
    | InvalidRetryCount(value: nat)
    | InvalidAgentType(message: string)
    | InvalidCronExpression(message: string)

  datatype PipelineError =
    | Validation(error: ValidationError)
    | StageFailed(stage: string, message: string)
    | CommandFailed(code: int, stderr: string)
    | TimeoutError(duration: Duration)
    | Io(message: string)
    | AgentConfig(message: string)

  /** How running a step, stage or pipeline ends: it returns a `Result`, or its thread panics. */
  datatype Outcome<T> = Returned(result: Result<T, PipelineError>) | Panicked
}
