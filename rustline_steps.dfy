/** Steps of the `src/` pipeline model: the step kinds, their constructors and `Display`. */
module RustlineSteps {
  import opened Wrappers
  import opened Strings
  import opened Durations

  datatype StepType =
    | Shell(command: string)
    | Echo(message: string)
    | Retry(count: nat, step: Step)
    | Timeout(duration: Duration, step: Step)
    | Stash(name: string, includes: string)
    | Unstash(name: string)
    | Input(message: string, default: Option<string>)
    | Dir(path: string, steps: seq<Step>)

  datatype Step = Step(stepType: StepType, name: Option<string>, timeout: Option<Duration>)

  /** `Step::new`: the given kind, with no name and no timeout override. */
  function NewStep(t: StepType): (s: Step)
    ensures s.stepType == t && s.name.None? && s.timeout.None?
  {
    Step(t, None, None)
  }

  /** `Step::with_name`: only the name changes. */
  function WithName(s: Step, name: string): (r: Step)
    ensures r.name == Some(name)
    ensures r.stepType == s.stepType && r.timeout == s.timeout
  {
    s.(name := Some(name))
  }

  /** `Step::with_timeout`: only the timeout override changes. */
  function WithTimeout(s: Step, d: Duration): (r: Step)
    ensures r.timeout == Some(d)
    ensures r.stepType == s.stepType && r.name == s.name
  {
    s.(timeout := Some(d))
  }

  /** `Step::retry`/`StepType::retry`: the inner step is kept unchanged inside the variant. */
  function RetryStep(count: nat, inner: Step): (s: Step)
    ensures s.stepType.Retry? && s.stepType.count == count && s.stepType.step == inner
    ensures s.name.None? && s.timeout.None?
  {
    NewStep(Retry(count, inner))
  }

  /** `Step::timeout`/`StepType::timeout`: the inner step is kept unchanged inside the variant. */
  function TimeoutStep(d: Duration, inner: Step): (s: Step)
    ensures s.stepType.Timeout? && s.stepType.duration == d && s.stepType.step == inner
    ensures s.name.None? && s.timeout.None?
  {
    NewStep(Timeout(d, inner))
  }

  /** `StepType::input`: no default answer. */
  function InputType(message: string): (t: StepType)
    ensures t.Input? && t.message == message && t.default.None?
  {
    Input(message, None)
  }

  /** `StepType::input_with_default`: the default answer is kept. */
  function InputWithDefaultType(message: string, default: string): (t: StepType)
    ensures t.Input? && t.message == message && t.default == Some(default)
  {
    Input(message, Some(default))
  }

  /** `Display` for a step kind. */
  function StepTypeDisplay(t: StepType): string
  {
    match t
    case Shell(command) => "sh(" + command + ")"
    case Echo(message) => "echo(" + message + ")"
    case Retry(count, _) => "retry(" + NatToString(count) + ")"
    case Timeout(duration, _) => "timeout(" + DebugString(duration) + ")"
    case Stash(name, includes) => "stash(" + name + ", " + includes + ")"
    case Unstash(name) => "unstash(" + name + ")"
    case Input(message, _) => "input(" + message + ")"
    case Dir(path, steps) => "dir(" + path + ", " + NatToString(|steps|) + " steps)"
  }

  /** `Display` for a step: "Step(<name>): <kind>" or "Step: <kind>". */
  function StepDisplay(s: Step): string
  {
    match s.name
    case Some(n) => "Step(" + n + "): " + StepTypeDisplay(s.stepType)
    case None => "Step: " + StepTypeDisplay(s.stepType)
  }

  /** The rendering tells named from unnamed steps: it starts with "Step(" exactly when named. */
  lemma StepDisplayNamed(s: Step)
    ensures StartsWith(StepDisplay(s), "Step(") <==> s.name.Some?
  {
    if s.name.None? {
      assert StepDisplay(s)[4] == ':';
    }
  }

  /** A timeout of a whole number of seconds mentions that number. */
  lemma TimeoutDisplaySeconds(secs: nat, inner: Step)
    requires secs > 0
    ensures StepTypeDisplay(Timeout(FromSecs(secs), inner)) == "timeout(" + NatToString(secs) + "s)"
  {
    DebugWholeSeconds(secs);
  }
}
