/**
 * Custom step plugins of the `src/` code: the step kinds the crate ships,
 * the registry that maps names to steps, and its shared wrapper.
 */
module RustlinePlugins {
  import opened Wrappers
  import opened RustlineErrors

  /** The custom steps shipped with the crate; a closure step's body is an opaque outcome. */
  datatype CustomStep =
    | ShellCustom(name: string, description: string, command: string)
    | EchoCustom(name: string, message: string)
    | ClosureCustom(name: string, description: string, outcome: Result<Unit, PipelineError>)
    | SuccessCustom(name: string)
    | FailCustom(name: string, message: string)

  /**
   * What running `sh -c <command>` gave: a spawn failure (with the I/O
   * error text), or an exit: whether it exited
   * successfully, its exit code if it had one, and its standard error.
   */
  datatype ShellRun =
    | SpawnFailed(ioError: string)
    | Exited(success: bool, code: Option<int>, stderr: string)

  /** `ShellCustomStep::new`: the description names the command. */
  function NewShellCustom(name: string, command: string): (s: CustomStep)
    ensures s.ShellCustom? && s.name == name && s.command == command
    ensures s.description == "Runs shell command: " + command
  {
    ShellCustom(name, "Runs shell command: " + command, command)
  }

  /** `ShellCustomStep::with_description`: only the description changes. */
  function WithDescription(s: CustomStep, description: string): (r: CustomStep)
    requires s.ShellCustom?
    ensures r.ShellCustom? && r.description == description
    ensures r.name == s.name && r.command == s.command
  {
    ShellCustom(s.name, description, s.command)
  }

  /** `CustomStep::name`. */
  function Name(s: CustomStep): string {
    s.name
  }

  /** `CustomStep::description`: an echo step describes itself by its name; the result steps by fixed text. */
  function Description(s: CustomStep): (d: string)
    ensures s.EchoCustom? ==> d == s.name
    ensures s.SuccessCustom? ==> d == "A step that always succeeds"
    ensures s.FailCustom? ==> d == "A step that always fails"
  {
    match s
    case ShellCustom(_, description, _) => description
    case EchoCustom(name, _) => name
    case ClosureCustom(_, description, _) => description
    case SuccessCustom(_) => "A step that always succeeds"
    case FailCustom(_, _) => "A step that always fails"
  }

  /**
   * `CustomStep::execute`, with the shell run given: a spawn failure is an
   * I/O error, an unsuccessful exit is CommandFailed with the exit code (-1
   * when killed by a signal); Echo and Success succeed; Fail always fails.
   */
  function Execute(s: CustomStep, run: ShellRun): (r: Result<Unit, PipelineError>)
    ensures s.SuccessCustom? || s.EchoCustom? ==> r.Ok?
    ensures s.FailCustom? ==> r == Err(CommandFailed(-1, s.message))
    ensures s.ClosureCustom? ==> r == s.outcome
    ensures s.ShellCustom? ==> (r.Ok? <==> run.Exited? && run.success)
  {
    match s
    case ShellCustom(_, _, _) =>
      (match run
       case SpawnFailed(e) => Err(Io(e))
       case Exited(success, code, stderr) =>
         if !success then Err(CommandFailed(if code.Some? then code.value else -1, stderr)) else Ok(Unit))
    case EchoCustom(_, _) => Ok(Unit)
    case ClosureCustom(_, _, outcome) => outcome
    case SuccessCustom(_) => Ok(Unit)
    case FailCustom(_, message) => Err(CommandFailed(-1, message))
  }

  /** `CustomStepRegistry`: steps keyed by their own names. */
  class CustomStepRegistry {
    var steps: map<string, CustomStep>

    /** Every step is stored under its own name. */
    ghost predicate Valid()
      reads this
    {
      forall k :: k in steps ==> Name(steps[k]) == k
    }

    /** `CustomStepRegistry::new`: empty. */
    constructor ()
      ensures steps == map[] && Valid()
    {
      steps := map[];
    }

    /** `register`: stored under `step.name()`, replacing any earlier step of that name. */
    method Register(step: CustomStep)
      requires Valid()
      modifies this
      ensures steps == old(steps)[Name(step) := step]
      ensures Valid()
    {
      steps := steps[Name(step) := step];
    }

    /** `get`. */
    function Get(name: string): (r: Option<CustomStep>)
      reads this
      requires Valid()
      ensures r.Some? <==> Contains(name)
      ensures r.Some? ==> Name(r.value) == name
    {
      if name in steps then Some(steps[name]) else None
    }

    /** `contains`. */
    predicate Contains(name: string)
      reads this
    {
      name in steps
    }

    /** `names`: every registered name exactly once, in no particular order. */
    method Names() returns (r: seq<string>)
      ensures forall k :: k in r <==> k in steps
      ensures |r| == |steps.Keys|
      ensures forall i, j :: 0 <= i < j < |r| ==> r[i] != r[j]
    {
      r := [];
      var rest := steps.Keys;
      while rest != {}
        invariant rest <= steps.Keys
        invariant forall k :: k in r <==> k in steps.Keys - rest
        invariant forall i, j :: 0 <= i < j < |r| ==> r[i] != r[j]
        invariant |r| + |rest| == |steps.Keys|
        decreases |rest|
      {
        var k :| k in rest;
        assert k !in r;
        assert forall i :: 0 <= i < |r| ==> (r + [k])[i] == r[i] != k;
        r := r + [k];
        rest := rest - {k};
      }
    }
  }

  /** `SharedRegistry`: the same operations on a registry behind a lock. */
  class SharedRegistry {
    const inner: CustomStepRegistry

    ghost predicate Valid()
      reads this, inner
    {
      inner.Valid()
    }

    /** `SharedRegistry::new`: an empty inner registry. */
    constructor ()
      ensures fresh(inner) && inner.steps == map[] && Valid()
    {
      inner := new CustomStepRegistry();
    }

    /** `register`: the inner registry's registration. */
    method Register(step: CustomStep)
      requires Valid()
      modifies inner
      ensures inner.steps == old(inner.steps)[Name(step) := step]
      ensures Valid()
    {
      inner.Register(step);
    }

    /** `get`: the inner registry's lookup. */
    function Get(name: string): (r: Option<CustomStep>)
      reads this, inner
      requires Valid()
      ensures r == inner.Get(name)
    {
      inner.Get(name)
    }

    /** `contains`: the inner registry's membership test. */
    predicate Contains(name: string)
      reads this, inner
    {
      inner.Contains(name)
    }
  }
}
