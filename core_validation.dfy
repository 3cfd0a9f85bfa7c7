/**
 * Validation of the `pipeliner-core` pipeline model: the error kinds, the
 * lifting of validation through `Option`, `Result` and vectors, the path
 * context that qualifies nested errors, and the stock rules.
 */
module CoreValidation {
  import opened Wrappers
  import opened Strings

  datatype ValidationError =
    | EmptyStages
    | EmptyName
    | EmptySteps(stage: string)
    | InvalidAgent(reason: string)
    | InvalidEnvironment(name: string, reason: string)
    | InvalidParameter(name: string, reason: string)
    | InvalidMatrix(reason: string)
    | CircularDependency(stage: string)
    | DuplicateStage(name: string)
    | InvalidStep(reason: string)
    | MissingOption(option: string)
    | InvalidTimeout(reason: string)
    | InvalidRetry(reason: string)
    | WithPath(path: string, error: ValidationError)

  type Validation = Result<Unit, ValidationError>

  /** `Validate for Option<T>`: nothing to check when absent. */
  function ValidateOption<T>(o: Option<T>, validate: T -> Validation): (r: Validation)
    ensures o.None? ==> r.Ok?
    ensures o.Some? ==> r == validate(o.value)
  {
    match o
    case None => Ok(Unit)
    case Some(v) => validate(v)
  }

  /** `Validate for Result<T, E>`: an error value counts as valid; an Ok value is checked. */
  function ValidateResult<T, X>(x: Result<T, X>, validate: T -> Validation): (r: Validation)
    ensures x.Err? ==> r.Ok?
    ensures x.Ok? ==> r == validate(x.value)
  {
    match x
    case Ok(v) => validate(v)
    case Err(_) => Ok(Unit)
  }

  /**
   * `Validate for Vec<T>`: the items in order, stopping at the first error,
   * which is returned; Ok when every item is valid.
   */
  function ValidateAll<T>(items: seq<T>, validate: T -> Validation): (r: Validation)
    ensures r.Ok? <==> forall i :: 0 <= i < |items| ==> validate(items[i]).Ok?
    ensures r.Err? ==> exists i :: 0 <= i < |items| && validate(items[i]) == r
                          && forall j :: 0 <= j < i ==> validate(items[j]).Ok?
  {
    if |items| == 0 then Ok(Unit)
    else if validate(items[0]).Err? then validate(items[0])
    else
      var r := ValidateAll(items[1..], validate);
      assert forall i :: 0 < i < |items| ==> items[i] == items[1..][i - 1];
      if r.Err? then
        var i :| 0 <= i < |items[1..]| && validate(items[1..][i]) == r
                 && forall j :: 0 <= j < i ==> validate(items[1..][j]).Ok?;
        assert validate(items[i + 1]) == r;
        r
      else r
  }

  /** Validating a concatenation: the first part's error if any, else the second's. */
  lemma {:induction false} ValidateAllAppend<T>(a: seq<T>, b: seq<T>, validate: T -> Validation)
    ensures ValidateAll(a + b, validate) ==
            if ValidateAll(a, validate).Err? then ValidateAll(a, validate) else ValidateAll(b, validate)
    decreases |a|
  {
    if |a| > 0 {
      assert (a + b)[0] == a[0];
      assert (a + b)[1..] == a[1..] + b;
      ValidateAllAppend(a[1..], b, validate);
    } else {
      assert a + b == b;
    }
  }

  /** `ValidationContext`: the path of field names leading to what is being validated. */
  class ValidationContext {
    var path: seq<string>

    /** `ValidationContext::new`: the empty path. */
    constructor ()
      ensures path == []
    {
      path := [];
    }

    /** `push`: one component deeper. */
    method Push(component: string)
      modifies this
      ensures path == old(path) + [component]
      ensures |old(path)| > 0 ==> PathString() == old(PathString()) + "." + component
      ensures |old(path)| == 0 ==> PathString() == component
    {
      if |path| > 0 {
        JoinSnoc(path, component, ".");
      }
      path := path + [component];
    }

    /** `pop`: one component up; nothing happens at the root. */
    method Pop()
      modifies this
      ensures |old(path)| > 0 ==> path == old(path)[..|old(path)| - 1]
      ensures |old(path)| == 0 ==> path == []
    {
      if |path| > 0 {
        path := path[..|path| - 1];
      }
    }

    /** `path()`: the components joined by '.'. */
    function PathString(): (s: string)
      reads this
      ensures |path| == 0 ==> s == ""
      ensures |path| == 1 ==> s == path[0]
    {
      Join(path, ".")
    }

    /** `wrap`: the error itself at the root, otherwise qualified by the path. */
    function Wrap(e: ValidationError): (r: ValidationError)
      reads this
      ensures |path| == 0 <==> r == e
      ensures |path| > 0 ==> r.WithPath? && r.path == PathString() && r.error == e
    {
      if |path| == 0 then e else WithPath(PathString(), e)
    }
  }

  /** A push followed by a pop leaves the context where it was. */
  method PushPopRestores(ctx: ValidationContext, component: string)
    modifies ctx
    ensures ctx.path == old(ctx.path)
    ensures ctx.PathString() == old(ctx.PathString())
  {
    ctx.Push(component);
    ctx.Pop();
    assert ctx.path == old(ctx.path);
  }

  /** `rules::validate_name`: a name must have a non-white-space character. */
  function ValidateName(name: string, field: string): (r: Validation)
    ensures r.Err? <==> forall i :: 0 <= i < |name| ==> IsWhitespace(name[i])
    ensures r.Err? ==> r.error == EmptyName
  {
    TrimEmptyIff(name);
    if Trim(name) == "" then Err(EmptyName) else Ok(Unit)
  }

  /** The longest timeout a rule accepts: seven days, in seconds. */
  const MaxTimeoutSeconds: nat := 86400 * 7

  /** `rules::validate_timeout`: between one second and seven days. */
  function ValidateTimeout(seconds: nat): (r: Validation)
    ensures r.Ok? <==> 1 <= seconds <= 604800
    ensures seconds == 0 ==> r == Err(InvalidTimeout("timeout must be greater than zero"))
    ensures seconds > 604800 ==> r == Err(InvalidTimeout("timeout exceeds maximum of 7 days"))
  {
    if seconds == 0 then Err(InvalidTimeout("timeout must be greater than zero"))
    else if seconds > MaxTimeoutSeconds then Err(InvalidTimeout("timeout exceeds maximum of 7 days"))
    else Ok(Unit)
  }

  /** `rules::validate_retry`: at most ten retries. */
  function ValidateRetry(count: nat): (r: Validation)
    ensures r.Ok? <==> count <= 10
    ensures r.Err? ==> r.error == InvalidRetry("retry count exceeds maximum of 10")
  {
    if count > 10 then Err(InvalidRetry("retry count exceeds maximum of 10")) else Ok(Unit)
  }

  /** `names[j]` repeats a name that occurs before it. */
  predicate RepeatsEarlier(names: seq<string>, j: int)
    requires 0 <= j < |names|
  {
    names[j] in names[..j]
  }

  /** The position, from `i` on, of the first name that repeats an earlier one. */
  function FirstRepeatFrom(names: seq<string>, i: nat): (r: Option<nat>)
    requires i <= |names|
    ensures r.Some? ==> i <= r.value < |names| && RepeatsEarlier(names, r.value)
                        && forall k :: i <= k < r.value ==> !RepeatsEarlier(names, k)
    ensures r.None? ==> forall k :: i <= k < |names| ==> !RepeatsEarlier(names, k)
    decreases |names| - i
  {
    if i == |names| then None
    else if names[i] in names[..i] then Some(i)
    else FirstRepeatFrom(names, i + 1)
  }

  /** The position of the first name that repeats an earlier one, if any. */
  function FirstRepeat(names: seq<string>): (r: Option<nat>)
    ensures r.Some? ==> r.value < |names| && RepeatsEarlier(names, r.value)
                        && forall k :: 0 <= k < r.value ==> !RepeatsEarlier(names, k)
    ensures r.None? <==> forall i, j :: 0 <= i < j < |names| ==> names[i] != names[j]
  {
    var r := FirstRepeatFrom(names, 0);
    if r.None? then
      forall i, j | 0 <= i < j < |names| ensures names[i] != names[j] {
        assert !RepeatsEarlier(names, j);
        assert names[..j][i] == names[i];
      }
      r
    else r
  }

  /**
   * `rules::validate_unique_stages`: the names are scanned in order into a
   * set, and the first name already in it is reported.
   */
  method ValidateUniqueStages(stages: seq<string>) returns (r: Validation)
    ensures FirstRepeat(stages).None? ==> r == Ok(Unit)
    ensures FirstRepeat(stages).Some? ==> r == Err(DuplicateStage(stages[FirstRepeat(stages).value]))
  {
    var seen: set<string> := {};
    var i := 0;
    while i < |stages|
      invariant 0 <= i <= |stages|
      invariant seen == set k | 0 <= k < i :: stages[k]
      invariant FirstRepeatFrom(stages, i) == FirstRepeatFrom(stages, 0)
    {
      if stages[i] in seen {
        var a :| 0 <= a < i && stages[a] == stages[i];
        assert stages[..i][a] == stages[i];
        return Err(DuplicateStage(stages[i]));
      }
      assert forall b :: 0 <= b < i ==> stages[..i][b] == stages[b];
      seen := seen + {stages[i]};
      i := i + 1;
    }
    return Ok(Unit);
  }
}
