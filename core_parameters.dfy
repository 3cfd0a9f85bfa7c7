/** Build parameters of the `pipeliner-core` model, their validation, and the values given at run time. */
module CoreParameters {
  import opened Wrappers
  import opened Assoc
  import opened JsonValues
  import opened CoreValidation

  datatype Parameter =
    | StringParam(name: string, description: string, defaultValue: Option<string>, trim: bool)
    | TextParam(name: string, description: string, defaultValue: Option<string>, maxLength: Option<nat>)
    | BooleanParam(name: string, description: string, defaultBool: bool)
    | ChoiceParam(name: string, description: string, choices: seq<string>, defaultChoice: Option<nat>)
    | PasswordParam(name: string, description: string)
    | FileParam(name: string, description: string, filePatterns: seq<string>, maxSize: Option<nat>)
    | RunParam(name: string, description: string, filter: Option<string>)

  datatype ParameterType = String | Text | Boolean | Choice | Password | File | Run

  /** `Parameter::name`, whichever the kind. */
  function Name(p: Parameter): (n: string)
    ensures n == p.name
  {
    match p
    case StringParam(n, _, _, _) => n
    case TextParam(n, _, _, _) => n
    case BooleanParam(n, _, _) => n
    case ChoiceParam(n, _, _, _) => n
    case PasswordParam(n, _) => n
    case FileParam(n, _, _, _) => n
    case RunParam(n, _, _) => n
  }

  /** `Parameter::description`, whichever the kind. */
  function Description(p: Parameter): (d: string)
    ensures d == p.description
  {
    match p
    case StringParam(_, d, _, _) => d
    case TextParam(_, d, _, _) => d
    case BooleanParam(_, d, _) => d
    case ChoiceParam(_, d, _, _) => d
    case PasswordParam(_, d) => d
    case FileParam(_, d, _, _) => d
    case RunParam(_, d, _) => d
  }

  /** `Parameter::parameter_type`: the kind's tag. */
  function TypeOf(p: Parameter): (t: ParameterType)
    ensures t.String? <==> p.StringParam?
    ensures t.Text? <==> p.TextParam?
    ensures t.Boolean? <==> p.BooleanParam?
    ensures t.Choice? <==> p.ChoiceParam?
    ensures t.Password? <==> p.PasswordParam?
    ensures t.File? <==> p.FileParam?
    ensures t.Run? <==> p.RunParam?
  {
    match p
    case StringParam(_, _, _, _) => String
    case TextParam(_, _, _, _) => Text
    case BooleanParam(_, _, _) => Boolean
    case ChoiceParam(_, _, _, _) => Choice
    case PasswordParam(_, _) => Password
    case FileParam(_, _, _, _) => File
    case RunParam(_, _, _) => Run
  }

  /** `Parameters`: the declared parameters, in declaration order. */
  datatype Parameters = Parameters(params: seq<Parameter>)

  /** `Parameters::push`: one more parameter at the end. */
  function Push(ps: Parameters, p: Parameter): (r: Parameters)
    ensures Len(r) == Len(ps) + 1 && r.params[..Len(ps)] == ps.params && r.params[Len(ps)] == p
  {
    Parameters(ps.params + [p])
  }

  /** `Parameters::len`. */
  function Len(ps: Parameters): nat {
    |ps.params|
  }

  /** `Parameters::is_empty`. */
  predicate IsEmpty(ps: Parameters) {
    |ps.params| == 0
  }

  /** `Parameters::get`: the first parameter with that name. */
  function Get(ps: Parameters, name: string): (r: Option<Parameter>)
    ensures r.None? <==> forall i :: 0 <= i < |ps.params| ==> Name(ps.params[i]) != name
    ensures r.Some? ==> exists i :: 0 <= i < |ps.params| && ps.params[i] == r.value && Name(r.value) == name
                          && forall j :: 0 <= j < i ==> Name(ps.params[j]) != name
    decreases |ps.params|
  {
    if |ps.params| == 0 then None
    else if Name(ps.params[0]) == name then Some(ps.params[0])
    else
      var r := Get(Parameters(ps.params[1..]), name);
      assert forall i :: 0 < i < |ps.params| ==> ps.params[i] == ps.params[1..][i - 1];
      if r.Some? then
        var i :| 0 <= i < |ps.params[1..]| && ps.params[1..][i] == r.value && Name(r.value) == name
                 && forall j :: 0 <= j < i ==> Name(ps.params[1..][j]) != name;
        assert ps.params[i + 1] == r.value;
        r
      else r
  }

  /** A pushed parameter is found by its name unless an earlier one has that name. */
  lemma {:induction false} GetAfterPush(ps: Parameters, p: Parameter)
    ensures Get(Push(ps, p), Name(p)) == if Get(ps, Name(p)).Some? then Get(ps, Name(p)) else Some(p)
    decreases |ps.params|
  {
    if |ps.params| > 0 {
      assert Push(ps, p).params[1..] == Push(Parameters(ps.params[1..]), p).params;
      GetAfterPush(Parameters(ps.params[1..]), p);
    }
  }

  /** The names, in declaration order. */
  function Names(ps: seq<Parameter>): (ns: seq<string>)
    ensures |ns| == |ps| && forall i :: 0 <= i < |ps| ==> ns[i] == Name(ps[i])
  {
    if |ps| == 0 then [] else [Name(ps[0])] + Names(ps[1..])
  }

  /** `Validate for Parameters`: the first parameter whose name was declared before is an error. */
  function ValidateParameters(ps: Parameters): (r: Validation)
  {
    var dup := FirstRepeat(Names(ps.params));
    if dup.None? then Ok(Unit)
    else Err(InvalidParameter(Name(ps.params[dup.value]), "duplicate parameter name"))
  }

  /** Validation succeeds exactly when the names are pairwise different. */
  lemma ValidateParametersIff(ps: Parameters)
    ensures ValidateParameters(ps).Ok? <==> forall i, j :: 0 <= i < j < |ps.params| ==> Name(ps.params[i]) != Name(ps.params[j])
    ensures ValidateParameters(ps).Err? ==>
              exists j :: 0 <= j < |ps.params|
                && ValidateParameters(ps).error == InvalidParameter(Name(ps.params[j]), "duplicate parameter name")
                && Name(ps.params[j]) in Names(ps.params)[..j]
  {
    var ns := Names(ps.params);
    assert forall i, j :: 0 <= i < j < |ps.params| ==> (ns[i] != ns[j] <==> Name(ps.params[i]) != Name(ps.params[j]));
  }

  /** The validation loop: names go into a set in order; the first one already there is reported. */
  method Validate(ps: Parameters) returns (r: Validation)
    ensures r == ValidateParameters(ps)
  {
    var ns := Names(ps.params);
    var seen: set<string> := {};
    var i := 0;
    while i < |ps.params|
      invariant 0 <= i <= |ps.params|
      invariant seen == set k | 0 <= k < i :: ns[k]
      invariant FirstRepeatFrom(ns, i) == FirstRepeatFrom(ns, 0)
    {
      var name := Name(ps.params[i]);
      if name in seen {
        var a :| 0 <= a < i && ns[a] == name;
        assert ns[..i][a] == ns[i];
        return Err(InvalidParameter(name, "duplicate parameter name"));
      }
      assert forall b :: 0 <= b < i ==> ns[..i][b] == ns[b];
      seen := seen + {name};
      i := i + 1;
    }
    return Ok(Unit);
  }

  /**
   * `ParameterValues`: the values given for a run, as JSON, by name. The
   * values are updated in place by `set`.
   */
  class ParameterValues {
    var values: Entries<Json>

    /** `ParameterValues::from_map` (and `new`, with no entries). */
    constructor (m: Entries<Json>)
      ensures values == m
    {
      values := m;
    }

    /** `get_string`: the value when present and a JSON string. */
    function GetString(name: string): (r: Option<string>)
      reads this
      ensures r.Some? <==> Assoc.Get(values, name).Some? && Assoc.Get(values, name).value.JString?
      ensures r.Some? ==> Assoc.Get(values, name) == Some(JString(r.value))
    {
      match Assoc.Get(values, name)
      case None => None
      case Some(v) => AsStr(v)
    }

    /** `get_bool`: the value when present and a JSON boolean. */
    function GetBool(name: string): (r: Option<bool>)
      reads this
      ensures r.Some? <==> Assoc.Get(values, name).Some? && Assoc.Get(values, name).value.JBool?
      ensures r.Some? ==> Assoc.Get(values, name) == Some(JBool(r.value))
    {
      match Assoc.Get(values, name)
      case None => None
      case Some(v) => AsBool(v)
    }

    /** `set`: insert or overwrite. */
    method Set(name: string, value: Json)
      modifies this
      ensures values == Insert(old(values), name, value)
      ensures Assoc.Get(values, name) == Some(value)
      ensures forall k :: k != name ==> Assoc.Get(values, k) == old(Assoc.Get(values, k))
    {
      GetInsertEach(values, name, value);
      values := Insert(values, name, value);
    }
  }

  /** After `set(n, JString(s))`, `get_string(n)` is s and `get_bool(n)` is None. */
  method SetThenGet(pv: ParameterValues, name: string, s: string)
    modifies pv
    ensures pv.GetString(name) == Some(s) && pv.GetBool(name).None?
  {
    pv.Set(name, JString(s));
  }
}
