/**
 * The `src/pipeline` module root: the `Environment` and its `${VAR}`
 * scanner, build `Parameters` and their name check, and the matrix
 * configuration with its combination generator.
 */
module RustlineCore {
  import opened Wrappers
  import opened Strings
  import opened Assoc
  import opened RustlineErrors

  // ---------------------------------------------------------------------
  // Environment
  // ---------------------------------------------------------------------

  /** Environment variables; the list order stands for the hash map's iteration order. */
  datatype Environment = Environment(vars: Entries<string>)

  const EmptyEnvironment: Environment := Environment([])

  /** `Environment::set`: insert or overwrite `key`. */
  function Set(e: Environment, key: string, value: string): (r: Environment)
    ensures Get(r, key) == Some(value)
    ensures forall k :: k != key ==> Get(r, k) == Get(e, k)
  {
    GetInsertEach(e.vars, key, value);
    Environment(Insert(e.vars, key, value))
  }

  /** `Environment::get`. */
  function Get(e: Environment, key: string): Option<string> {
    Assoc.Get(e.vars, key)
  }

  /** Setting a key twice keeps only the second value. */
  lemma SetOverwrites(e: Environment, key: string, v1: string, v2: string)
    ensures Get(Set(Set(e, key, v1), key, v2), key) == Some(v2)
  {
  }

  /**
   * One round of the scan of `Environment::resolve` at byte offset `start`
   * of the partly rewritten text `result`: None when the scan stops,
   * otherwise the rewritten text and the new offset. A defined `${NAME}`
   * replaces the text from `start` (not from its '$') through the '}'.
   */
  function ResolveStep(e: Environment, result: string, start: nat): (r: Option<(string, nat)>)
    requires start <= |result|
    ensures r.Some? ==> r.value.1 <= |r.value.0| && |r.value.0| - r.value.1 < |result| - start
  {
    match IndexOf(result[start..], '$')
    case None => None
    case Some(pos) =>
      var varStart := start + pos + 1;
      if varStart >= |result| then None
      else if result[varStart] == '{' then PlaceholderStep(e, result, start, varStart)
      else Some((result, varStart))
  }

  /**
   * The part of a round after a "${" at `varStart - 1`: None when no '}'
   * follows, otherwise the text with a defined `${NAME}` replaced from
   * offset `from` through the '}', or unchanged for an undefined one, and
   * the new offset.
   */
  function PlaceholderStep(e: Environment, result: string, from: nat, varStart: nat): (r: Option<(string, nat)>)
    requires from < varStart < |result| && result[varStart] == '{'
    ensures r.Some? ==> r.value.1 <= |r.value.0| && |r.value.0| - r.value.1 < |result| - from
  {
    match IndexOf(result[varStart..], '}')
    case None => None
    case Some(endBrace) =>
      var varEnd := varStart + endBrace + 1;
      match Get(e, result[varStart + 1..varEnd - 1])
      case Some(value) => Some((result[..from] + value + result[varEnd..], from + |value|))
      case None => Some((result, varEnd))
  }

  /** The scan of `Environment::resolve` from offset `start` to its end. */
  function ResolveFrom(e: Environment, result: string, start: nat): (r: string)
    requires start <= |result|
    decreases |result| - start
  {
    match ResolveStep(e, result, start)
    case None => result
    case Some(next) => ResolveFrom(e, next.0, next.1)
  }

  /** `Environment::resolve` as a function of its input. */
  function ResolveSpec(e: Environment, value: string): string {
    ResolveFrom(e, value, 0)
  }

  /** The body of the scanning loop of `Environment::resolve`: one round of the scan. */
  method ScanRound(e: Environment, result: string, start: nat) returns (stop: bool, next: string, nextStart: nat)
    requires start <= |result|
    ensures stop <==> ResolveStep(e, result, start).None?
    ensures !stop ==> ResolveStep(e, result, start) == Some((next, nextStart))
  {
    next, nextStart := result, start;
    var rest := result[start..];
    match IndexOf(rest, '$')
    case None =>
      stop := true;
    case Some(pos) =>
      var varStart: nat := start + pos + 1;
      if varStart >= |result| {
        stop := true;
      } else if result[varStart] == '{' {
        stop, next, nextStart := ScanPlaceholder(e, result, start, varStart);
      } else {
        stop, nextStart := false, varStart;
      }
  }

  /** The rest of a round once "${" is found: look for the '}' and the variable. */
  method ScanPlaceholder(e: Environment, result: string, start: nat, varStart: nat)
    returns (stop: bool, next: string, nextStart: nat)
    requires start < varStart < |result| && result[varStart] == '{'
    ensures stop <==> PlaceholderStep(e, result, start, varStart).None?
    ensures !stop ==> PlaceholderStep(e, result, start, varStart) == Some((next, nextStart))
  {
    next, nextStart := result, start;
    var endBrace := IndexOf(result[varStart..], '}');
    if endBrace.None? {
      return true, next, nextStart;
    }
    var varEnd: nat := varStart + endBrace.value + 1;
    var name := result[varStart + 1..varEnd - 1];
    var found := Get(e, name);
    if found.Some? {
      next := result[..start] + found.value + result[varEnd..];
      nextStart := start + |found.value|;
    } else {
      nextStart := varEnd;
    }
    stop := false;
  }

  /** `Environment::resolve`: the scanning loop, rewriting `result` in place. */
  method Resolve(e: Environment, value: string) returns (result: string)
    ensures result == ResolveSpec(e, value)
  {
    result := value;
    var start: nat := 0;
    while true
      invariant start <= |result|
      invariant ResolveFrom(e, result, start) == ResolveSpec(e, value)
      decreases |result| - start
    {
      var stop, next, nextStart := ScanRound(e, result, start);
      if stop {
        break;
      }
      result, start := next, nextStart;
    }
  }

  /** Text without '$' resolves to itself. */
  lemma ResolveNoDollar(e: Environment, value: string)
    requires '$' !in value
    ensures ResolveSpec(e, value) == value
  {
    WholeSuffix(value);
  }

  /** An undefined `${NAME}` stays in place and the scan resumes after its '}'. */
  lemma {:induction false} ResolveUndefinedKept(e: Environment, name: string, rest: string)
    requires '$' !in name && '}' !in name
    requires Get(e, name).None?
    ensures ResolveSpec(e, "${" + name + "}" + rest)
      == ResolveFrom(e, "${" + name + "}" + rest, |name| + 3)
  {
    var s := "${" + name + "}" + rest;
    assert s[0..][0] == '$';
    assert s[1] == '{';
    assert s[1..] == "{" + name + "}" + rest;
    assert s[1..][|name| + 1] == '}';
    assert '}' !in s[1..][..|name| + 1] by {
      assert s[1..][..|name| + 1] == "{" + name;
    }
    assert IndexOf(s[1..], '}') == Some(|name| + 1);
    assert s[2..|name| + 2] == name;
  }

  /**
   * The scan rewrites from its offset, not from the '$': for a defined
   * variable, text in front of the placeholder is dropped.
   */
  lemma ResolveDropsPrefix()
    ensures ResolveSpec(Environment([("X", "v")]), "a${X}b") == "vb"
  {
    var e := Environment([("X", "v")]);
    ExampleShape();
    ResolveOnePlaceholder(e, "a", "X", "b");
  }

  /** The text of the example above, as prefix, placeholder and rest. */
  lemma ExampleShape()
    ensures "a" + "${" + "X" + "}" + "b" == "a${X}b" && "v" + "b" == "vb"
  {
  }

  /** An unterminated `${` ends the scan, leaving the text as it is. */
  lemma ResolveUnterminated(e: Environment, rest: string)
    requires '}' !in rest && '$' !in rest
    ensures ResolveSpec(e, "${" + rest) == "${" + rest
  {
    var s := "${" + rest;
    WholeSuffix(s);
    assert s[1..] == "{" + rest;
  }

  /**
   * One round of the intended scanner: a defined `${NAME}` is replaced from
   * its own '$', so the text before it is kept.
   */
  function ResolveIntendedStep(e: Environment, result: string, start: nat): (r: Option<(string, nat)>)
    requires start <= |result|
    ensures r.Some? ==> r.value.1 <= |r.value.0| && |r.value.0| - r.value.1 < |result| - start
  {
    match IndexOf(result[start..], '$')
    case None => None
    case Some(pos) =>
      var varStart := start + pos + 1;
      if varStart >= |result| then None
      else if result[varStart] == '{' then PlaceholderStep(e, result, start + pos, varStart)
      else Some((result, varStart))
  }

  function ResolveIntendedFrom(e: Environment, result: string, start: nat): (r: string)
    requires start <= |result|
    decreases |result| - start
  {
    match ResolveIntendedStep(e, result, start)
    case None => result
    case Some(next) => ResolveIntendedFrom(e, next.0, next.1)
  }

  function ResolveIntended(e: Environment, value: string): string {
    ResolveIntendedFrom(e, value, 0)
  }

  /**
   * The scan as written, on one defined placeholder: `prefix${NAME}rest`
   * becomes the value followed by `rest`, losing `prefix`.
   */
  lemma ResolveOnePlaceholder(e: Environment, prefix: string, name: string, rest: string)
    requires '$' !in prefix && '}' !in name && '$' !in rest
    requires Get(e, name).Some?
    ensures ResolveSpec(e, prefix + "${" + name + "}" + rest) == Get(e, name).value + rest
  {
    var value := Get(e, name).value;
    var s := prefix + ("${" + name + "}" + rest);
    Regroup(prefix, name, rest);
    PlaceholderFacts(prefix, name, rest);
    StepAtFirstPlaceholder(e, s, |prefix|);
    PlaceholderDropsPrefix(e, s, prefix, name, rest);
    RestUntouched(e, value, rest);
  }

  /**
   * The intended scan, on one defined placeholder: `prefix${NAME}rest`
   * becomes `prefix`, the value, then `rest`.
   */
  lemma ResolveIntendedOnePlaceholder(e: Environment, prefix: string, name: string, rest: string)
    requires '$' !in prefix && '}' !in name && '$' !in rest
    requires Get(e, name).Some?
    ensures ResolveIntended(e, prefix + "${" + name + "}" + rest) == prefix + Get(e, name).value + rest
  {
    var done := prefix + Get(e, name).value;
    IntendedFirstRound(e, prefix, name, rest);
    RestUntouched(e, done, rest);
  }

  /** The first round of the intended scan over `prefix${NAME}rest`. */
  lemma IntendedFirstRound(e: Environment, prefix: string, name: string, rest: string)
    requires '$' !in prefix && '}' !in name && Get(e, name).Some?
    ensures var s := prefix + "${" + name + "}" + rest;
      var done := prefix + Get(e, name).value;
      ResolveIntendedStep(e, s, 0) == Some((done + rest, |done|))
  {
    var s := prefix + ("${" + name + "}" + rest);
    Regroup(prefix, name, rest);
    PlaceholderFacts(prefix, name, rest);
    IntendedStepAtFirstPlaceholder(e, s, |prefix|);
    PlaceholderKeepsPrefix(e, s, prefix, name, rest);
  }

  /** With the first '$' at `p` opening a "${", the round as written goes on to the placeholder. */
  lemma StepAtFirstPlaceholder(e: Environment, s: string, p: nat)
    requires IndexOf(s, '$') == Some(p) && p + 1 < |s| && s[p + 1] == '{'
    ensures ResolveStep(e, s, 0) == PlaceholderStep(e, s, 0, p + 1)
  {
    WholeSuffix(s);
  }

  /** With the first '$' at `p` opening a "${", the intended round goes on to the placeholder from `p`. */
  lemma IntendedStepAtFirstPlaceholder(e: Environment, s: string, p: nat)
    requires IndexOf(s, '$') == Some(p) && p + 1 < |s| && s[p + 1] == '{'
    ensures ResolveIntendedStep(e, s, 0) == PlaceholderStep(e, s, p, p + 1)
  {
    WholeSuffix(s);
  }

  /** Scanning from offset 0 scans the whole text. */
  lemma WholeSuffix(s: string)
    ensures s[0..] == s
  {
  }

  /**
   * The round that meets a defined placeholder, whose '}' lies `k` places
   * after its '{', rewrites from `from` through the '}'.
   */
  lemma PlaceholderReplaced(e: Environment, s: string, from: nat, varStart: nat, k: nat, value: string)
    requires from < varStart < |s| && s[varStart] == '{'
    requires IndexOf(s[varStart..], '}') == Some(k)
    requires Get(e, s[varStart + 1..varStart + k]) == Some(value)
    ensures PlaceholderStep(e, s, from, varStart)
      == Some((s[..from] + value + s[varStart + k + 1..], from + |value|))
  {
  }

  /** The round as written, meeting the placeholder `${NAME}` after `prefix`, keeps only the value and `rest`. */
  lemma PlaceholderDropsPrefix(e: Environment, s: string, prefix: string, name: string, rest: string)
    requires var p := |prefix|;
      p + |name| + 3 <= |s| && s[p + 1] == '{' && IndexOf(s[p + 1..], '}') == Some(|name| + 1)
      && s[p + 2..p + |name| + 2] == name && s[p + |name| + 3..] == rest
    requires Get(e, name).Some?
    ensures var value := Get(e, name).value;
      PlaceholderStep(e, s, 0, |prefix| + 1) == Some((value + rest, |value|))
  {
    var value := Get(e, name).value;
    PlaceholderReplaced(e, s, 0, |prefix| + 1, |name| + 1, value);
    assert s[..0] + value == value;
  }

  /** The intended round rewrites from the '$', so `prefix` stays in front of the value. */
  lemma PlaceholderKeepsPrefix(e: Environment, s: string, prefix: string, name: string, rest: string)
    requires var p := |prefix|;
      p + |name| + 3 <= |s| && s[p + 1] == '{' && IndexOf(s[p + 1..], '}') == Some(|name| + 1)
      && s[p + 2..p + |name| + 2] == name && s[..p] == prefix && s[p + |name| + 3..] == rest
    requires Get(e, name).Some?
    ensures var done := prefix + Get(e, name).value;
      PlaceholderStep(e, s, |prefix|, |prefix| + 1) == Some((done + rest, |done|))
  {
    PlaceholderReplaced(e, s, |prefix|, |prefix| + 1, |name| + 1, Get(e, name).value);
  }

  /** Once the offset is past the last '$', both scans stop and keep the text. */
  lemma RestUntouched(e: Environment, done: string, rest: string)
    requires '$' !in rest
    ensures ResolveFrom(e, done + rest, |done|) == done + rest
    ensures ResolveIntendedFrom(e, done + rest, |done|) == done + rest
  {
    assert (done + rest)[|done|..] == rest;
  }

  /** Where the scanner finds the '$', the '{' and the '}' of `prefix${NAME}rest`. */
  lemma PlaceholderFacts(prefix: string, name: string, rest: string)
    requires '$' !in prefix && '}' !in name
    ensures var s := prefix + ("${" + name + "}" + rest);
      var p := |prefix|;
      |s| == p + |name| + 3 + |rest| && IndexOf(s, '$') == Some(p) && s[p + 1] == '{'
      && IndexOf(s[p + 1..], '}') == Some(|name| + 1)
      && s[p + 2..p + |name| + 2] == name && s[..p] == prefix && s[p + |name| + 3..] == rest
  {
    var t := "${" + name + "}" + rest;
    PlaceholderTail(name, rest);
    ShiftedPlaceholder(prefix, t, |name|, rest);
  }

  /** Behind a `prefix` without '$', a text that opens with a placeholder keeps its positions, shifted. */
  lemma ShiftedPlaceholder(prefix: string, t: string, n: nat, rest: string)
    requires '$' !in prefix && |t| == n + 3 + |rest| && t[0] == '$' && t[1] == '{'
    requires IndexOf(t[1..], '}') == Some(n + 1) && t[n + 3..] == rest
    ensures var s := prefix + t;
      var p := |prefix|;
      |s| == p + n + 3 + |rest| && IndexOf(s, '$') == Some(p) && s[p + 1] == '{'
      && IndexOf(s[p + 1..], '}') == Some(n + 1)
      && s[p + 2..p + n + 2] == t[2..n + 2] && s[..p] == prefix && s[p + n + 3..] == rest
  {
    FirstAfterPrefix(prefix, t, '$');
    ShiftedSlices(prefix, t, n);
  }

  /** The slices of `t` after its '$' reappear, shifted, behind `prefix`. */
  lemma ShiftedSlices(prefix: string, t: string, n: nat)
    requires n + 3 <= |t|
    ensures var s := prefix + t;
      var p := |prefix|;
      s[p + 1..] == t[1..] && s[p + 2..p + n + 2] == t[2..n + 2] && s[p + n + 3..] == t[n + 3..]
  {
    AfterPrefix(prefix, t, 1, |t|);
    AfterPrefix(prefix, t, 2, n + 2);
    AfterPrefix(prefix, t, n + 3, |t|);
  }

  /** `prefix${NAME}rest` is `prefix` followed by `${NAME}rest`. */
  lemma Regroup(prefix: string, name: string, rest: string)
    ensures prefix + "${" + name + "}" + rest == prefix + ("${" + name + "}" + rest)
  {
  }

  /** Where the '{', the name, the '}' and the rest lie in `${NAME}rest`. */
  lemma PlaceholderTail(name: string, rest: string)
    requires '}' !in name
    ensures var t := "${" + name + "}" + rest;
      |t| == |name| + 3 + |rest| && t[0] == '$' && t[1] == '{'
      && IndexOf(t[1..], '}') == Some(|name| + 1)
      && t[2..|name| + 2] == name && t[|name| + 3..] == rest
  {
    var t := "${" + name + "}" + rest;
    assert t[1..][..|name| + 1] == "{" + name;
    IndexOfIs(t[1..], '}', |name| + 1);
    assert t[2..|name| + 2] == name;
    assert t[|name| + 3..] == rest;
  }

  /** Slices of `t` keep their contents when `prefix` is put in front. */
  lemma AfterPrefix(prefix: string, t: string, i: nat, j: nat)
    requires i <= j <= |t|
    ensures (prefix + t)[|prefix| + i..|prefix| + j] == t[i..j]
    ensures j == |t| ==> (prefix + t)[|prefix| + i..] == t[i..]
  {
  }

  /** Behind a `prefix` without `c`, the first `c` is the first `c` of `t`, shifted. */
  lemma FirstAfterPrefix(prefix: string, t: string, c: char)
    requires c !in prefix && |t| > 0 && t[0] == c
    ensures IndexOf(prefix + t, c) == Some(|prefix|) && (prefix + t)[..|prefix|] == prefix
  {
    var s := prefix + t;
    assert s[..|prefix|] == prefix;
    IndexOfIs(s, c, |prefix|);
  }

  // ---------------------------------------------------------------------
  // Parameters
  // ---------------------------------------------------------------------

  /** Build parameters by kind; list order stands for hash-map iteration order. */
  datatype Parameters = Parameters(
    boolean: Entries<bool>, str: Entries<string>, choice: Entries<seq<string>>)

  const EmptyParameters: Parameters := Parameters([], [], [])

  /** `Parameters::boolean`. */
  function AddBoolean(p: Parameters, name: string, value: bool): (r: Parameters)
    ensures Assoc.Get(r.boolean, name) == Some(value)
    ensures r.str == p.str && r.choice == p.choice
  {
    GetInsert(p.boolean, name, value, name);
    p.(boolean := Insert(p.boolean, name, value))
  }

  /** `Parameters::string` (and `string_with_default`, which ignores its default). */
  function AddString(p: Parameters, name: string, value: string): (r: Parameters)
    ensures Assoc.Get(r.str, name) == Some(value)
    ensures r.boolean == p.boolean && r.choice == p.choice
  {
    GetInsert(p.str, name, value, name);
    p.(str := Insert(p.str, name, value))
  }

  /** `Parameters::choice`. */
  function AddChoice(p: Parameters, name: string, choices: seq<string>): (r: Parameters)
    ensures Assoc.Get(r.choice, name) == Some(choices)
    ensures r.boolean == p.boolean && r.str == p.str
  {
    GetInsert(p.choice, name, choices, name);
    p.(choice := Insert(p.choice, name, choices))
  }

  /** A parameter name: non-empty, no space, only alphanumerics, '_' and '-'. */
  predicate ValidName(name: string) {
    name != "" && ' ' !in name
    && forall i :: 0 <= i < |name| ==> IsAlphanumeric(name[i]) || name[i] == '_' || name[i] == '-'
  }

  /** The first name of `names` that is not valid. */
  function FirstInvalid(names: seq<string>): (r: Option<string>)
    ensures r.None? <==> forall i :: 0 <= i < |names| ==> ValidName(names[i])
    ensures r.Some? ==> r.value in names && !ValidName(r.value)
  {
    if |names| == 0 then None
    else if !ValidName(names[0]) then Some(names[0])
    else
      var t := FirstInvalid(names[1..]);
      assert forall i :: 0 < i < |names| ==> names[i] == names[1..][i - 1];
      t
  }

  predicate AllNamesValid(p: Parameters) {
    (forall i :: 0 <= i < |p.boolean| ==> ValidName(p.boolean[i].0))
    && (forall i :: 0 <= i < |p.str| ==> ValidName(p.str[i].0))
    && (forall i :: 0 <= i < |p.choice| ==> ValidName(p.choice[i].0))
  }

  /**
   * `Parameters::validate`: boolean names, then string names, then choice
   * names are checked; the first invalid one is reported.
   */
  function ValidateParameters(p: Parameters): (r: Result<Unit, ValidationError>)
    ensures r.Ok? <==> AllNamesValid(p)
    ensures r.Err? ==> r.error.InvalidNameChars? && !ValidName(r.error.name)
    ensures r.Err? ==> r.error.name in Keys(p.boolean) + Keys(p.str) + Keys(p.choice)
  {
    match FirstInvalid(Keys(p.boolean))
    case Some(n) => Err(InvalidNameChars(n))
    case None =>
      match FirstInvalid(Keys(p.str))
      case Some(n) => Err(InvalidNameChars(n))
      case None =>
        match FirstInvalid(Keys(p.choice))
        case Some(n) => Err(InvalidNameChars(n))
        case None => Ok(Unit)
  }

  // ---------------------------------------------------------------------
  // Matrix
  // ---------------------------------------------------------------------

  datatype MatrixAxis = MatrixAxis(name: string, values: seq<string>)
  datatype MatrixExclude = MatrixExclude(conditions: seq<(string, string)>)
  datatype MatrixConfig = MatrixConfig(axes: seq<MatrixAxis>, excludes: seq<MatrixExclude>)

  /** One combination: (axis name, value) pairs in axis order. */
  type Combo = seq<(string, string)>

  const EmptyMatrix: MatrixConfig := MatrixConfig([], [])

  /** `MatrixConfig::add_axis`: appends one axis. */
  function AddAxis(m: MatrixConfig, name: string, values: seq<string>): (r: MatrixConfig)
    ensures r.axes == m.axes + [MatrixAxis(name, values)] && r.excludes == m.excludes
  {
    m.(axes := m.axes + [MatrixAxis(name, values)])
  }

  /** `MatrixConfig::add_exclude`: appends one exclusion. */
  function AddExclude(m: MatrixConfig, conditions: seq<(string, string)>): (r: MatrixConfig)
    ensures r.excludes == m.excludes + [MatrixExclude(conditions)] && r.axes == m.axes
  {
    m.(excludes := m.excludes + [MatrixExclude(conditions)])
  }

  /** `combo` extended by each of `values` for axis `name`, in value order. */
  function WithValues(combo: Combo, name: string, values: seq<string>): (r: seq<Combo>)
    ensures |r| == |values|
    ensures forall k :: 0 <= k < |values| ==> r[k] == combo + [(name, values[k])]
  {
    if |values| == 0 then []
    else WithValues(combo, name, values[..|values| - 1]) + [combo + [(name, values[|values| - 1])]]
  }

  /** Every combination of `combos` extended by every value of `axis`; earlier combinations first. */
  function Extend(combos: seq<Combo>, axis: MatrixAxis): (r: seq<Combo>)
    ensures |r| == |combos| * |axis.values|
  {
    if |combos| == 0 then []
    else
      var n := |combos| - 1;
      assert |combos| * |axis.values| == n * |axis.values| + |axis.values|;
      Extend(combos[..n], axis) + WithValues(combos[n], axis.name, axis.values)
  }

  /** The cartesian product of the axes, the first axis varying slowest. */
  function Product(axes: seq<MatrixAxis>): seq<Combo> {
    if |axes| == 0 then [[]]
    else Extend(Product(axes[..|axes| - 1]), axes[|axes| - 1])
  }

  /** `c` picks one value of each axis, in axis order. */
  predicate IsCombo(c: Combo, axes: seq<MatrixAxis>) {
    |c| == |axes| && forall k :: 0 <= k < |axes| ==> c[k].0 == axes[k].name && c[k].1 in axes[k].values
  }

  lemma ExtendMembers(combos: seq<Combo>, axis: MatrixAxis, c: Combo)
    ensures c in Extend(combos, axis)
      <==> |c| > 0 && c[..|c| - 1] in combos && c[|c| - 1].0 == axis.name && c[|c| - 1].1 in axis.values
    decreases |combos|
  {
    if |combos| > 0 {
      var n := |combos| - 1;
      ExtendMembers(combos[..n], axis, c);
      var w := WithValues(combos[n], axis.name, axis.values);
      if c in w {
        var k :| 0 <= k < |w| && w[k] == c;
        assert c[..|c| - 1] == combos[n];
      }
      if |c| > 0 && c[..|c| - 1] == combos[n] && c[|c| - 1].0 == axis.name && c[|c| - 1].1 in axis.values {
        var k :| 0 <= k < |axis.values| && axis.values[k] == c[|c| - 1].1;
        assert c == combos[n] + [(axis.name, axis.values[k])];
        assert w[k] == c;
      }
      assert combos == combos[..n] + [combos[n]];
    }
  }

  /** The product holds exactly the combinations that pick one value per axis. */
  lemma {:induction false} ProductMembers(axes: seq<MatrixAxis>, c: Combo)
    ensures c in Product(axes) <==> IsCombo(c, axes)
    decreases |axes|
  {
    if |axes| == 0 {
    } else {
      var n := |axes| - 1;
      ExtendMembers(Product(axes[..n]), axes[n], c);
      if |c| > 0 {
        ProductMembers(axes[..n], c[..|c| - 1]);
      }
      IsComboLast(c, axes);
    }
  }

  /** A combination over several axes is one over all but the last, followed by a value of the last. */
  lemma IsComboLast(c: Combo, axes: seq<MatrixAxis>)
    requires |axes| > 0
    ensures var n := |axes| - 1;
      IsCombo(c, axes) <==>
        |c| > 0 && IsCombo(c[..|c| - 1], axes[..n]) && c[|c| - 1].0 == axes[n].name && c[|c| - 1].1 in axes[n].values
  {
    var n := |axes| - 1;
    if |c| > 0 && IsCombo(c[..|c| - 1], axes[..n]) && c[|c| - 1].0 == axes[n].name && c[|c| - 1].1 in axes[n].values {
      forall k | 0 <= k < |axes|
        ensures c[k].0 == axes[k].name && c[k].1 in axes[k].values
      {
        if k < n {
          assert c[k] == c[..|c| - 1][k] && axes[k] == axes[..n][k];
        }
      }
    }
  }

  /** The product of the numbers of values of the axes. */
  function SizeProduct(axes: seq<MatrixAxis>): nat {
    if |axes| == 0 then 1 else SizeProduct(axes[..|axes| - 1]) * |axes[|axes| - 1].values|
  }

  /** Without exclusions there are as many combinations as the product of the axis sizes. */
  lemma {:induction false} ProductSize(axes: seq<MatrixAxis>)
    ensures |Product(axes)| == SizeProduct(axes)
    decreases |axes|
  {
    if |axes| > 0 {
      ProductSize(axes[..|axes| - 1]);
    }
  }

  /** Every condition of the exclusion occurs among the pairs of `combo`. */
  predicate AllConditionsMatch(combo: Combo, ex: MatrixExclude) {
    forall i :: 0 <= i < |ex.conditions| ==> ex.conditions[i] in combo
  }

  /** Some exclusion rule matches `combo` completely. */
  predicate Excluded(combo: Combo, excludes: seq<MatrixExclude>) {
    exists j :: 0 <= j < |excludes| && AllConditionsMatch(combo, excludes[j])
  }

  /** The combinations no exclusion rule matches, in their original order. */
  function Filter(combos: seq<Combo>, excludes: seq<MatrixExclude>): (r: seq<Combo>)
    ensures |r| <= |combos|
    ensures forall c :: c in r <==> c in combos && !Excluded(c, excludes)
  {
    if |combos| == 0 then []
    else
      var n := |combos| - 1;
      var rest := Filter(combos[..n], excludes);
      assert combos == combos[..n] + [combos[n]];
      if Excluded(combos[n], excludes) then rest else rest + [combos[n]]
  }

  /** `generate_combinations` as a function of the configuration. */
  function Combinations(m: MatrixConfig): seq<Combo> {
    if |m.axes| == 0 then [] else Filter(Product(m.axes), m.excludes)
  }

  /** Whether `combo` survives the exclusion rules: the filter closure of `generate_combinations`. */
  function Keep(combo: Combo, excludes: seq<MatrixExclude>): (r: bool)
    ensures r <==> !Excluded(combo, excludes)
  {
    if |excludes| == 0 then true
    else
      var ex := excludes[|excludes| - 1];
      var allMatch := forall i :: 0 <= i < |ex.conditions| ==> ex.conditions[i] in combo;
      assert Excluded(combo, excludes) <==> Excluded(combo, excludes[..|excludes| - 1]) || allMatch by {
        if Excluded(combo, excludes) {
          var j :| 0 <= j < |excludes| && AllConditionsMatch(combo, excludes[j]);
          if j < |excludes| - 1 {
            assert excludes[..|excludes| - 1][j] == excludes[j];
          }
        }
        if Excluded(combo, excludes[..|excludes| - 1]) {
          var j :| 0 <= j < |excludes| - 1 && AllConditionsMatch(combo, excludes[..|excludes| - 1][j]);
          assert excludes[j] == excludes[..|excludes| - 1][j];
        }
      }
      Keep(combo, excludes[..|excludes| - 1]) && !allMatch
  }

  /** One round of the axis loop: every current combination extended by every value of `axis`. */
  method ExtendLoop(combinations: seq<Combo>, axis: MatrixAxis) returns (next: seq<Combo>)
    ensures next == Extend(combinations, axis)
  {
    next := [];
    var j := 0;
    while j < |combinations|
      invariant 0 <= j <= |combinations|
      invariant next == Extend(combinations[..j], axis)
    {
      var k := 0;
      var before := next;
      while k < |axis.values|
        invariant 0 <= k <= |axis.values|
        invariant next == before + WithValues(combinations[j], axis.name, axis.values[..k])
      {
        assert axis.values[..k + 1][..k] == axis.values[..k];
        next := next + [combinations[j] + [(axis.name, axis.values[k])]];
        k := k + 1;
      }
      assert axis.values[..k] == axis.values;
      assert combinations[..j + 1][..j] == combinations[..j];
      j := j + 1;
    }
    assert combinations[..j] == combinations;
  }

  /** The exclusion pass: keeps, in order, the combinations no rule matches. */
  method FilterLoop(combinations: seq<Combo>, excludes: seq<MatrixExclude>) returns (r: seq<Combo>)
    ensures r == Filter(combinations, excludes)
  {
    r := [];
    var c := 0;
    while c < |combinations|
      invariant 0 <= c <= |combinations|
      invariant r == Filter(combinations[..c], excludes)
    {
      assert combinations[..c + 1][..c] == combinations[..c];
      if Keep(combinations[c], excludes) {
        r := r + [combinations[c]];
      }
      c := c + 1;
    }
    assert combinations[..c] == combinations;
  }

  /**
   * `MatrixConfig::generate_combinations`: the axis loop building the
   * product, then the pass dropping the excluded combinations.
   */
  method GenerateCombinations(m: MatrixConfig) returns (r: seq<Combo>)
    ensures r == Combinations(m)
  {
    if |m.axes| == 0 {
      return [];
    }
    var combinations: seq<Combo> := [[]];
    var i := 0;
    while i < |m.axes|
      invariant 0 <= i <= |m.axes|
      invariant combinations == Product(m.axes[..i])
    {
      combinations := ExtendLoop(combinations, m.axes[i]);
      assert m.axes[..i + 1][..i] == m.axes[..i];
      i := i + 1;
    }
    assert m.axes[..i] == m.axes;
    r := FilterLoop(combinations, m.excludes);
  }

  /** With axes and no exclusions, the combinations are exactly the one-value-per-axis picks, and there are as many as the product of the axis sizes. */
  lemma CombinationsNoExcludes(m: MatrixConfig)
    requires |m.axes| > 0 && |m.excludes| == 0
    ensures |Combinations(m)| == SizeProduct(m.axes)
    ensures forall c :: c in Combinations(m) <==> IsCombo(c, m.axes)
  {
    ProductSize(m.axes);
    assert Filter(Product(m.axes), []) == Product(m.axes) by {
      FilterNone(Product(m.axes));
    }
    forall c ensures c in Combinations(m) <==> IsCombo(c, m.axes) {
      ProductMembers(m.axes, c);
    }
  }

  lemma {:induction false} FilterNone(combos: seq<Combo>)
    ensures Filter(combos, []) == combos
    decreases |combos|
  {
    if |combos| > 0 {
      FilterNone(combos[..|combos| - 1]);
      assert combos == combos[..|combos| - 1] + [combos[|combos| - 1]];
    }
  }

  /** A combination is kept iff it picks one value per axis and no exclusion rule matches all its conditions. */
  lemma CombinationsMembers(m: MatrixConfig, c: Combo)
    requires |m.axes| > 0
    ensures c in Combinations(m) <==> IsCombo(c, m.axes) && !Excluded(c, m.excludes)
  {
    ProductMembers(m.axes, c);
  }

  /** An exclusion rule with no conditions removes every combination. */
  lemma EmptyExclusionRemovesAll(m: MatrixConfig, j: nat)
    requires j < |m.excludes| && m.excludes[j].conditions == []
    ensures Combinations(m) == []
  {
    if |Combinations(m)| > 0 {
      var c := Combinations(m)[0];
      assert AllConditionsMatch(c, m.excludes[j]);
      assert Excluded(c, m.excludes);
    }
  }

  /** `MatrixConfig::validate`: each axis, in order, needs a name and at least one value. */
  function ValidateMatrix(m: MatrixConfig): (r: Result<Unit, ValidationError>)
    ensures r.Ok? <==> forall i :: 0 <= i < |m.axes| ==> m.axes[i].name != "" && |m.axes[i].values| > 0
    ensures r.Err? ==> r == Err(InvalidNameChars("")) || r.error.InvalidAgentType?
    decreases |m.axes|
  {
    if |m.axes| == 0 then Ok(Unit)
    else if m.axes[0].name == "" then Err(InvalidNameChars(""))
    else if |m.axes[0].values| == 0 then Err(InvalidAgentType("Matrix axis must have at least one value"))
    else
      var r := ValidateMatrix(MatrixConfig(m.axes[1..], m.excludes));
      assert forall i :: 1 <= i < |m.axes| ==> m.axes[i] == m.axes[1..][i - 1];
      r
  }
}
