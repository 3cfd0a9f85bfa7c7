/**
 * Matrix expansion of the `pipeliner-core` model: the axes of a matrix, its
 * validation, the combinations of axis values (a cartesian product, later
 * axes varying fastest, minus the excluded combinations), the cells built
 * from them with their names, and the iterator over the cells.
 *
 * A combination is the hash map the product builds; it is an association
 * list here, whose order (insertion order) stands for the map's iteration
 * order, which the cell names expose.
 */
module CoreMatrix {
  import opened Wrappers
  import opened Strings
  import opened Assoc
  import opened CoreValidation

  datatype MatrixAxis =
    | Values(name: string, values: seq<string>)
    | Range(name: string, start: int, end: int, step: int)
    | File(name: string, file: string, separator: string)
    | Expression(name: string, expression: string)

  /** An exclusion: the axis values that together rule a combination out. */
  datatype MatrixExclude = MatrixExclude(axes: Entries<string>, reason: Option<string>)

  datatype MatrixConfig = MatrixConfig(
    axes: seq<MatrixAxis>, exclude: seq<MatrixExclude>,
    agent: Option<string>, nameTemplate: Option<string>)

  datatype MatrixCell = MatrixCell(index: nat, values: Entries<string>, name: string)

  type Combo = Entries<string>

  // ---------------------------------------------------------------------
  // Validation
  // ---------------------------------------------------------------------

  /** The check of one axis: values must exist; a range needs a positive step and start <= end. */
  function ValidateAxis(axis: MatrixAxis): (r: Validation)
    ensures r.Err? <==> (axis.Values? && axis.values == [])
                        || (axis.Range? && (axis.step <= 0 || axis.start > axis.end))
    ensures axis.Range? && axis.step <= 0 ==> r == Err(InvalidMatrix("axis '" + axis.name + "' step must be positive"))
  {
    match axis
    case Values(name, values) =>
      if values == [] then Err(InvalidMatrix("axis '" + name + "' must have at least one value")) else Ok(Unit)
    case Range(name, start, end, step) =>
      if step <= 0 then Err(InvalidMatrix("axis '" + name + "' step must be positive"))
      else if start > end then Err(InvalidMatrix("axis '" + name + "' start must be <= end"))
      else Ok(Unit)
    case _ => Ok(Unit)
  }

  /** `MatrixConfig::validate`: at least one axis, then each axis in order, the first error winning. */
  function Validate(c: MatrixConfig): (r: Validation)
    ensures r.Ok? <==> |c.axes| > 0 && forall i :: 0 <= i < |c.axes| ==> ValidateAxis(c.axes[i]).Ok?
    ensures |c.axes| == 0 ==> r == Err(InvalidMatrix("matrix must have at least one axis"))
  {
    if |c.axes| == 0 then Err(InvalidMatrix("matrix must have at least one axis"))
    else ValidateAll(c.axes, ValidateAxis)
  }

  /** File and Expression axes never fail validation. */
  lemma FileAndExpressionAxesPass(c: MatrixConfig)
    requires |c.axes| > 0 && forall i :: 0 <= i < |c.axes| ==> c.axes[i].File? || c.axes[i].Expression?
    ensures Validate(c).Ok?
  {
  }

  // ---------------------------------------------------------------------
  // Axis values
  // ---------------------------------------------------------------------

  /** 2^64: `step as usize` turns a negative step into this plus the step. */
  const WordModulus: int := 0x1_0000_0000_0000_0000

  /** The stride `step_by` receives for a non-zero i64 step. */
  function Stride(step: int): (s: nat)
    requires step != 0
    ensures step > 0 ==> s == step
    ensures -0x8000_0000_0000_0000 <= step < 0 ==> s >= 0x8000_0000_0000_0000
  {
    if step > 0 then step else if step + WordModulus > 0 then step + WordModulus else 1
  }

  /** `(start..=end).step_by(stride)` rendered with `to_string`. */
  function RangeValues(start: int, end: int, stride: nat): (r: seq<string>)
    requires stride > 0
    ensures start > end <==> r == []
    ensures start <= end ==> r[0] == IntToString(start)
    decreases end - start + 1
  {
    if start > end then [] else [IntToString(start)] + RangeValues(start + stride, end, stride)
  }

  /** Steps of one, from 1 through 3, give "1", "2", "3". */
  lemma RangeOneToThree()
    ensures RangeValues(1, 3, 1) == ["1", "2", "3"]
  {
    assert RangeValues(4, 3, 1) == [];
  }

  /** The values of a range are as many as the strides that fit between start and end, plus one. */
  lemma {:induction false} RangeCount(start: int, end: int, stride: nat)
    requires stride > 0 && start <= end
    ensures var n := |RangeValues(start, end, stride)|;
            n >= 1 && (n - 1) * stride <= end - start < n * stride
    decreases end - start + 1
  {
    var r := RangeValues(start, end, stride);
    assert r == [IntToString(start)] + RangeValues(start + stride, end, stride);
    if start + stride <= end {
      RangeCount(start + stride, end, stride);
      var m := |RangeValues(start + stride, end, stride)|;
      MulSucc(m, stride);
      MulSucc(m - 1, stride);
    } else {
      assert |r| == 1;
    }
  }

  lemma MulSucc(m: int, s: int)
    ensures (m + 1) * s == m * s + s
  {
  }

  /**
   * A negative i64 step, cast to a stride of at least 2^63, yields the
   * start alone when end is less than 2^63 above it, where validation
   * would have rejected the axis.
   */
  lemma NegativeStepGivesStart(start: int, end: int, step: int)
    requires start <= end < start + 0x8000_0000_0000_0000
    requires -0x8000_0000_0000_0000 <= step < 0
    ensures RangeValues(start, end, Stride(step)) == [IntToString(start)]
    ensures ValidateAxis(Range("n", start, end, step)).Err?
  {
    assert RangeValues(start + Stride(step), end, Stride(step)) == [];
  }

  /** `step_by(0)` panics, so generation panics whenever a range has step 0. */
  predicate HasZeroStep(axes: seq<MatrixAxis>) {
    exists i :: 0 <= i < |axes| && axes[i].Range? && axes[i].step == 0
  }

  /**
   * The `filter_map` over the axes: the values of each Values and Range
   * axis, in axis order; File and Expression axes are dropped.
   */
  function AxisValues(axes: seq<MatrixAxis>): (r: seq<(string, seq<string>)>)
    requires !HasZeroStep(axes)
    ensures |r| <= |axes|
    ensures (forall i :: 0 <= i < |axes| ==> axes[i].File? || axes[i].Expression?) <==> r == []
  {
    if |axes| == 0 then []
    else
      assert !HasZeroStep(axes[1..]) by {
        forall i | 0 <= i < |axes[1..]| ensures !(axes[1..][i].Range? && axes[1..][i].step == 0) {
          assert axes[1..][i] == axes[i + 1];
        }
      }
      var rest := AxisValues(axes[1..]);
      assert forall i :: 0 < i < |axes| ==> axes[i] == axes[1..][i - 1];
      match axes[0]
      case Values(name, values) => [(name, values)] + rest
      case Range(name, start, end, step) =>
        assert !(axes[0].Range? && axes[0].step == 0);
        [(name, RangeValues(start, end, Stride(step)))] + rest
      case _ => rest
  }

  // ---------------------------------------------------------------------
  // Exclusions
  // ---------------------------------------------------------------------

  /** Every key/value pair of the exclusion is in the combination. */
  predicate Matches(e: MatrixExclude, combo: Combo) {
    forall i :: 0 <= i < |e.axes| ==> Get(combo, e.axes[i].0) == Some(e.axes[i].1)
  }

  /** Some exclusion matches the combination. */
  predicate Excluded(excludes: seq<MatrixExclude>, combo: Combo) {
    exists j :: 0 <= j < |excludes| && Matches(excludes[j], combo)
  }

  /**
   * `find_exclusion`: the exclusions in order; in each, the pairs until one
   * is missing from the combination; `Some(true)` at the first exclusion
   * whose pairs all match, `None` otherwise.
   */
  method FindExclusion(excludes: seq<MatrixExclude>, combo: Combo) returns (r: Option<bool>)
    ensures r == Some(true) <==> Excluded(excludes, combo)
    ensures r != Some(false)
  {
    var j := 0;
    while j < |excludes|
      invariant 0 <= j <= |excludes|
      invariant forall k :: 0 <= k < j ==> !Matches(excludes[k], combo)
    {
      var matches := true;
      var pairs := excludes[j].axes;
      var i := 0;
      while i < |pairs|
        invariant 0 <= i <= |pairs|
        invariant matches <==> forall k :: 0 <= k < i ==> Get(combo, pairs[k].0) == Some(pairs[k].1)
        invariant !matches ==> !Matches(excludes[j], combo)
      {
        if Get(combo, pairs[i].0) != Some(pairs[i].1) {
          matches := false;
          break;
        }
        i := i + 1;
      }
      if matches {
        return Some(true);
      }
      j := j + 1;
    }
    return None;
  }

  /** An exclusion with no pairs matches everything. */
  lemma EmptyExclusionMatchesAll(excludes: seq<MatrixExclude>, combo: Combo)
    requires exists j :: 0 <= j < |excludes| && excludes[j].axes == []
    ensures Excluded(excludes, combo)
  {
    var j :| 0 <= j < |excludes| && excludes[j].axes == [];
    assert Matches(excludes[j], combo);
  }

  // ---------------------------------------------------------------------
  // The cartesian product
  // ---------------------------------------------------------------------

  /**
   * What `cartesian_product(axes, index, current, results)` appends to
   * `results`, and the `current` map it leaves behind. At the last axis the
   * current map is kept unless excluded; otherwise each value of the axis
   * is inserted under the axis name, the next axis is expanded, and the
   * name is removed again.
   */
  function Product(axes: seq<(string, seq<string>)>, index: nat, current: Combo,
                   excludes: seq<MatrixExclude>): (r: (seq<Combo>, Combo))
    requires index <= |axes|
    decreases |axes| - index, 1, 0
  {
    if index == |axes| then
      (if Excluded(excludes, current) then [] else [current], current)
    else
      ProductLoop(axes, index, axes[index].1, current, excludes)
  }

  /** The loop over the remaining `values` of axis `index`. */
  function ProductLoop(axes: seq<(string, seq<string>)>, index: nat, values: seq<string>,
                       current: Combo, excludes: seq<MatrixExclude>): (r: (seq<Combo>, Combo))
    requires index < |axes|
    decreases |axes| - index, 0, |values|
  {
    if |values| == 0 then ([], current)
    else
      var name := axes[index].0;
      var inner := Product(axes, index + 1, Insert(current, name, values[0]), excludes);
      var rest := ProductLoop(axes, index, values[1..], Remove(inner.1, name), excludes);
      (inner.0 + rest.0, rest.1)
  }

  /** `cartesian_product`, with the mutable map and vector passed in and handed back. */
  method CartesianProduct(axes: seq<(string, seq<string>)>, index: nat, current: Combo,
                          results: seq<Combo>, excludes: seq<MatrixExclude>)
    returns (current': Combo, results': seq<Combo>)
    requires index <= |axes|
    ensures results' == results + Product(axes, index, current, excludes).0
    ensures current' == Product(axes, index, current, excludes).1
    decreases |axes| - index
  {
    if index == |axes| {
      assert Product(axes, index, current, excludes)
             == (if Excluded(excludes, current) then [] else [current], current);
      var excluded := FindExclusion(excludes, current);
      if excluded == Some(true) {
        return current, results;
      }
      return current, results + [current];
    }
    var name := axes[index].0;
    var values := axes[index].1;
    ghost var full := ProductLoop(axes, index, values, current, excludes);
    current', results' := current, results;
    var k := 0;
    while k < |values|
      invariant 0 <= k <= |values|
      invariant results' + ProductLoop(axes, index, values[k..], current', excludes).0 == results + full.0
      invariant ProductLoop(axes, index, values[k..], current', excludes).1 == full.1
    {
      assert values[k..][0] == values[k] && values[k..][1..] == values[k + 1..];
      current' := Insert(current', name, values[k]);
      current', results' := CartesianProduct(axes, index + 1, current', results', excludes);
      current' := Remove(current', name);
      k := k + 1;
    }
    assert values[k..] == [];
  }

  /** The product of the numbers of values of axes `index` onwards. */
  function Size(axes: seq<(string, seq<string>)>, index: nat): nat
    requires index <= |axes|
    decreases |axes| - index
  {
    if index == |axes| then 1 else |axes[index].1| * Size(axes, index + 1)
  }

  /** With no exclusions, the product has one combination per choice of a value on each axis. */
  lemma {:induction false} ProductCount(axes: seq<(string, seq<string>)>, index: nat, current: Combo)
    requires index <= |axes|
    ensures |Product(axes, index, current, []).0| == Size(axes, index)
    decreases |axes| - index, 1, 0
  {
    if index < |axes| {
      ProductLoopCount(axes, index, axes[index].1, current);
    } else {
      assert !Excluded([], current);
    }
  }

  lemma {:induction false} ProductLoopCount(axes: seq<(string, seq<string>)>, index: nat, values: seq<string>, current: Combo)
    requires index < |axes|
    ensures |ProductLoop(axes, index, values, current, []).0| == |values| * Size(axes, index + 1)
    decreases |axes| - index, 0, |values|
  {
    if |values| > 0 {
      var name := axes[index].0;
      var inner := Product(axes, index + 1, Insert(current, name, values[0]), []);
      ProductCount(axes, index + 1, Insert(current, name, values[0]));
      ProductLoopCount(axes, index, values[1..], Remove(inner.1, name));
    }
  }

  /** An exclusion with no pairs removes every combination. */
  lemma {:induction false} ProductAllExcluded(axes: seq<(string, seq<string>)>, index: nat, current: Combo,
                                              excludes: seq<MatrixExclude>)
    requires index <= |axes|
    requires exists j :: 0 <= j < |excludes| && excludes[j].axes == []
    ensures Product(axes, index, current, excludes).0 == []
    decreases |axes| - index, 1, 0
  {
    if index < |axes| {
      ProductLoopAllExcluded(axes, index, axes[index].1, current, excludes);
    } else {
      EmptyExclusionMatchesAll(excludes, current);
    }
  }

  lemma {:induction false} ProductLoopAllExcluded(axes: seq<(string, seq<string>)>, index: nat, values: seq<string>,
                                                  current: Combo, excludes: seq<MatrixExclude>)
    requires index < |axes|
    requires exists j :: 0 <= j < |excludes| && excludes[j].axes == []
    ensures ProductLoop(axes, index, values, current, excludes).0 == []
    decreases |axes| - index, 0, |values|
  {
    if |values| > 0 {
      var name := axes[index].0;
      var inner := Product(axes, index + 1, Insert(current, name, values[0]), excludes);
      ProductAllExcluded(axes, index + 1, Insert(current, name, values[0]), excludes);
      ProductLoopAllExcluded(axes, index, values[1..], Remove(inner.1, name), excludes);
    }
  }

  // ---------------------------------------------------------------------
  // The product as a reference definition
  // ---------------------------------------------------------------------

  /**
   * The textbook cartesian product: `prefix` followed by one (name, value)
   * pair per axis from `index` on, the first of those axes varying slowest.
   */
  function Expand(prefix: Combo, axes: seq<(string, seq<string>)>, index: nat): seq<Combo>
    requires index <= |axes|
    decreases |axes| - index, 1, 0
  {
    if index == |axes| then [prefix] else ExpandEach(prefix, axes, index, axes[index].1)
  }

  function ExpandEach(prefix: Combo, axes: seq<(string, seq<string>)>, index: nat, values: seq<string>): seq<Combo>
    requires index < |axes|
    decreases |axes| - index, 0, |values|
  {
    if |values| == 0 then []
    else Expand(prefix + [(axes[index].0, values[0])], axes, index + 1) + ExpandEach(prefix, axes, index, values[1..])
  }

  /** The combinations no exclusion matches, in order. */
  function Kept(excludes: seq<MatrixExclude>, combos: seq<Combo>): (r: seq<Combo>)
    ensures forall c :: c in r <==> c in combos && !Excluded(excludes, c)
  {
    if |combos| == 0 then []
    else (if Excluded(excludes, combos[0]) then [] else [combos[0]]) + Kept(excludes, combos[1..])
  }

  lemma {:induction false} KeptAppend(excludes: seq<MatrixExclude>, a: seq<Combo>, b: seq<Combo>)
    ensures Kept(excludes, a + b) == Kept(excludes, a) + Kept(excludes, b)
    decreases |a|
  {
    if |a| == 0 {
      assert a + b == b;
    } else {
      assert (a + b)[0] == a[0] && (a + b)[1..] == a[1..] + b;
      KeptAppend(excludes, a[1..], b);
    }
  }

  /** The axis names from `index` on are pairwise different and none is a key of `current`. */
  predicate FreshNames(axes: seq<(string, seq<string>)>, index: nat, current: Combo)
    requires index <= |axes|
  {
    (forall i, j :: index <= i < j < |axes| ==> axes[i].0 != axes[j].0)
    && (forall i :: index <= i < |axes| ==> !HasKey(current, axes[i].0))
  }

  /** Inserting a key that is absent appends it, and removing it again gives the map back. */
  lemma {:induction false} InsertRemoveFresh(m: Combo, k: string, v: string)
    requires !HasKey(m, k)
    ensures Insert(m, k, v) == m + [(k, v)]
    ensures Remove(m + [(k, v)], k) == m
    decreases |m|
  {
    if |m| > 0 {
      HasKeyCons(m, k);
      assert (m + [(k, v)])[1..] == m[1..] + [(k, v)];
      InsertRemoveFresh(m[1..], k, v);
      assert [m[0]] + m[1..] == m;
    } else {
      assert ([] + [(k, v)])[1..] == [];
    }
  }

  /**
   * With pairwise different axis names, not yet in the map, the product is
   * the textbook one minus the excluded combinations, later axes varying
   * fastest, and the map is handed back unchanged.
   */
  lemma {:induction false} ProductIsExpand(axes: seq<(string, seq<string>)>, index: nat, current: Combo,
                                           excludes: seq<MatrixExclude>)
    requires index <= |axes| && FreshNames(axes, index, current)
    ensures Product(axes, index, current, excludes) == (Kept(excludes, Expand(current, axes, index)), current)
    decreases |axes| - index, 1, 0
  {
    if index == |axes| {
      assert [current][1..] == [];
      assert Expand(current, axes, index) == [current];
      assert Kept(excludes, []) == [];
      assert Product(axes, index, current, excludes)
             == (if Excluded(excludes, current) then [] else [current], current);
      assert Kept(excludes, [current]) == (if Excluded(excludes, current) then [] else [current]) + Kept(excludes, []);
      assert Kept(excludes, [current]) == (if Excluded(excludes, current) then [] else [current]);
    } else {
      ProductLoopIsExpandEach(axes, index, axes[index].1, current, excludes);
    }
  }

  lemma {:induction false} ProductLoopIsExpandEach(axes: seq<(string, seq<string>)>, index: nat, values: seq<string>,
                                                   current: Combo, excludes: seq<MatrixExclude>)
    requires index < |axes| && FreshNames(axes, index, current)
    ensures ProductLoop(axes, index, values, current, excludes)
            == (Kept(excludes, ExpandEach(current, axes, index, values)), current)
    decreases |axes| - index, 0, |values|
  {
    if |values| > 0 {
      var name := axes[index].0;
      InsertRemoveFresh(current, name, values[0]);
      var next := current + [(name, values[0])];
      assert FreshNames(axes, index + 1, next) by {
        forall i | index + 1 <= i < |axes| ensures !HasKey(next, axes[i].0) {
          assert forall k :: 0 <= k < |current| ==> next[k].0 == current[k].0 != axes[i].0;
          assert next[|current|].0 == name != axes[i].0;
        }
      }
      ProductIsExpand(axes, index + 1, next, excludes);
      ProductLoopIsExpandEach(axes, index, values[1..], current, excludes);
      KeptAppend(excludes, Expand(next, axes, index + 1), ExpandEach(current, axes, index, values[1..]));
    }
  }

  // ---------------------------------------------------------------------
  // Combinations and cells
  // ---------------------------------------------------------------------

  /**
   * `generate_combinations`: nothing without axes or without Values and
   * Range axes; otherwise the product of their values from an empty map.
   * None stands for the panic of a zero step.
   */
  function Combinations(c: MatrixConfig): (r: Option<seq<Combo>>)
    ensures r.None? <==> HasZeroStep(c.axes)
  {
    if |c.axes| == 0 then Some([])
    else if HasZeroStep(c.axes) then None
    else
      var av := AxisValues(c.axes);
      if |av| == 0 then Some([]) else Some(Product(av, 0, [], c.exclude).0)
  }

  /** `generate_combinations`, running the product. */
  method GenerateCombinations(c: MatrixConfig) returns (r: Option<seq<Combo>>)
    ensures r == Combinations(c)
  {
    if |c.axes| == 0 {
      return Some([]);
    }
    if HasZeroStep(c.axes) {
      return None;
    }
    var av := AxisValues(c.axes);
    if |av| == 0 {
      return Some([]);
    }
    var current, results := CartesianProduct(av, 0, [], [], c.exclude);
    assert results == Product(av, 0, [], c.exclude).0;
    return Some(results);
  }

  /** With only File and Expression axes there are no combinations. */
  lemma OnlyFileOrExpressionIsEmpty(c: MatrixConfig)
    requires forall i :: 0 <= i < |c.axes| ==> c.axes[i].File? || c.axes[i].Expression?
    ensures Combinations(c) == Some([])
  {
  }

  /** Without exclusions, the number of combinations is the product of the axis sizes. */
  lemma CombinationCount(c: MatrixConfig)
    requires c.exclude == [] && !HasZeroStep(c.axes)
    requires AxisValues(c.axes) != []
    ensures Combinations(c) == Some(Product(AxisValues(c.axes), 0, [], []).0)
    ensures |Combinations(c).value| == Size(AxisValues(c.axes), 0)
  {
    ProductCount(AxisValues(c.axes), 0, []);
  }

  /** An exclusion with no pairs leaves no combination at all. */
  lemma EmptyExclusionNoCombinations(c: MatrixConfig)
    requires !HasZeroStep(c.axes)
    requires exists j :: 0 <= j < |c.exclude| && c.exclude[j].axes == []
    ensures Combinations(c) == Some([])
  {
    var av := AxisValues(c.axes);
    if |c.axes| > 0 && |av| > 0 {
      ProductAllExcluded(av, 0, [], c.exclude);
    }
  }

  /** The "k=v" parts of a combination, in its iteration order. */
  function Parts(combo: Combo): (r: seq<string>)
    ensures |r| == |combo|
    ensures forall i :: 0 <= i < |combo| ==> r[i] == combo[i].0 + "=" + combo[i].1
  {
    if |combo| == 0 then [] else [combo[0].0 + "=" + combo[0].1] + Parts(combo[1..])
  }

  /**
   * `generate_cell_name`: with a template, "{idx}" replaced by the index
   * and then every brace deleted; otherwise the "k=v" parts joined by '-',
   * or "cell-<index>" for an empty combination.
   */
  function CellName(c: MatrixConfig, combo: Combo, index: nat): (name: string)
  {
    match c.nameTemplate
    case Some(t) => ReplaceAll(ReplaceAll(ReplaceAll(t, "{idx}", NatToString(index)), "{", ""), "}", "")
    case None =>
      var parts := Parts(combo);
      if |parts| == 0 then "cell-" + NatToString(index) else Join(parts, "-")
  }

  /** A templated name never contains a brace, and every character of it comes from the template or the index. */
  lemma TemplatedNameHasNoBraces(c: MatrixConfig, combo: Combo, index: nat)
    requires c.nameTemplate.Some?
    ensures '{' !in CellName(c, combo, index) && '}' !in CellName(c, combo, index)
  {
    var t := ReplaceAll(c.nameTemplate.value, "{idx}", NatToString(index));
    DeleteChar(t, '{');
    DeleteChar(ReplaceAll(t, "{", ""), '}');
  }

  /** A template without braces is the name of every cell. */
  lemma BracelessTemplateIsName(c: MatrixConfig, combo: Combo, index: nat)
    requires c.nameTemplate.Some? && '{' !in c.nameTemplate.value && '}' !in c.nameTemplate.value
    ensures CellName(c, combo, index) == c.nameTemplate.value
  {
    var t := c.nameTemplate.value;
    assert !Contains(t, "{idx}") by {
      forall i | 0 <= i <= |t| - 5 ensures !OccursAt(t, "{idx}", i) {
        assert t[i..i + 5][0] == t[i];
      }
    }
    ReplaceAbsent(t, "{idx}", NatToString(index));
    assert !Contains(t, "{") by {
      forall i | 0 <= i <= |t| - 1 ensures !OccursAt(t, "{", i) {
        assert t[i..i + 1][0] == t[i];
      }
    }
    ReplaceAbsent(t, "{", "");
    assert !Contains(t, "}") by {
      forall i | 0 <= i <= |t| - 1 ensures !OccursAt(t, "}", i) {
        assert t[i..i + 1][0] == t[i];
      }
    }
    ReplaceAbsent(t, "}", "");
  }

  /** Without a template, an empty combination is named after its index. */
  lemma UntemplatedEmptyName(c: MatrixConfig, index: nat)
    requires c.nameTemplate.None?
    ensures CellName(c, [], index) == "cell-" + NatToString(index)
  {
  }

  /** The cell of the combination at `index`. */
  function Cell(c: MatrixConfig, combo: Combo, index: nat): (cell: MatrixCell)
    ensures cell.index == index && cell.values == combo
  {
    MatrixCell(index, combo, CellName(c, combo, index))
  }

  /** The cells of the given combinations, numbered from 0. */
  function CellsOf(c: MatrixConfig, combos: seq<Combo>): (cells: seq<MatrixCell>)
    ensures |cells| == |combos|
    ensures forall i :: 0 <= i < |combos| ==> cells[i] == Cell(c, combos[i], i)
  {
    seq(|combos|, i requires 0 <= i < |combos| => Cell(c, combos[i], i))
  }

  /** `generate_cells`: one cell per combination, the i-th with index i. */
  method GenerateCells(c: MatrixConfig) returns (cells: Option<seq<MatrixCell>>)
    ensures Combinations(c).None? ==> cells.None?
    ensures Combinations(c).Some? ==> cells == Some(CellsOf(c, Combinations(c).value))
  {
    var combos := GenerateCombinations(c);
    if combos.None? {
      return None;
    }
    var cs := combos.value;
    var out: seq<MatrixCell> := [];
    var index := 0;
    while index < |cs|
      invariant 0 <= index <= |cs|
      invariant out == CellsOf(c, cs[..index])
    {
      out := out + [MatrixCell(index, cs[index], CellName(c, cs[index], index))];
      index := index + 1;
    }
    assert cs[..index] == cs;
    return Some(out);
  }

  /** `cell_count`: the number of combinations. */
  function CellCount(c: MatrixConfig): (n: Option<nat>)
    ensures n.None? <==> HasZeroStep(c.axes)
    ensures n.Some? ==> n.value == |CellsOf(c, Combinations(c).value)|
  {
    match Combinations(c)
    case None => None
    case Some(cs) => Some(|cs|)
  }

  /** The iterator over the cells of a matrix. */
  class MatrixIterator {
    var config: MatrixConfig
    var combinations: seq<Combo>
    var index: nat

    /** `into_iter`: the combinations are generated up front (the generation panics on a zero step). */
    constructor (c: MatrixConfig)
      requires !HasZeroStep(c.axes)
      ensures config == c && combinations == Combinations(c).value && index == 0
    {
      var combos := GenerateCombinations(c);
      config, combinations, index := c, combos.value, 0;
    }

    /** `next`: the cell at the position, which then advances; None at the end. */
    method Next() returns (cell: Option<MatrixCell>)
      modifies this
      ensures config == old(config) && combinations == old(combinations)
      ensures old(index) >= |combinations| ==> cell.None? && index == old(index)
      ensures old(index) < |combinations| ==>
                cell == Some(Cell(config, combinations[old(index)], old(index))) && index == old(index) + 1
    {
      if index >= |combinations| {
        return None;
      }
      var current := index;
      var combo := combinations[current];
      cell := Some(MatrixCell(current, combo, CellName(config, combo, current)));
      index := index + 1;
    }

    /** `size_hint`: the cells still to come, as both bounds; zero once past the end. */
    function SizeHint(): (r: (nat, Option<nat>))
      reads this
      ensures r.1 == Some(r.0)
      ensures index <= |combinations| ==> r.0 + index == |combinations|
      ensures index > |combinations| ==> r.0 == 0
    {
      var remaining := if |combinations| >= index then |combinations| - index else 0;
      (remaining, Some(remaining))
    }
  }

  /**
   * Running a fresh iterator to the end yields exactly the cells that
   * `generate_cells` builds, as many as its first size hint announced.
   */
  method Drain(it: MatrixIterator) returns (cells: seq<MatrixCell>)
    requires it.index == 0
    modifies it
    ensures cells == CellsOf(it.config, it.combinations)
    ensures |cells| == old(it.SizeHint()).0
  {
    cells := [];
    var next := it.Next();
    while next.Some?
      invariant it.config == old(it.config) && it.combinations == old(it.combinations)
      invariant next.None? ==> it.index == |it.combinations| && cells == CellsOf(it.config, it.combinations)
      invariant next.Some? ==>
                  1 <= it.index <= |it.combinations|
                  && next.value == Cell(it.config, it.combinations[it.index - 1], it.index - 1)
                  && cells == CellsOf(it.config, it.combinations[..it.index - 1])
      decreases |it.combinations| - it.index, next.Some?
    {
      cells := cells + [next.value];
      assert it.combinations[..it.index] == it.combinations[..it.index - 1] + [it.combinations[it.index - 1]];
      next := it.Next();
      if next.None? {
        assert it.combinations[..it.index] == it.combinations;
      }
    }
  }
}
