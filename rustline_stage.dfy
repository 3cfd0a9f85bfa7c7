/**
 * Stages of the `src/` pipeline model: `when` conditions, stages with their
 * parallel branches (`ParallelBranch`, declared beside the matrix in the
 * module root) and the stage builders, with their validation.
 */
module RustlineStage {
  import opened Wrappers
  import opened Strings
  import opened RustlineErrors
  import opened RustlineSteps
  import RustlinePost
  import RustlineAgent
  import RustlineCore

  datatype WhenCondition =
    | Branch(branch: string)
    | Tag(tag: string)
    | Environment(name: string, value: string)
    | Expression(expression: string)
    | AllOf(conditions: seq<WhenCondition>)
    | AnyOf(conditions: seq<WhenCondition>)

  datatype Stage = Stage(
    name: string,
    agent: Option<RustlineAgent.AgentType>,
    steps: seq<Step>,
    parallel: seq<ParallelBranch>,
    matrix: Option<RustlineCore.MatrixConfig>,
    when: Option<WhenCondition>,
    post: seq<RustlinePost.PostCondition>)

  datatype ParallelBranch = ParallelBranch(name: string, stage: Stage)

  /** The longest stage name accepted, in UTF-8 bytes. */
  const MaxNameLength: nat := 100

  // ---------------------------------------------------------------------
  // When conditions
  // ---------------------------------------------------------------------

  /** A condition is well formed: no leaf has an empty branch, tag, variable name or expression. */
  predicate WhenValid(c: WhenCondition)
    decreases c
  {
    match c
    case Branch(b) => b != ""
    case Tag(t) => t != ""
    case Environment(n, _) => n != ""
    case Expression(x) => x != ""
    case AllOf(cs) => forall i :: 0 <= i < |cs| ==> WhenValid(cs[i])
    case AnyOf(cs) => forall i :: 0 <= i < |cs| ==> WhenValid(cs[i])
  }

  /** `WhenCondition::validate`: the leaf checks, and the children of AllOf/AnyOf in order. */
  function ValidateWhen(c: WhenCondition): (r: Result<Unit, ValidationError>)
    ensures r.Ok? <==> WhenValid(c)
    ensures r.Err? ==> r.error.InvalidNameChars?
    ensures c.Environment? ==> (r.Ok? <==> c.name != "")
    decreases c, 1
  {
    match c
    case Branch(b) => if b == "" then Err(InvalidNameChars("Branch cannot be empty")) else Ok(Unit)
    case Tag(t) => if t == "" then Err(InvalidNameChars("Tag cannot be empty")) else Ok(Unit)
    case Environment(n, _) =>
      if n == "" then Err(InvalidNameChars("Environment variable name cannot be empty")) else Ok(Unit)
    case Expression(x) => if x == "" then Err(InvalidNameChars("Expression cannot be empty")) else Ok(Unit)
    case AllOf(cs) => ValidateWhenList(cs)
    case AnyOf(cs) => ValidateWhenList(cs)
  }

  /** The `for cond in conditions { cond.validate()?; }` loop: the first child's error, if any. */
  function ValidateWhenList(cs: seq<WhenCondition>): (r: Result<Unit, ValidationError>)
    ensures r.Ok? <==> forall i :: 0 <= i < |cs| ==> WhenValid(cs[i])
    ensures r.Err? ==> r.error.InvalidNameChars?
    ensures r.Err? ==> (exists i :: 0 <= i < |cs| && ValidateWhen(cs[i]) == r
                         && (forall j :: 0 <= j < i ==> WhenValid(cs[j])))
    decreases cs, 0
  {
    if |cs| == 0 then Ok(Unit)
    else
      match ValidateWhen(cs[0])
      case Err(e) => Err(e)
      case Ok(_) =>
        var r := ValidateWhenList(cs[1..]);
        assert forall i :: 1 <= i < |cs| ==> cs[i] == cs[1..][i - 1];
        if r.Err? then
          var i :| 0 <= i < |cs[1..]| && ValidateWhen(cs[1..][i]) == r
            && forall j :: 0 <= j < i ==> WhenValid(cs[1..][j]);
          assert ValidateWhen(cs[i + 1]) == r;
          r
        else r
  }

  // ---------------------------------------------------------------------
  // Stages and parallel branches
  // ---------------------------------------------------------------------

  /**
   * A stage is well formed: a non-empty name of at most 100 bytes, some
   * work to do (steps, branches or a matrix), and a valid agent, when
   * condition, matrix and branch stages (branch names are not checked).
   */
  predicate StageValid(s: Stage)
    decreases s
  {
    && s.name != ""
    && Utf8Len(s.name) <= MaxNameLength
    && (|s.steps| > 0 || |s.parallel| > 0 || s.matrix.Some?)
    && (s.agent.Some? ==> RustlineAgent.Validate(s.agent.value).Ok?)
    && (s.when.Some? ==> WhenValid(s.when.value))
    && (forall i :: 0 <= i < |s.parallel| ==> StageValid(s.parallel[i].stage))
    && (s.matrix.Some? ==> RustlineCore.ValidateMatrix(s.matrix.value).Ok?)
  }

  /** The first three checks of `Stage::validate` pass: name, its length, and some work to do. */
  predicate HeaderValid(s: Stage) {
    s.name != "" && Utf8Len(s.name) <= MaxNameLength && (|s.steps| > 0 || |s.parallel| > 0 || s.matrix.Some?)
  }

  /**
   * `Stage::validate`: the checks in source order, returning the first
   * error; nested branch stages are checked with their own names.
   */
  function ValidateStage(s: Stage): (r: Result<Unit, ValidationError>)
    ensures r.Ok? <==> StageValid(s)
    ensures s.name == "" ==> r == Err(EmptyName)
    ensures s.name != "" && Utf8Len(s.name) > MaxNameLength
      ==> r == Err(NameTooLong(MaxNameLength, Utf8Len(s.name)))
    ensures s.name != "" && Utf8Len(s.name) <= MaxNameLength
      && |s.steps| == 0 && |s.parallel| == 0 && s.matrix.None?
      ==> r == Err(EmptyStage(s.name))
    ensures HeaderValid(s) && s.agent.Some? && RustlineAgent.Validate(s.agent.value).Err?
      ==> r == RustlineAgent.Validate(s.agent.value)
    ensures HeaderValid(s) && (s.agent.Some? ==> RustlineAgent.Validate(s.agent.value).Ok?)
      && s.when.Some? && !WhenValid(s.when.value)
      ==> r == ValidateWhen(s.when.value)
    decreases s, 2
  {
    if s.name == "" then Err(EmptyName)
    else if Utf8Len(s.name) > MaxNameLength then Err(NameTooLong(MaxNameLength, Utf8Len(s.name)))
    else if |s.steps| == 0 && |s.parallel| == 0 && s.matrix.None? then Err(EmptyStage(s.name))
    else if s.agent.Some? && RustlineAgent.Validate(s.agent.value).Err? then
      RustlineAgent.Validate(s.agent.value)
    else if s.when.Some? && ValidateWhen(s.when.value).Err? then ValidateWhen(s.when.value)
    else
      match ValidateBranchStages(s.parallel)
      case Err(e) => Err(e)
      case Ok(_) =>
        if s.matrix.Some? then RustlineCore.ValidateMatrix(s.matrix.value) else Ok(Unit)
  }

  /**
   * The loop `for branch in &self.parallel { branch.stage.validate()?; }`:
   * a stage checks only its branches' stages, not their names.
   */
  function ValidateBranchStages(bs: seq<ParallelBranch>): (r: Result<Unit, ValidationError>)
    ensures r.Ok? <==> forall i :: 0 <= i < |bs| ==> StageValid(bs[i].stage)
    decreases bs, 1
  {
    if |bs| == 0 then Ok(Unit)
    else
      match ValidateStage(bs[0].stage)
      case Err(e) => Err(e)
      case Ok(_) =>
        var r := ValidateBranchStages(bs[1..]);
        assert forall i :: 1 <= i < |bs| ==> bs[i] == bs[1..][i - 1];
        r
  }

  /** `ParallelBranch::validate`: EmptyName for an unnamed branch, otherwise its stage's validation. */
  function ValidateBranch(b: ParallelBranch): (r: Result<Unit, ValidationError>)
    ensures b.name == "" ==> r == Err(EmptyName)
    ensures b.name != "" ==> r == ValidateStage(b.stage)
    ensures r.Ok? <==> b.name != "" && StageValid(b.stage)
  {
    if b.name == "" then Err(EmptyName) else ValidateStage(b.stage)
  }

  /**
   * `Stage::validate` checks each branch's stage but never calls
   * `ParallelBranch::validate`: a stage with an unnamed branch validates,
   * although that branch on its own does not.
   */
  lemma UnnamedBranchAccepted(inner: Stage)
    requires StageValid(inner)
    ensures var s := NewStage("outer", []).(parallel := [ParallelBranch("", inner)]);
      ValidateStage(s).Ok? && ValidateBranch(s.parallel[0]) == Err(EmptyName)
  {
    Utf8LenAscii("outer");
  }

  // ---------------------------------------------------------------------
  // Construction
  // ---------------------------------------------------------------------

  /** `Stage::new`: the given name and steps, everything else empty. */
  function NewStage(name: string, steps: seq<Step>): (s: Stage)
    ensures s.name == name && s.steps == steps
    ensures s.agent.None? && s.parallel == [] && s.matrix.None? && s.when.None? && s.post == []
  {
    Stage(name, None, steps, [], None, None, [])
  }

  /** `Stage::with_agent`: only the agent changes. */
  function WithAgent(s: Stage, a: RustlineAgent.AgentType): (r: Stage)
    ensures r.agent == Some(a)
    ensures r.(agent := s.agent) == s
  {
    s.(agent := Some(a))
  }

  /** `Stage::with_parallel`: the branch list is replaced. */
  function WithParallel(s: Stage, bs: seq<ParallelBranch>): (r: Stage)
    ensures r.parallel == bs
    ensures r.(parallel := s.parallel) == s
  {
    s.(parallel := bs)
  }

  /** `Stage::with_matrix`: only the matrix changes. */
  function WithMatrix(s: Stage, m: RustlineCore.MatrixConfig): (r: Stage)
    ensures r.matrix == Some(m)
    ensures r.(matrix := s.matrix) == s
  {
    s.(matrix := Some(m))
  }

  /** `Stage::with_when`: only the condition changes. */
  function WithWhen(s: Stage, w: WhenCondition): (r: Stage)
    ensures r.when == Some(w)
    ensures r.(when := s.when) == s
  {
    s.(when := Some(w))
  }

  /** `Stage::with_post`: one post-condition appended at the end. */
  function WithPost(s: Stage, p: RustlinePost.PostCondition): (r: Stage)
    ensures |r.post| == |s.post| + 1 && r.post[..|s.post|] == s.post && r.post[|s.post|] == p
    ensures r.(post := s.post) == s
  {
    s.(post := s.post + [p])
  }

  /** `Display`: "Stage(<name>): <n> steps". */
  function Display(s: Stage): string {
    "Stage(" + s.name + "): " + NatToString(|s.steps|) + " steps"
  }

  /** The rendering names the stage and its step count. */
  lemma DisplayShape(s: Stage)
    ensures StartsWith(Display(s), "Stage(" + s.name + "): ")
    ensures |Display(s)| == |s.name| + |NatToString(|s.steps|)| + 15
  {
    var p := "Stage(" + s.name + "): ";
    assert Display(s) == p + NatToString(|s.steps|) + " steps";
    assert Display(s)[..|p|] == p;
  }

  // ---------------------------------------------------------------------
  // StageBuilder
  // ---------------------------------------------------------------------

  datatype StageBuilder = StageBuilder(stage: Stage)

  /** `StageBuilder::new`. */
  function BuilderNew(name: string, steps: seq<Step>): (b: StageBuilder)
    ensures b.stage == NewStage(name, steps)
  {
    StageBuilder(NewStage(name, steps))
  }

  /** `StageBuilder::agent`: only the agent changes. */
  function BuilderAgent(b: StageBuilder, a: RustlineAgent.AgentType): (r: StageBuilder)
    ensures r.stage.agent == Some(a) && r.stage.(agent := b.stage.agent) == b.stage
  {
    StageBuilder(b.stage.(agent := Some(a)))
  }

  /** `StageBuilder::when`: only the condition changes. */
  function BuilderWhen(b: StageBuilder, w: WhenCondition): (r: StageBuilder)
    ensures r.stage.when == Some(w) && r.stage.(when := b.stage.when) == b.stage
  {
    StageBuilder(b.stage.(when := Some(w)))
  }

  /** `StageBuilder::step`: one step appended at the end. */
  function BuilderStep(b: StageBuilder, step: Step): (r: StageBuilder)
    ensures |r.stage.steps| == |b.stage.steps| + 1
    ensures r.stage.steps[..|b.stage.steps|] == b.stage.steps && r.stage.steps[|b.stage.steps|] == step
    ensures r.stage.(steps := b.stage.steps) == b.stage
  {
    StageBuilder(b.stage.(steps := b.stage.steps + [step]))
  }

  /** `StageBuilder::steps`: the whole list appended, in order. */
  function BuilderSteps(b: StageBuilder, steps: seq<Step>): (r: StageBuilder)
    ensures |r.stage.steps| == |b.stage.steps| + |steps|
    ensures r.stage.steps[..|b.stage.steps|] == b.stage.steps && r.stage.steps[|b.stage.steps|..] == steps
    ensures r.stage.(steps := b.stage.steps) == b.stage
  {
    StageBuilder(b.stage.(steps := b.stage.steps + steps))
  }

  /** `StageBuilder::post`: one post-condition appended at the end. */
  function BuilderPost(b: StageBuilder, p: RustlinePost.PostCondition): (r: StageBuilder)
    ensures r.stage == WithPost(b.stage, p)
  {
    StageBuilder(b.stage.(post := b.stage.post + [p]))
  }

  /** `StageBuilder::build`: the stage, unchanged, when it validates; its first error otherwise. */
  function Build(b: StageBuilder): (r: Result<Stage, ValidationError>)
    ensures r.Ok? <==> StageValid(b.stage)
    ensures r.Ok? ==> r.value == b.stage
    ensures r.Err? ==> ValidateStage(b.stage) == Err(r.error)
  {
    match ValidateStage(b.stage)
    case Err(e) => Err(e)
    case Ok(_) => Ok(b.stage)
  }

  /** `StageBuilder::build_unchecked`: the stage as it stands, never validated. */
  function BuildUnchecked(b: StageBuilder): (s: Stage)
    ensures s == b.stage
  {
    b.stage
  }

  /** Adding steps one at a time or as a list gives the same stage. */
  lemma {:induction false} StepByStepIsSteps(b: StageBuilder, steps: seq<Step>)
    ensures AddEach(b, steps) == BuilderSteps(b, steps)
    decreases |steps|
  {
    if |steps| > 0 {
      var last := steps[|steps| - 1];
      var init := steps[..|steps| - 1];
      assert steps == init + [last];
      StepByStepIsSteps(b, init);
      assert b.stage.steps + init + [last] == b.stage.steps + steps;
    } else {
      assert b.stage.steps + steps == b.stage.steps;
    }
  }

  /** `step` applied to each element in turn. */
  function AddEach(b: StageBuilder, steps: seq<Step>): StageBuilder
    decreases |steps|
  {
    if |steps| == 0 then b else BuilderStep(AddEach(b, steps[..|steps| - 1]), steps[|steps| - 1])
  }

  /** A stage built from a non-empty step list and a short name, with nothing else, validates. */
  lemma SimpleStageValid(name: string, steps: seq<Step>)
    requires name != "" && Utf8Len(name) <= MaxNameLength && |steps| > 0
    ensures Build(BuilderNew(name, steps)).Ok?
  {
  }

  /** A stage with neither steps, branches nor matrix is rejected as empty, naming the stage. */
  lemma EmptyStageRejected(name: string)
    requires name != "" && Utf8Len(name) <= MaxNameLength
    ensures Build(BuilderNew(name, [])) == Err(EmptyStage(name))
  {
  }
}
