/** The `src/` pipeline definition: validation, the builder and `Display`. */
module RustlinePipeline {
  import opened Wrappers
  import opened Strings
  import opened RustlineErrors
  import RustlineAgent
  import RustlineCore
  import RustlineOptions
  import RustlinePost
  import RustlineStage

  datatype Pipeline = Pipeline(
    name: Option<string>,
    agent: RustlineAgent.AgentType,
    stages: seq<RustlineStage.Stage>,
    environment: RustlineCore.Environment,
    parameters: RustlineCore.Parameters,
    triggers: seq<RustlineOptions.Trigger>,
    options: RustlineOptions.PipelineOptions,
    post: seq<RustlinePost.PostCondition>)

  /** A pipeline is well formed: valid agent, at least one stage, every stage, trigger and option valid. */
  predicate PipelineValid(p: Pipeline) {
    && RustlineAgent.Validate(p.agent).Ok?
    && |p.stages| > 0
    && (forall i :: 0 <= i < |p.stages| ==> RustlineStage.StageValid(p.stages[i]))
    && (forall i :: 0 <= i < |p.triggers| ==> RustlineOptions.ValidateTrigger(p.triggers[i]).Ok?)
    && RustlineOptions.ValidateOptions(p.options).Ok?
  }

  /** The stage loop of `Pipeline::validate`: the first stage error, if any. */
  function ValidateStages(stages: seq<RustlineStage.Stage>): (r: Result<Unit, ValidationError>)
    ensures r.Ok? <==> forall i :: 0 <= i < |stages| ==> RustlineStage.StageValid(stages[i])
    ensures r.Err? ==> (exists i :: 0 <= i < |stages| && RustlineStage.ValidateStage(stages[i]) == r
                         && (forall j :: 0 <= j < i ==> RustlineStage.StageValid(stages[j])))
  {
    if |stages| == 0 then Ok(Unit)
    else if RustlineStage.ValidateStage(stages[0]).Err? then RustlineStage.ValidateStage(stages[0])
    else
      var r := ValidateStages(stages[1..]);
      assert forall i :: 1 <= i < |stages| ==> stages[i] == stages[1..][i - 1];
      if r.Err? then
        var i :| 0 <= i < |stages[1..]| && RustlineStage.ValidateStage(stages[1..][i]) == r
          && (forall j :: 0 <= j < i ==> RustlineStage.StageValid(stages[1..][j]));
        assert RustlineStage.ValidateStage(stages[i + 1]) == r;
        r
      else r
  }

  /** The trigger loop of `Pipeline::validate`: the first trigger error, if any. */
  function ValidateTriggers(ts: seq<RustlineOptions.Trigger>): (r: Result<Unit, ValidationError>)
    ensures r.Ok? <==> forall i :: 0 <= i < |ts| ==> RustlineOptions.ValidateTrigger(ts[i]).Ok?
  {
    if |ts| == 0 then Ok(Unit)
    else if RustlineOptions.ValidateTrigger(ts[0]).Err? then RustlineOptions.ValidateTrigger(ts[0])
    else
      var r := ValidateTriggers(ts[1..]);
      assert forall i :: 1 <= i < |ts| ==> ts[i] == ts[1..][i - 1];
      r
  }

  /**
   * `Pipeline::validate`: agent, then EmptyPipeline, then each stage, each
   * trigger and the options, returning the first error. Parameters and
   * post-conditions are not checked.
   */
  function Validate(p: Pipeline): (r: Result<Unit, ValidationError>)
    ensures r.Ok? <==> PipelineValid(p)
    ensures RustlineAgent.Validate(p.agent).Err? ==> r == RustlineAgent.Validate(p.agent)
    ensures RustlineAgent.Validate(p.agent).Ok? && |p.stages| == 0 ==> r == Err(EmptyPipeline)
    ensures RustlineAgent.Validate(p.agent).Ok? && |p.stages| > 0 && ValidateStages(p.stages).Err?
      ==> r == ValidateStages(p.stages)
  {
    if RustlineAgent.Validate(p.agent).Err? then RustlineAgent.Validate(p.agent)
    else if |p.stages| == 0 then Err(EmptyPipeline)
    else if ValidateStages(p.stages).Err? then ValidateStages(p.stages)
    else if ValidateTriggers(p.triggers).Err? then ValidateTriggers(p.triggers)
    else RustlineOptions.ValidateOptions(p.options)
  }

  /** `Pipeline::stage_count`. */
  function StageCount(p: Pipeline): (n: nat)
    ensures n == |p.stages|
  {
    |p.stages|
  }

  /** `Display`: "Pipeline(<name or unnamed>): <n> stages". */
  function Display(p: Pipeline): string {
    "Pipeline(" + (if p.name.Some? then p.name.value else "unnamed") + "): "
    + NatToString(|p.stages|) + " stages"
  }

  /** An unnamed pipeline renders as "unnamed", with its stage count. */
  lemma DisplayUnnamed(p: Pipeline)
    requires p.name.None?
    ensures Display(p) == "Pipeline(unnamed): " + NatToString(StageCount(p)) + " stages"
  {
  }

  // ---------------------------------------------------------------------
  // PipelineBuilder
  // ---------------------------------------------------------------------

  datatype PipelineBuilder = PipelineBuilder(pipeline: Pipeline)

  /** `PipelineBuilder::new`: no name, agent Any, nothing else, default options. */
  function BuilderNew(): (b: PipelineBuilder)
    ensures b.pipeline.name.None? && b.pipeline.agent == RustlineAgent.Any
    ensures b.pipeline.stages == [] && b.pipeline.triggers == [] && b.pipeline.post == []
    ensures b.pipeline.environment == RustlineCore.EmptyEnvironment
    ensures b.pipeline.parameters == RustlineCore.EmptyParameters
    ensures b.pipeline.options == RustlineOptions.DefaultOptions
  {
    PipelineBuilder(Pipeline(None, RustlineAgent.Any, [], RustlineCore.EmptyEnvironment,
      RustlineCore.EmptyParameters, [], RustlineOptions.DefaultOptions, []))
  }

  /** `name`: only the name changes. */
  function BuilderName(b: PipelineBuilder, name: string): (r: PipelineBuilder)
    ensures r.pipeline.name == Some(name) && r.pipeline.(name := b.pipeline.name) == b.pipeline
  {
    PipelineBuilder(b.pipeline.(name := Some(name)))
  }

  /** `agent`: only the agent changes. */
  function BuilderAgent(b: PipelineBuilder, a: RustlineAgent.AgentType): (r: PipelineBuilder)
    ensures r.pipeline.agent == a && r.pipeline.(agent := b.pipeline.agent) == b.pipeline
  {
    PipelineBuilder(b.pipeline.(agent := a))
  }

  /** `stage`: one stage appended at the end. */
  function BuilderStage(b: PipelineBuilder, s: RustlineStage.Stage): (r: PipelineBuilder)
    ensures |r.pipeline.stages| == |b.pipeline.stages| + 1
    ensures r.pipeline.stages[..|b.pipeline.stages|] == b.pipeline.stages
    ensures r.pipeline.stages[|b.pipeline.stages|] == s
    ensures r.pipeline.(stages := b.pipeline.stages) == b.pipeline
  {
    PipelineBuilder(b.pipeline.(stages := b.pipeline.stages + [s]))
  }

  /** `stages`: the whole list appended, in order. */
  function BuilderStages(b: PipelineBuilder, ss: seq<RustlineStage.Stage>): (r: PipelineBuilder)
    ensures |r.pipeline.stages| == |b.pipeline.stages| + |ss|
    ensures r.pipeline.stages[..|b.pipeline.stages|] == b.pipeline.stages
    ensures r.pipeline.stages[|b.pipeline.stages|..] == ss
    ensures r.pipeline.(stages := b.pipeline.stages) == b.pipeline
  {
    PipelineBuilder(b.pipeline.(stages := b.pipeline.stages + ss))
  }

  /** `environment(f)`: the environment replaced by `f` of the current one. */
  function BuilderEnvironment(b: PipelineBuilder, f: RustlineCore.Environment -> RustlineCore.Environment): (r: PipelineBuilder)
    ensures r.pipeline.environment == f(b.pipeline.environment)
    ensures r.pipeline.(environment := b.pipeline.environment) == b.pipeline
  {
    PipelineBuilder(b.pipeline.(environment := f(b.pipeline.environment)))
  }

  /** `with_environment`: the environment replaced. */
  function BuilderWithEnvironment(b: PipelineBuilder, e: RustlineCore.Environment): (r: PipelineBuilder)
    ensures r.pipeline.environment == e && r.pipeline.(environment := b.pipeline.environment) == b.pipeline
  {
    PipelineBuilder(b.pipeline.(environment := e))
  }

  /** `parameters(f)`: the parameters replaced by `f` of the current ones. */
  function BuilderParameters(b: PipelineBuilder, f: RustlineCore.Parameters -> RustlineCore.Parameters): (r: PipelineBuilder)
    ensures r.pipeline.parameters == f(b.pipeline.parameters)
    ensures r.pipeline.(parameters := b.pipeline.parameters) == b.pipeline
  {
    PipelineBuilder(b.pipeline.(parameters := f(b.pipeline.parameters)))
  }

  /** `with_parameters`: the parameters replaced. */
  function BuilderWithParameters(b: PipelineBuilder, ps: RustlineCore.Parameters): (r: PipelineBuilder)
    ensures r.pipeline.parameters == ps && r.pipeline.(parameters := b.pipeline.parameters) == b.pipeline
  {
    PipelineBuilder(b.pipeline.(parameters := ps))
  }

  /** `trigger`: one trigger appended at the end. */
  function BuilderTrigger(b: PipelineBuilder, t: RustlineOptions.Trigger): (r: PipelineBuilder)
    ensures r.pipeline.triggers == b.pipeline.triggers + [t]
    ensures r.pipeline.(triggers := b.pipeline.triggers) == b.pipeline
  {
    PipelineBuilder(b.pipeline.(triggers := b.pipeline.triggers + [t]))
  }

  /** `options`: the options replaced. */
  function BuilderOptions(b: PipelineBuilder, o: RustlineOptions.PipelineOptions): (r: PipelineBuilder)
    ensures r.pipeline.options == o && r.pipeline.(options := b.pipeline.options) == b.pipeline
  {
    PipelineBuilder(b.pipeline.(options := o))
  }

  /** `post`: one post-condition appended at the end. */
  function BuilderPost(b: PipelineBuilder, c: RustlinePost.PostCondition): (r: PipelineBuilder)
    ensures r.pipeline.post == b.pipeline.post + [c]
    ensures r.pipeline.(post := b.pipeline.post) == b.pipeline
  {
    PipelineBuilder(b.pipeline.(post := b.pipeline.post + [c]))
  }

  /** `posts`: the list appended, in order. */
  function BuilderPosts(b: PipelineBuilder, cs: seq<RustlinePost.PostCondition>): (r: PipelineBuilder)
    ensures |r.pipeline.post| == |b.pipeline.post| + |cs|
    ensures r.pipeline.post[..|b.pipeline.post|] == b.pipeline.post
    ensures r.pipeline.post[|b.pipeline.post|..] == cs
    ensures r.pipeline.(post := b.pipeline.post) == b.pipeline
  {
    PipelineBuilder(b.pipeline.(post := b.pipeline.post + cs))
  }

  /** `build`: the pipeline, unchanged, when it validates; the first error otherwise. */
  function Build(b: PipelineBuilder): (r: Result<Pipeline, ValidationError>)
    ensures r.Ok? <==> PipelineValid(b.pipeline)
    ensures r.Ok? ==> r.value == b.pipeline
    ensures r.Err? ==> Validate(b.pipeline) == Err(r.error)
  {
    match Validate(b.pipeline)
    case Err(e) => Err(e)
    case Ok(_) => Ok(b.pipeline)
  }

  /** `build_unchecked`: the pipeline as it stands. */
  function BuildUnchecked(b: PipelineBuilder): (p: Pipeline)
    ensures p == b.pipeline
  {
    b.pipeline
  }

  /** A fresh builder with no stages fails to build with EmptyPipeline. */
  lemma EmptyBuilderRejected()
    ensures Build(BuilderNew()) == Err(EmptyPipeline)
  {
    RustlineOptions.DefaultOptionsValid();
  }

  /** One valid stage is enough for a fresh builder to build. */
  lemma OneStageBuilds(s: RustlineStage.Stage)
    requires RustlineStage.StageValid(s)
    ensures Build(BuilderStage(BuilderNew(), s)).Ok?
  {
    RustlineOptions.DefaultOptionsValid();
    var p := BuilderStage(BuilderNew(), s).pipeline;
    assert p.stages == [s];
  }
}
