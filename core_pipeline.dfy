/**
 * The pipeline definition of the `pipeliner-core` model: pipelines, stages,
 * steps, when and post conditions, their defaults, builders and
 * validation.
 */
module CorePipeline {
  import opened Wrappers
  import opened Durations
  import opened JsonValues
  import opened CoreValidation
  import opened CoreAgent
  import opened CoreEnvironment
  import opened CoreParameters
  import opened CoreOptions
  import CoreMatrix

  datatype UpstreamTrigger = UpstreamTrigger(jobs: seq<string>, threshold: string)

  datatype Triggers = Triggers(cron: Option<string>, pollScm: Option<string>, upstream: Option<UpstreamTrigger>)

  /** The comparator a branch or tag condition is deserialised with when none is given. */
  function DefaultComparator(): (c: string)
    ensures c == "GLOB"
  {
    "GLOB"
  }

  datatype BranchCondition = BranchCondition(pattern: string, comparator: string)

  datatype EnvironmentCondition = EnvironmentCondition(name: string, value: Option<string>, pattern: Option<string>)

  datatype TagCondition = TagCondition(pattern: string, comparator: string)

  datatype WhenCondition = WhenCondition(
    branch: Option<BranchCondition>, environment: Option<EnvironmentCondition>,
    tag: Option<TagCondition>, expression: Option<string>,
    allOf: seq<WhenCondition>, anyOf: seq<WhenCondition>, not: Option<WhenCondition>)

  datatype StepParameter =
    | StringInput(name: string, description: string, defaultValue: Option<string>)
    | BooleanInput(name: string, description: string, defaultBool: bool)
    | ChoiceInput(name: string, description: string, choices: seq<string>)

  datatype StepType =
    | Shell(command: string)
    | Echo(message: string)
    | Retry(count: nat, step: Step)
    | Timeout(duration: Duration, step: Step)
    | Stash(stashName: string, includes: seq<string>, excludes: seq<string>)
    | Unstash(stashName: string)
    | Input(inputMessage: string, default: Option<string>, parameters: seq<StepParameter>)
    | Dir(path: string, steps: seq<Step>)
    | Script(content: string)
    | Archive(artifacts: seq<string>, archiveExcludes: seq<string>, fingerprint: bool)
    | Custom(customName: string, config: Json)

  datatype Step = Step(stepType: StepType, name: Option<string>, timeout: Option<Duration>, retry: Option<nat>)

  datatype PostCondition = PostCondition(
    always: seq<Step>, success: seq<Step>, failure: seq<Step>,
    unstable: seq<Step>, changed: seq<Step>, cleanup: seq<Step>)

  /** The options of a stage as the pipeline definition declares them. */
  datatype StageOptions = StageOptions(timeout: Option<Duration>, retry: Option<nat>, skipDefaultCheckout: bool, failFast: bool)

  datatype Stage = Stage(
    name: string, agent: Option<AgentType>, environment: Environment,
    options: Option<StageOptions>, when: Option<WhenCondition>,
    post: Option<PostCondition>, steps: seq<Step>)

  datatype Pipeline = Pipeline(
    name: Option<string>, description: Option<string>, agent: Option<AgentType>,
    environment: Environment, parameters: Option<Parameters>,
    options: Option<PipelineOptions>, triggers: Option<Triggers>,
    stages: seq<Stage>, matrix: Option<CoreMatrix.MatrixConfig>)

  /** `Step::default`: an echo of the empty message, with no name, timeout or retry. */
  function DefaultStep(): (s: Step)
    ensures s.stepType == Echo("") && s.name.None? && s.timeout.None? && s.retry.None?
  {
    Step(Echo(""), None, None, None)
  }

  /** `Pipeline::new` / `Pipeline::default`: nothing set, no variables, no stages. */
  function NewPipeline(): (p: Pipeline)
    ensures p.name.None? && p.description.None? && p.agent.None? && p.parameters.None?
    ensures p.options.None? && p.triggers.None? && p.matrix.None?
    ensures p.stages == [] && CoreEnvironment.IsEmpty(p.environment)
  {
    Pipeline(None, None, None, NewEnvironment(), None, None, None, [], None)
  }

  /** `with_name`: sets the name and nothing else. */
  function WithName(p: Pipeline, name: string): (r: Pipeline)
    ensures r.name == Some(name) && r.(name := p.name) == p
  {
    p.(name := Some(name))
  }

  /** `with_description`: sets the description and nothing else. */
  function WithDescription(p: Pipeline, description: string): (r: Pipeline)
    ensures r.description == Some(description) && r.(description := p.description) == p
  {
    p.(description := Some(description))
  }

  /** `with_agent`: sets the agent and nothing else. */
  function WithAgent(p: Pipeline, agent: AgentType): (r: Pipeline)
    ensures r.agent == Some(agent) && r.(agent := p.agent) == p
  {
    p.(agent := Some(agent))
  }

  /** `with_environment`: replaces the variables and nothing else. */
  function WithEnvironment(p: Pipeline, environment: Environment): (r: Pipeline)
    ensures r.environment == environment && r.(environment := p.environment) == p
  {
    p.(environment := environment)
  }

  /** `with_parameters`: sets the parameters and nothing else. */
  function WithParameters(p: Pipeline, parameters: Parameters): (r: Pipeline)
    ensures r.parameters == Some(parameters) && r.(parameters := p.parameters) == p
  {
    p.(parameters := Some(parameters))
  }

  /** `with_options`: sets the options and nothing else. */
  function WithOptions(p: Pipeline, options: PipelineOptions): (r: Pipeline)
    ensures r.options == Some(options) && r.(options := p.options) == p
  {
    p.(options := Some(options))
  }

  /** `with_stage`: appends the stage, keeping the earlier ones in order, and changes nothing else. */
  function WithStage(p: Pipeline, stage: Stage): (r: Pipeline)
    ensures |r.stages| == |p.stages| + 1 && r.stages[..|p.stages|] == p.stages && r.stages[|p.stages|] == stage
    ensures r.(stages := p.stages) == p
  {
    p.(stages := p.stages + [stage])
  }

  /** `with_matrix`: sets the matrix and nothing else. */
  function WithMatrix(p: Pipeline, matrix: CoreMatrix.MatrixConfig): (r: Pipeline)
    ensures r.matrix == Some(matrix) && r.(matrix := p.matrix) == p
  {
    p.(matrix := Some(matrix))
  }

  /** `Validate for Stage`: a name, then at least one step. */
  function ValidateStage(s: Stage): (r: Validation)
    ensures r.Ok? <==> s.name != "" && s.steps != []
    ensures s.name == "" ==> r == Err(EmptyName)
    ensures s.name != "" && s.steps == [] ==> r == Err(EmptySteps(s.name))
  {
    if s.name == "" then Err(EmptyName)
    else if s.steps == [] then Err(EmptySteps(s.name))
    else Ok(Unit)
  }

  /**
   * `Validate for Pipeline`: at least one stage; then the stages in order,
   * the matrix and the parameters, the first error winning. The options,
   * agents and triggers are not checked.
   */
  function ValidatePipeline(p: Pipeline): (r: Validation)
    ensures p.stages == [] ==> r == Err(EmptyStages)
    ensures r.Ok? <==> p.stages != []
                       && (forall i :: 0 <= i < |p.stages| ==> ValidateStage(p.stages[i]).Ok?)
                       && (p.matrix.Some? ==> CoreMatrix.Validate(p.matrix.value).Ok?)
                       && (p.parameters.Some? ==> ValidateParameters(p.parameters.value).Ok?)
    ensures p.stages != [] && ValidateAll(p.stages, ValidateStage).Err? ==> r == ValidateAll(p.stages, ValidateStage)
  {
    if p.stages == [] then Err(EmptyStages)
    else if ValidateAll(p.stages, ValidateStage).Err? then ValidateAll(p.stages, ValidateStage)
    else if ValidateOption(p.matrix, CoreMatrix.Validate).Err? then ValidateOption(p.matrix, CoreMatrix.Validate)
    else ValidateOption(p.parameters, ValidateParameters)
  }

  /** The settings no rule looks at never change the verdict. */
  lemma ValidationIgnoresSettings(p: Pipeline, name: string, agent: AgentType, options: PipelineOptions, env: Environment)
    ensures ValidatePipeline(WithOptions(WithAgent(WithName(WithEnvironment(p, env), name), agent), options))
            == ValidatePipeline(p)
  {
  }

  /** A pipeline built from the defaults with one stage that has a name and a step is valid. */
  lemma OneStagePipelineValid(stageName: string, step: Step)
    requires stageName != ""
    ensures ValidatePipeline(WithStage(NewPipeline(), Stage(stageName, None, NewEnvironment(), None, None, None, [step]))).Ok?
  {
  }
}
