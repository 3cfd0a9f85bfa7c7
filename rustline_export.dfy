/**
 * `rustline export`: a pipeline script is read back into a small export
 * record (name, stages, environment, agent) and rendered as a GitHub
 * Actions workflow, a GitLab CI configuration or a Jenkinsfile.
 *
 * The script is scanned with regular expressions; the model takes what
 * those expressions capture as an input (`Captures`) and keeps only the
 * plain substring test for `agent_any!()`. The renderers push whole lines
 * onto an accumulating string, so each is specified by its list of lines
 * and proved to produce `Text` of that list.
 *
 * The Jenkinsfile renderer is modelled twice, as written and corrected.
 * `ExportJenkinsfile` and `ExportPipeline` follow the code as written
 * (`JenkinsLinesAsWritten`); `JenkinsLines` is the corrected reference,
 * used only by the lemmas that compare the two.
 */
module RustlineExport {
  import opened Wrappers
  import opened Strings
  import opened TextLines

  // ---------------------------------------------------------------------
  // Export records
  // ---------------------------------------------------------------------

  datatype ExportFormat = GitHubActions | GitLabCi | Jenkinsfile

  /** The output path of the configuration is only used to write the file, which is not modelled. */
  datatype ExportConfig = ExportConfig(format: ExportFormat, name: string)

  datatype StepExport = StepExport(stepType: string, command: string, timeout: Option<nat>, retry: Option<nat>,
                                   environment: seq<(string, string)>)

  datatype StageExport = StageExport(name: string, steps: seq<StepExport>, needs: seq<string>, when: Option<string>)

  datatype EnvironmentExport = EnvironmentExport(key: string, value: string)

  /** The agent types the extraction produces: "any", "docker", "kubernetes" and "label". */
  datatype AgentKind = AnyAgent | DockerAgent | KubernetesAgent | LabelAgent

  datatype AgentExport = AgentExport(kind: AgentKind, image: Option<string>, labelName: Option<string>)

  datatype PipelineExport = PipelineExport(name: string, stages: seq<StageExport>, environment: seq<EnvironmentExport>,
                                           agent: Option<AgentExport>)

  /**
   * What the extraction patterns capture in a script: the `rustline:name`
   * comment, the first argument of the first `agent_docker!`,
   * `agent_kubernetes!` and `agent_label!`, every `environment!` pair and
   * the name of every `stage!(.., steps!(` in order.
   */
  datatype Captures = Captures(name: Option<string>, docker: Option<string>, kubernetes: Option<string>,
                               labelName: Option<string>, environment: seq<EnvironmentExport>, stages: seq<string>)

  const Shell := "shell"
  const AnyMacro := "agent_any!()"

  // ---------------------------------------------------------------------
  // Extraction
  // ---------------------------------------------------------------------

  /** The agent record's optional parts match its type: an image for docker, a label for kubernetes and label. */
  predicate AgentShaped(a: AgentExport) {
    (a.image.Some? <==> a.kind == DockerAgent) && (a.labelName.Some? <==> a.kind in {KubernetesAgent, LabelAgent})
  }

  /** `extract_agent`: `agent_any!()` first, then docker, kubernetes and label, else no agent. */
  function ExtractAgent(content: string, caps: Captures): (r: Option<AgentExport>)
    ensures r.Some? <==> Contains(content, AnyMacro) || caps.docker.Some? || caps.kubernetes.Some? || caps.labelName.Some?
    ensures r.Some? ==> AgentShaped(r.value)
  {
    if Contains(content, AnyMacro) then Some(AgentExport(AnyAgent, None, None))
    else if caps.docker.Some? then Some(AgentExport(DockerAgent, caps.docker, None))
    else if caps.kubernetes.Some? then Some(AgentExport(KubernetesAgent, None, caps.kubernetes))
    else if caps.labelName.Some? then Some(AgentExport(LabelAgent, None, caps.labelName))
    else None
  }

  /** The one step `extract_steps` gives every stage, whatever the script says. */
  function EchoStep(): StepExport {
    StepExport(Shell, "echo step", None, None, [])
  }

  /** `extract_steps`: its arguments are ignored. */
  function ExtractSteps(content: string, stageName: string): (r: seq<StepExport>)
    ensures |r| == 1 && r[0].stepType == Shell && r[0].command == "echo step"
  {
    [EchoStep()]
  }

  /** The stages `extract_stages` returns for the captured stage names. */
  function ExportStages(content: string, names: seq<string>): seq<StageExport> {
    seq(|names|, i requires 0 <= i < |names| =>
      StageExport(names[i], ExtractSteps(content, names[i]), if i == 0 then [] else [names[i - 1]], None))
  }

  /**
   * `extract_stages`: one stage per captured name, then a second pass that
   * makes every stage but the first need the stage before it.
   */
  method ExtractStages(content: string, names: seq<string>) returns (stages: seq<StageExport>)
    ensures |stages| == |names|
    ensures forall i :: 0 <= i < |names| ==>
      stages[i].name == names[i] && stages[i].steps == ExtractSteps(content, names[i]) && stages[i].when.None?
    ensures |stages| > 0 ==> stages[0].needs == []
    ensures forall i :: 0 < i < |names| ==> stages[i].needs == [names[i - 1]]
    ensures stages == ExportStages(content, names)
  {
    stages := [];
    var k := 0;
    while k < |names|
      invariant 0 <= k <= |names| && |stages| == k
      invariant forall i :: 0 <= i < k ==> stages[i] == StageExport(names[i], ExtractSteps(content, names[i]), [], None)
    {
      stages := stages + [StageExport(names[k], ExtractSteps(content, names[k]), [], None)];
      k := k + 1;
    }
    var stageNames := seq(|stages|, i requires 0 <= i < |stages| => stages[i].name);
    var i := 0;
    while i < |stages|
      invariant 0 <= i <= |stages| == |names| == |stageNames|
      invariant forall j :: 0 <= j < |names| ==> stageNames[j] == names[j]
      invariant forall j :: 0 <= j < i ==> stages[j] == ExportStages(content, names)[j]
      invariant forall j :: i <= j < |names| ==> stages[j] == StageExport(names[j], ExtractSteps(content, names[j]), [], None)
    {
      if i > 0 {
        stages := stages[i := stages[i].(needs := stages[i].needs + [stageNames[i - 1]])];
      }
      i := i + 1;
    }
  }

  /** `parse_pipeline`: the name defaults to "". */
  function ParsePipeline(content: string, caps: Captures): (p: PipelineExport)
    ensures |p.stages| == |caps.stages|
    ensures p.agent.Some? ==> AgentShaped(p.agent.value)
  {
    PipelineExport(if caps.name.Some? then caps.name.value else "", ExportStages(content, caps.stages),
                   caps.environment, ExtractAgent(content, caps))
  }

  // ---------------------------------------------------------------------
  // Case conversion
  // ---------------------------------------------------------------------

  /** Every character that is not a letter or digit becomes `sep`. */
  function SeparatorMap(s: string, sep: char): (r: string)
    ensures |r| == |s|
    ensures forall i :: 0 <= i < |s| ==> r[i] == (if IsAlphanumeric(s[i]) then s[i] else sep)
    decreases |s|
  {
    if s == [] then [] else [if IsAlphanumeric(s[0]) then s[0] else sep] + SeparatorMap(s[1..], sep)
  }

  /** Lower-case, map the other characters to `sep`, then one pass replacing `sep sep` by `sep`. */
  function CaseWith(s: string, sep: char): string {
    ReplaceAll(SeparatorMap(ToLower(s), sep), [sep, sep], [sep])
  }

  /** `to_kebab_case`. */
  function ToKebabCase(s: string): string {
    CaseWith(s, '-')
  }

  /** `to_snake_case`. */
  function ToSnakeCase(s: string): string {
    CaseWith(s, '_')
  }

  // ---------------------------------------------------------------------
  // GitHub Actions
  // ---------------------------------------------------------------------

  /** The fixed head of the workflow. */
  function GithubHeadLines(name: string): seq<string> {
    ["name: " + name, "", "on:", "  push:", "    branches: [main]", "  pull_request:", "    branches: [main]", "",
     "env:", "  CARGO_TERM_COLOR: always"]
  }

  function GithubEnvLine(e: EnvironmentExport): seq<string> {
    ["  " + e.key + ": " + e.value]
  }

  function KebabAll(names: seq<string>): (r: seq<string>)
    ensures |r| == |names| && forall i :: 0 <= i < |names| ==> r[i] == ToKebabCase(names[i])
  {
    seq(|names|, i requires 0 <= i < |names| => ToKebabCase(names[i]))
  }

  function GithubNeedsLines(needs: seq<string>): seq<string> {
    if needs == [] then [] else ["    needs: [" + Join(KebabAll(needs), ", ") + "]"]
  }

  const RunsOn := "    runs-on: ubuntu-latest"
  const Checkout := "      - uses: actions/checkout@v4"

  /** The fixed part of a job after its needs. */
  function GithubRunnerLines(): seq<string> {
    [RunsOn, "    steps:", Checkout]
  }

  /** A shell step is a `name` and a `run` line; other steps are skipped. */
  function GithubStepLines(st: StepExport): seq<string> {
    if st.stepType == Shell then ["      - name: " + st.stepType, "        run: " + st.command] else []
  }

  function GithubJobHeader(s: StageExport): string {
    "  " + ToKebabCase(s.name) + ":"
  }

  function GithubJobLines(s: StageExport): seq<string> {
    [GithubJobHeader(s)] + GithubNeedsLines(s.needs) + GithubRunnerLines() + Flatten(s.steps, GithubStepLines)
  }

  /** A job that is not the last one, followed by its blank separator line. */
  function GithubJobBlock(s: StageExport): seq<string> {
    GithubJobLines(s) + [""]
  }

  /** The jobs, separated by blank lines. */
  function GithubJobsLines(stages: seq<StageExport>): seq<string> {
    Separated(stages, GithubJobLines, GithubJobBlock)
  }

  function GithubLines(p: PipelineExport, config: ExportConfig): seq<string> {
    GithubHeadLines(config.name) + Flatten(p.environment, GithubEnvLine) + ["", "jobs:"] + GithubJobsLines(p.stages)
  }

  method PushGithubNeeds(yaml: string, ghost lines: seq<string>, needs: seq<string>) returns (r: string, ghost all: seq<string>)
    requires yaml == Text(lines)
    ensures all == lines + GithubNeedsLines(needs) && r == Text(all)
  {
    r, all := yaml, lines;
    if needs != [] {
      var kebab := seq(|needs|, i requires 0 <= i < |needs| => ToKebabCase(needs[i]));
      r, all := PushLines(r, all, ["    needs: [" + Join(kebab, ", ") + "]"]);
    }
  }

  /** One job of `export_github_actions`, without its separator. */
  method PushGithubJob(yaml: string, ghost lines: seq<string>, s: StageExport) returns (r: string, ghost all: seq<string>)
    requires yaml == Text(lines)
    ensures all == lines + GithubJobLines(s) && r == Text(all)
  {
    r, all := PushLines(yaml, lines, [GithubJobHeader(s)]);
    r, all := PushGithubNeeds(r, all, s.needs);
    r, all := PushLines(r, all, GithubRunnerLines());
    r, all := PushEach(r, all, s.steps, GithubStepLines);
    Regroup(lines, [GithubJobHeader(s)], GithubNeedsLines(s.needs), GithubRunnerLines(), Flatten(s.steps, GithubStepLines));
  }

  /** The jobs rendered by the first `i` turns of the jobs loop. */
  function GithubJobsPrefix(stages: seq<StageExport>, i: nat): seq<string>
    requires i <= |stages|
  {
    if i < |stages| then Flatten(stages[..i], GithubJobBlock) else GithubJobsLines(stages)
  }

  /** What turn `i` of the jobs loop pushes: the job, and a blank line unless it is the last. */
  function GithubJobTurn(stages: seq<StageExport>, i: nat): seq<string>
    requires i < |stages|
  {
    if i < |stages| - 1 then GithubJobBlock(stages[i]) else GithubJobLines(stages[i])
  }

  lemma GithubJobsStep(before: seq<string>, stages: seq<StageExport>, i: nat)
    requires i < |stages|
    ensures before + GithubJobsPrefix(stages, i + 1) == before + GithubJobsPrefix(stages, i) + GithubJobTurn(stages, i)
  {
    if i < |stages| - 1 {
      FlattenSnoc(stages, GithubJobBlock, i);
    } else {
      assert stages[..i] == stages[..|stages| - 1];
      assert GithubJobsLines(stages) == Flatten(stages[..i], GithubJobBlock) + GithubJobLines(stages[i]);
    }
  }

  method PushGithubTurn(yaml: string, ghost lines: seq<string>, stages: seq<StageExport>, i: nat)
    returns (r: string, ghost all: seq<string>)
    requires i < |stages| && yaml == Text(lines)
    ensures all == lines + GithubJobTurn(stages, i) && r == Text(all)
  {
    r, all := PushGithubJob(yaml, lines, stages[i]);
    if i < |stages| - 1 {
      r, all := PushLines(r, all, [""]);
    }
  }

  /** The jobs loop: a blank line after every job but the last. */
  method PushGithubJobs(yaml: string, ghost lines: seq<string>, stages: seq<StageExport>) returns (r: string, ghost all: seq<string>)
    requires yaml == Text(lines)
    ensures all == lines + GithubJobsLines(stages) && r == Text(all)
  {
    r, all := yaml, lines;
    var i := 0;
    while i < |stages|
      invariant 0 <= i <= |stages|
      invariant all == lines + GithubJobsPrefix(stages, i) && r == Text(all)
    {
      r, all := PushGithubTurn(r, all, stages, i);
      GithubJobsStep(lines, stages, i);
      i := i + 1;
    }
  }

  /** `export_github_actions`. */
  method ExportGithubActions(p: PipelineExport, config: ExportConfig) returns (yaml: string)
    ensures yaml == Text(GithubLines(p, config))
  {
    ghost var lines: seq<string>;
    yaml, lines := PushLines("", [], GithubHeadLines(config.name));
    yaml, lines := PushEach(yaml, lines, p.environment, GithubEnvLine);
    yaml, lines := PushLines(yaml, lines, ["", "jobs:"]);
    yaml, lines := PushGithubJobs(yaml, lines, p.stages);
    Regroup([], GithubHeadLines(config.name), Flatten(p.environment, GithubEnvLine), ["", "jobs:"], GithubJobsLines(p.stages));
    assert lines == GithubLines(p, config);
  }

  // ---------------------------------------------------------------------
  // GitLab CI
  // ---------------------------------------------------------------------

  function GitlabStageEntry(s: StageExport): seq<string> {
    ["  - " + ToSnakeCase(s.name)]
  }

  /** A docker agent gives its image, when it has one; any other agent gives the "rust" tag. */
  function GitlabAgentLines(agent: Option<AgentExport>): seq<string> {
    match agent
    case None => []
    case Some(a) =>
      if a.kind == DockerAgent then (if a.image.Some? then ["  image: " + a.image.value] else [])
      else ["  tags:", "    - rust"]
  }

  function GitlabStepLines(st: StepExport): seq<string> {
    if st.stepType == Shell then ["    - " + st.command] else []
  }

  function GitlabJobHeader(s: StageExport): string {
    ToSnakeCase(s.name) + ":"
  }

  function GitlabJobLines(agent: Option<AgentExport>, s: StageExport): seq<string> {
    [GitlabJobHeader(s)] + GitlabAgentLines(agent) + ["  script:"] + Flatten(s.steps, GitlabStepLines) + [""]
  }

  /** The job lines of each stage, for the pipeline's agent. */
  function GitlabJobs(agent: Option<AgentExport>): StageExport -> seq<string> {
    s => GitlabJobLines(agent, s)
  }

  function GitlabLines(p: PipelineExport): seq<string> {
    ["stages:"] + Flatten(p.stages, GitlabStageEntry) + [""] + Flatten(p.stages, GitlabJobs(p.agent))
  }

  method PushGitlabAgent(yaml: string, ghost lines: seq<string>, agent: Option<AgentExport>) returns (r: string, ghost all: seq<string>)
    requires yaml == Text(lines)
    ensures all == lines + GitlabAgentLines(agent) && r == Text(all)
  {
    r, all := yaml, lines;
    if agent.Some? {
      if agent.value.kind == DockerAgent {
        if agent.value.image.Some? {
          r, all := PushLines(r, all, ["  image: " + agent.value.image.value]);
        }
      } else {
        r, all := PushLines(r, all, ["  tags:", "    - rust"]);
      }
    }
  }

  method PushGitlabJob(yaml: string, ghost lines: seq<string>, agent: Option<AgentExport>, s: StageExport)
    returns (r: string, ghost all: seq<string>)
    requires yaml == Text(lines)
    ensures all == lines + GitlabJobLines(agent, s) && r == Text(all)
  {
    r, all := PushLines(yaml, lines, [GitlabJobHeader(s)]);
    r, all := PushGitlabAgent(r, all, agent);
    r, all := PushLines(r, all, ["  script:"]);
    r, all := PushEach(r, all, s.steps, GitlabStepLines);
    r, all := PushLines(r, all, [""]);
    Regroup5(lines, [GitlabJobHeader(s)], GitlabAgentLines(agent), ["  script:"], Flatten(s.steps, GitlabStepLines), [""]);
  }

  method PushGitlabJobs(yaml: string, ghost lines: seq<string>, p: PipelineExport) returns (r: string, ghost all: seq<string>)
    requires yaml == Text(lines)
    ensures all == lines + Flatten(p.stages, GitlabJobs(p.agent)) && r == Text(all)
  {
    r, all := yaml, lines;
    var i := 0;
    while i < |p.stages|
      invariant 0 <= i <= |p.stages|
      invariant all == lines + Flatten(p.stages[..i], GitlabJobs(p.agent)) && r == Text(all)
    {
      r, all := PushGitlabJob(r, all, p.agent, p.stages[i]);
      assert GitlabJobs(p.agent)(p.stages[i]) == GitlabJobLines(p.agent, p.stages[i]);
      FlattenStep(lines, p.stages, GitlabJobs(p.agent), i);
      i := i + 1;
    }
    assert p.stages[..i] == p.stages;
  }

  /** `export_gitlab_ci`: the configuration's name is not used. */
  method ExportGitlabCi(p: PipelineExport, config: ExportConfig) returns (yaml: string)
    ensures yaml == Text(GitlabLines(p))
  {
    ghost var lines: seq<string>;
    yaml, lines := PushLines("", [], ["stages:"]);
    yaml, lines := PushEach(yaml, lines, p.stages, GitlabStageEntry);
    yaml, lines := PushLines(yaml, lines, [""]);
    yaml, lines := PushGitlabJobs(yaml, lines, p);
    Regroup([], ["stages:"], Flatten(p.stages, GitlabStageEntry), [""], Flatten(p.stages, GitlabJobs(p.agent)));
    assert lines == GitlabLines(p);
  }

  // ---------------------------------------------------------------------
  // Jenkinsfile
  // ---------------------------------------------------------------------

  /** The `agent` directive: docker and label agents refer to a variable; any other agent, or none, is `any`. */
  function JenkinsAgent(agent: Option<AgentExport>): string {
    match agent
    case Some(a) =>
      if a.kind == DockerAgent then "docker { image '${DOCKER_IMAGE}' }"
      else if a.kind == LabelAgent then "label '${AGENT_LABEL}'"
      else "any"
    case None => "any"
  }

  /** The variable the agent directive refers to, with "rust:latest" and "rust" as defaults. */
  function JenkinsAgentVar(agent: Option<AgentExport>): seq<string> {
    match agent
    case Some(a) =>
      if a.kind == DockerAgent then ["        DOCKER_IMAGE = '" + (if a.image.Some? then a.image.value else "rust:latest") + "'"]
      else if a.kind == LabelAgent then ["        AGENT_LABEL = '" + (if a.labelName.Some? then a.labelName.value else "rust") + "'"]
      else []
    case None => []
  }

  function JenkinsOpenLines(agent: Option<AgentExport>): seq<string> {
    ["pipeline {", "    agent " + JenkinsAgent(agent), "", "    environment {"]
  }

  function JenkinsEnvLine(e: EnvironmentExport): seq<string> {
    ["        " + e.key + " = '" + e.value + "'"]
  }

  /** The end of the environment block and the start of the stages block. */
  function JenkinsStagesOpen(): seq<string> {
    ["    }", "", "    stages {"]
  }

  function JenkinsWhenLines(when: Option<string>): seq<string> {
    if when.Some? then ["            when { " + when.value + " }"] else []
  }

  function JenkinsStepLines(st: StepExport): seq<string> {
    if st.stepType == Shell then ["                sh '" + st.command + "'"] else []
  }

  function JenkinsStageHeader(s: StageExport): string {
    "        stage('" + s.name + "') {"
  }

  /** The end of a stage's steps block and of the stage, and a blank line. */
  function JenkinsStageClose(): seq<string> {
    ["            }", "        }", ""]
  }

  function JenkinsStageLines(s: StageExport): seq<string> {
    [JenkinsStageHeader(s)] + JenkinsWhenLines(s.when) + ["            steps {"] + Flatten(s.steps, JenkinsStepLines)
      + JenkinsStageClose()
  }

  /** The end of the stages block, the fixed post block and the end of the pipeline. */
  function JenkinsCloseLines(): seq<string> {
    ["    }", "", "    post {",
     "        always {", "            echo 'Pipeline completed'", "        }",
     "        success {", "            echo 'Pipeline succeeded'", "        }",
     "        failure {", "            echo 'Pipeline failed'", "        }",
     "    }", "}"]
  }

  /** The corrected Jenkinsfile: the agent variable defined first in the environment block. */
  function JenkinsLines(p: PipelineExport): seq<string> {
    JenkinsOpenLines(p.agent) + JenkinsAgentVar(p.agent) + Flatten(p.environment, JenkinsEnvLine) + JenkinsStagesOpen()
      + Flatten(p.stages, JenkinsStageLines) + JenkinsCloseLines()
  }

  /** `export_jenkinsfile` as written: the agent variable is pushed before "pipeline {". */
  function JenkinsLinesAsWritten(p: PipelineExport): seq<string> {
    JenkinsAgentVar(p.agent) + JenkinsOpenLines(p.agent) + Flatten(p.environment, JenkinsEnvLine) + JenkinsStagesOpen()
      + Flatten(p.stages, JenkinsStageLines) + JenkinsCloseLines()
  }

  method PushJenkinsStage(text: string, ghost lines: seq<string>, s: StageExport) returns (r: string, ghost all: seq<string>)
    requires text == Text(lines)
    ensures all == lines + JenkinsStageLines(s) && r == Text(all)
  {
    r, all := PushLines(text, lines, [JenkinsStageHeader(s)]);
    ghost var headed := all;
    if s.when.Some? {
      r, all := PushLines(r, all, JenkinsWhenLines(s.when));
    } else {
      assert all == headed + JenkinsWhenLines(s.when);
    }
    r, all := PushLines(r, all, ["            steps {"]);
    r, all := PushEach(r, all, s.steps, JenkinsStepLines);
    r, all := PushLines(r, all, JenkinsStageClose());
    Regroup5(lines, [JenkinsStageHeader(s)], JenkinsWhenLines(s.when), ["            steps {"], Flatten(s.steps, JenkinsStepLines),
      JenkinsStageClose());
  }

  method PushJenkinsStages(text: string, ghost lines: seq<string>, stages: seq<StageExport>) returns (r: string, ghost all: seq<string>)
    requires text == Text(lines)
    ensures all == lines + Flatten(stages, JenkinsStageLines) && r == Text(all)
  {
    r, all := text, lines;
    var i := 0;
    while i < |stages|
      invariant 0 <= i <= |stages|
      invariant all == lines + Flatten(stages[..i], JenkinsStageLines) && r == Text(all)
    {
      r, all := PushJenkinsStage(r, all, stages[i]);
      FlattenStep(lines, stages, JenkinsStageLines, i);
      i := i + 1;
    }
    assert stages[..i] == stages;
  }

  /** Lines pushed in six runs onto an empty text. */
  lemma FromEmpty(a: seq<string>, b: seq<string>, c: seq<string>, d: seq<string>, e: seq<string>, f: seq<string>)
    ensures [] + a + b + c + d + e + f == a + b + c + d + e + f
  {
  }

  /** `export_jenkinsfile`: the agent variable line is pushed before "pipeline {". */
  method ExportJenkinsfile(p: PipelineExport, config: ExportConfig) returns (text: string)
    ensures text == Text(JenkinsLinesAsWritten(p))
  {
    ghost var lines: seq<string>;
    text, lines := PushLines("", [], JenkinsAgentVar(p.agent));
    text, lines := PushLines(text, lines, JenkinsOpenLines(p.agent));
    text, lines := PushEach(text, lines, p.environment, JenkinsEnvLine);
    text, lines := PushLines(text, lines, JenkinsStagesOpen());
    text, lines := PushJenkinsStages(text, lines, p.stages);
    text, lines := PushLines(text, lines, JenkinsCloseLines());
    FromEmpty(JenkinsAgentVar(p.agent), JenkinsOpenLines(p.agent), Flatten(p.environment, JenkinsEnvLine), JenkinsStagesOpen(),
      Flatten(p.stages, JenkinsStageLines), JenkinsCloseLines());
  }

  // ---------------------------------------------------------------------
  // Export
  // ---------------------------------------------------------------------

  function ExportLines(p: PipelineExport, config: ExportConfig): seq<string> {
    match config.format
    case GitHubActions => GithubLines(p, config)
    case GitLabCi => GitlabLines(p)
    case Jenkinsfile => JenkinsLinesAsWritten(p)
  }

  /** `export_pipeline` on the text of the script file and what the patterns capture in it. */
  method ExportPipeline(content: string, caps: Captures, config: ExportConfig) returns (r: Result<string, string>)
    ensures r.Ok? && r.value == Text(ExportLines(ParsePipeline(content, caps), config))
  {
    var stages := ExtractStages(content, caps.stages);
    var p := PipelineExport(if caps.name.Some? then caps.name.value else "", stages, caps.environment,
                            ExtractAgent(content, caps));
    var text;
    match config.format {
      case GitHubActions => text := ExportGithubActions(p, config);
      case GitLabCi => text := ExportGitlabCi(p, config);
      case Jenkinsfile => text := ExportJenkinsfile(p, config);
    }
    r := Ok(text);
  }
}
