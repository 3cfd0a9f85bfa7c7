/**
 * The GitHub Actions backend of `rustline`: a pipeline becomes a workflow
 * text with a fixed header, an optional `env:` block and one job per stage.
 *
 * Every piece the backend pushes is a run of whole lines, so the workflow
 * and each job are specified by their list of lines (`WorkflowLines`,
 * `StageLines`) and the text is `Text` of that list. `Translate` and
 * `TranslateStage` build the text by appending to an accumulating string,
 * as the backend does, and are proved to produce those texts. Step and
 * condition rendering are pure.
 */
module RustlineGithub {
  import opened Wrappers
  import opened Strings
  import opened Durations
  import opened Assoc
  import opened TextLines
  import opened RustlineErrors
  import opened RustlineSteps
  import opened RustlineStage
  import RustlinePost
  import RustlineAgent
  import RustlinePipeline

  // ---------------------------------------------------------------------
  // Job names
  // ---------------------------------------------------------------------

  /** `sanitize_job_name`: letters and digits are kept, every other character becomes '_'. */
  function SanitizeJobName(name: string): (r: string)
    ensures |r| == |name|
    ensures forall i :: 0 <= i < |name| ==>
      (IsAlphanumeric(name[i]) ==> r[i] == name[i]) && (!IsAlphanumeric(name[i]) ==> r[i] == '_')
    decreases |name|
  {
    if name == [] then []
    else [if IsAlphanumeric(name[0]) then name[0] else '_'] + SanitizeJobName(name[1..])
  }

  /** A job name made only of letters, digits and '_'. */
  predicate IsJobName(s: string) {
    forall i :: 0 <= i < |s| ==> IsAlphanumeric(s[i]) || s[i] == '_'
  }

  /** Sanitizing yields a job name, leaves letters-and-digits names alone, and is idempotent. */
  lemma SanitizeJobNameSafe(name: string)
    ensures IsJobName(SanitizeJobName(name))
    ensures (forall i :: 0 <= i < |name| ==> IsAlphanumeric(name[i])) ==> SanitizeJobName(name) == name
    ensures SanitizeJobName(SanitizeJobName(name)) == SanitizeJobName(name)
  {
  }

  /**
   * Two words of letters and digits joined by any other character, as in
   * "Build Stage" and "Test@Production", keep the words with '_' between them.
   */
  lemma SanitizeJobNameSeparated(a: string, c: char, b: string)
    requires forall i :: 0 <= i < |a| ==> IsAlphanumeric(a[i])
    requires forall i :: 0 <= i < |b| ==> IsAlphanumeric(b[i])
    requires !IsAlphanumeric(c)
    ensures SanitizeJobName(a + [c] + b) == a + "_" + b
  {
    SanitizeJobNameAppend(a + [c], b);
    SanitizeJobNameAppend(a, [c]);
    SanitizeJobNameKeeps(a);
    SanitizeJobNameKeeps(b);
    assert SanitizeJobName([c]) == "_";
  }

  /** A name of letters and digits only is its own sanitized form. */
  lemma SanitizeJobNameKeeps(a: string)
    requires forall i :: 0 <= i < |a| ==> IsAlphanumeric(a[i])
    ensures SanitizeJobName(a) == a
  {
  }

  /** Sanitizing works character by character, so it distributes over concatenation. */
  lemma {:induction false} SanitizeJobNameAppend(a: string, b: string)
    ensures SanitizeJobName(a + b) == SanitizeJobName(a) + SanitizeJobName(b)
    decreases |a|
  {
    if a == [] {
      assert a + b == b;
    } else {
      assert (a + b)[0] == a[0] && (a + b)[1..] == a[1..] + b;
      SanitizeJobNameAppend(a[1..], b);
    }
  }

  // ---------------------------------------------------------------------
  // When conditions
  // ---------------------------------------------------------------------

  /** `translate_when_condition`: a GitHub `if:` expression. */
  function WhenExpr(c: WhenCondition): string
    decreases c, 1
  {
    match c
    case Branch(b) => "github.ref == 'refs/heads/" + b + "'"
    case Tag(t) => "startsWith(github.ref, 'refs/tags/" + t + "')"
    case Environment(n, v) => "env." + n + " == '" + v + "'"
    case Expression(x) => x
    case AllOf(cs) => "(" + Join(Parenthesized(cs), " && ") + ")"
    case AnyOf(cs) => "(" + Join(Parenthesized(cs), " || ") + ")"
  }

  /** The children of `AllOf`/`AnyOf`, each translated and put in parentheses. */
  function Parenthesized(cs: seq<WhenCondition>): (r: seq<string>)
    ensures |r| == |cs|
    ensures forall i :: 0 <= i < |cs| ==> r[i] == "(" + WhenExpr(cs[i]) + ")"
    decreases cs, 0
  {
    if cs == [] then []
    else
      var rest := Parenthesized(cs[1..]);
      assert forall i :: 1 <= i < |cs| ==> cs[i] == cs[1..][i - 1];
      ["(" + WhenExpr(cs[0]) + ")"] + rest
  }

  /**
   * With a single child `AllOf` and `AnyOf` agree, the child wrapped twice;
   * two children are joined by the operator inside the outer parentheses.
   */
  lemma WhenCompound(c: WhenCondition, d: WhenCondition)
    ensures var wc := "(" + WhenExpr(c) + ")";
      WhenExpr(AllOf([c])) == WhenExpr(AnyOf([c])) == "(" + wc + ")"
    ensures var wc, wd := "(" + WhenExpr(c) + ")", "(" + WhenExpr(d) + ")";
      && WhenExpr(AllOf([c, d])) == "(" + (wc + " && " + wd) + ")"
      && WhenExpr(AnyOf([c, d])) == "(" + (wc + " || " + wd) + ")"
  {
    var wd := "(" + WhenExpr(d) + ")";
    assert Parenthesized([c, d])[1..] == Parenthesized([d]) == [wd];
    assert Join([wd], " && ") == wd;
  }

  // ---------------------------------------------------------------------
  // Steps
  // ---------------------------------------------------------------------

  /** `as_secs().div_ceil(60).max(1)`: the least whole number of minutes, at least one, covering the duration. */
  function TimeoutMinutes(d: Duration): (m: nat)
    ensures m >= 1 && m * 60 >= AsSecs(d)
    ensures m == 1 || (m - 1) * 60 < AsSecs(d)
  {
    var c := (AsSecs(d) + 59) / 60;
    if c < 1 then 1 else c
  }

  /** The tests' timeouts: 30 seconds and 300 seconds. */
  lemma TimeoutMinutesExamples()
    ensures TimeoutMinutes(FromSecs(30)) == 1
    ensures TimeoutMinutes(FromSecs(300)) == 5
  {
  }

  const BlockHead: string := "      - run: |"
  const UnsupportedStep: string := "      - # Step type not supported"

  /** Lines of a job body: indented by at least four spaces. */
  predicate IsBodyLine(l: string) {
    |l| >= 4 && l[0] == ' ' && l[1] == ' ' && l[2] == ' ' && l[3] == ' '
  }

  /** `translate_step`: the lines of one item of the job's `steps:`; a retry or timeout wraps its inner step. */
  function StepLines(s: Step): (r: seq<string>)
    ensures |r| >= 1
    ensures forall i :: 0 <= i < |r| ==> IsBodyLine(r[i])
    decreases s
  {
    match s.stepType
    case Shell(cmd) => ["      - run: " + cmd]
    case Echo(msg) => ["      - run: echo '" + msg + "'"]
    case Timeout(d, inner) =>
      [BlockHead] + StepLines(inner) + ["    timeout-minutes: " + NatToString(TimeoutMinutes(d))]
    case Retry(_, inner) => [BlockHead] + StepLines(inner) + ["    continue-on-error: true"]
    case _ => [UnsupportedStep]
  }

  /** The tests' steps: a shell command, an echo, and a retried shell command. */
  lemma StepLinesExamples(cmd: string, msg: string, n: nat)
    ensures StepLines(NewStep(Shell(cmd))) == ["      - run: " + cmd]
    ensures StepLines(NewStep(Echo(msg))) == ["      - run: echo '" + msg + "'"]
    ensures StepLines(RetryStep(n, NewStep(Shell(cmd))))
      == [BlockHead, "      - run: " + cmd, "    continue-on-error: true"]
  {
  }

  /** The lines of a list of steps, one step after the other. */
  function StepsLines(steps: seq<Step>): seq<string> {
    Flatten(steps, StepLines)
  }

  /** Step lines are body lines. */
  lemma StepsBody(steps: seq<Step>)
    ensures AllBody(StepsLines(steps))
  {
    FlattenAll(steps, StepLines, IsBodyLine);
  }

  // ---------------------------------------------------------------------
  // Jobs
  // ---------------------------------------------------------------------

  /** The names of the parallel branches, in order. */
  function BranchNames(bs: seq<ParallelBranch>): (r: seq<string>)
    ensures |r| == |bs|
    ensures forall i :: 0 <= i < |bs| ==> r[i] == bs[i].name
  {
    if bs == [] then [] else BranchNames(bs[..|bs| - 1]) + [bs[|bs| - 1].name]
  }

  /** The matrix strategy of a stage with parallel branches: the branch names as the `os` values. */
  function MatrixLines(bs: seq<ParallelBranch>): seq<string> {
    if bs == [] then []
    else ["    strategy:", "      matrix:", "        os: [" + Join(BranchNames(bs), ", ") + "]"]
  }

  /** The `runs-on:` lines for the stage's agent: a label names the runner, Docker adds a container. */
  function RunsOnLines(agent: Option<RustlineAgent.AgentType>): seq<string> {
    if agent.Some? && agent.value.Label? then ["    runs-on: " + agent.value.text]
    else if agent.Some? && agent.value.Docker? then
      ["    runs-on: ubuntu-latest", "    container:", "      image: docker.io/library/rust:latest"]
    else ["    runs-on: ubuntu-latest"]
  }

  /** The `if:` line of a stage with a when condition. */
  function IfLines(when: Option<WhenCondition>): seq<string> {
    if when.Some? then ["    if: " + WhenExpr(when.value)] else []
  }

  /** One post condition: `always` steps as they are, `failure` steps under `if: failure()`, others dropped. */
  function PostLines(p: RustlinePost.PostCondition): seq<string> {
    match p
    case Always(steps) => StepsLines(steps)
    case OnFailure(steps) => ["    if: failure()"] + StepsLines(steps)
    case _ => []
  }

  function PostsLines(ps: seq<RustlinePost.PostCondition>): seq<string> {
    Flatten(ps, PostLines)
  }

  /** The job header line of a stage. */
  function JobHeader(s: Stage): string {
    "  " + SanitizeJobName(s.name) + ":"
  }

  /** The lines of the job of one stage, in the order `translate_stage` pushes them. */
  function StageLines(s: Stage): (r: seq<string>)
    ensures |r| >= 1
  {
    [JobHeader(s)] + JobSetupLines(s) + ["    steps:"] + StepsLines(s.steps)
  }

  /** The lines between a job's header and its `steps:`: matrix, runner, condition and post conditions. */
  function JobSetupLines(s: Stage): seq<string> {
    MatrixLines(s.parallel) + RunsOnLines(s.agent) + IfLines(s.when) + PostsLines(s.post)
  }

  /** A job header line: two spaces and then not a space. */
  predicate IsJobLine(l: string) {
    |l| >= 3 && l[0] == ' ' && l[1] == ' ' && l[2] != ' '
  }

  /** Every line of the list is a body line. */
  predicate AllBody(ls: seq<string>) {
    forall k :: 0 <= k < |ls| ==> IsBodyLine(ls[k])
  }

  lemma AllBodyAppend(a: seq<string>, b: seq<string>)
    requires AllBody(a) && AllBody(b)
    ensures AllBody(a + b)
  {
  }

  /** The matrix, runner and condition lines are body lines. */
  lemma MatrixBody(bs: seq<ParallelBranch>)
    ensures AllBody(MatrixLines(bs))
  {
    if bs != [] {
      var os := "        os: [" + Join(BranchNames(bs), ", ") + "]";
      assert os[..4] == "    ";
    }
  }

  lemma RunsOnBody(agent: Option<RustlineAgent.AgentType>)
    ensures AllBody(RunsOnLines(agent))
  {
  }

  lemma IfBody(when: Option<WhenCondition>)
    ensures AllBody(IfLines(when))
  {
  }

  /** The lines between a job's header and its `steps:` are body lines. */
  lemma JobSetupBody(s: Stage)
    ensures AllBody(JobSetupLines(s))
  {
    MatrixBody(s.parallel);
    RunsOnBody(s.agent);
    IfBody(s.when);
    PostsBody(s.post);
    AllBodyAppend(MatrixLines(s.parallel), RunsOnLines(s.agent));
    AllBodyAppend(MatrixLines(s.parallel) + RunsOnLines(s.agent), IfLines(s.when));
    AllBodyAppend(MatrixLines(s.parallel) + RunsOnLines(s.agent) + IfLines(s.when), PostsLines(s.post));
  }

  /** A job header is a job line. */
  lemma JobHeaderIsJobLine(s: Stage)
    ensures IsJobLine(JobHeader(s))
  {
    var n := SanitizeJobName(s.name);
    assert JobHeader(s)[2] == (n + ":")[0];
    if |n| > 0 {
      SanitizeJobNameSafe(s.name);
      assert n[0] != ' ';
    }
  }

  /**
   * A job is its header line followed by body lines only, and it ends with
   * `steps:` and the stage's own steps.
   */
  lemma StageLinesShape(s: Stage)
    ensures var r := StageLines(s);
      && IsJobLine(r[0]) && r[0] == JobHeader(s)
      && (forall k :: 1 <= k < |r| ==> IsBodyLine(r[k]))
      && r[|r| - |StepsLines(s.steps)| - 1..] == ["    steps:"] + StepsLines(s.steps)
  {
    var r := StageLines(s);
    var middle := JobSetupLines(s);
    var tail := ["    steps:"] + StepsLines(s.steps);
    assert r == [JobHeader(s)] + middle + tail;
    JobHeaderIsJobLine(s);
    JobSetupBody(s);
    StepsBody(s.steps);
    assert AllBody(tail);
    AllBodyAppend(middle, tail);
    assert r[1..] == middle + tail;
    assert r[|r| - |tail|..] == tail;
  }

  /** Post-condition lines are body lines. */
  lemma PostsBody(ps: seq<RustlinePost.PostCondition>)
    ensures AllBody(PostsLines(ps))
  {
    forall p | p in ps
      ensures forall k :: 0 <= k < |PostLines(p)| ==> IsBodyLine(PostLines(p)[k])
    {
      StepsBody(p.steps);
    }
    FlattenAll(ps, PostLines, IsBodyLine);
  }

  /** The matrix of the test's two branches lists their names. */
  lemma MatrixExample(a: Stage, b: Stage)
    ensures MatrixLines([ParallelBranch("Linux", a), ParallelBranch("Mac", b)])[2]
      == "        os: [" + "Linux" + ", " + "Mac" + "]"
  {
    var bs := [ParallelBranch("Linux", a), ParallelBranch("Mac", b)];
    assert BranchNames(bs) == ["Linux", "Mac"];
    assert ["Linux", "Mac"][1..] == ["Mac"];
  }

  /** `translate_stage`, the matrix strategy: the branch names gathered in order, as the `os` values. */
  method PushMatrix(job: string, ghost lines: seq<string>, bs: seq<ParallelBranch>) returns (r: string, ghost all: seq<string>)
    requires job == Text(lines)
    ensures all == lines + MatrixLines(bs) && r == Text(all)
  {
    r, all := job, lines;
    if bs != [] {
      r, all := PushLines(r, all, ["    strategy:"]);
      r, all := PushLines(r, all, ["      matrix:"]);
      var osValues := [];
      var i := 0;
      while i < |bs|
        invariant 0 <= i <= |bs|
        invariant osValues == BranchNames(bs[..i])
      {
        assert bs[..i + 1][..i] == bs[..i];
        osValues := osValues + [bs[i].name];
        i := i + 1;
      }
      assert bs[..i] == bs;
      r, all := PushLines(r, all, ["        os: [" + Join(osValues, ", ") + "]"]);
    }
  }

  /** `translate_stage`, the runner: a label, or a Docker container on ubuntu-latest, or ubuntu-latest. */
  method PushRunsOn(job: string, ghost lines: seq<string>, agent: Option<RustlineAgent.AgentType>)
    returns (r: string, ghost all: seq<string>)
    requires job == Text(lines)
    ensures all == lines + RunsOnLines(agent) && r == Text(all)
  {
    if agent.Some? && agent.value.Label? {
      r, all := PushLines(job, lines, ["    runs-on: " + agent.value.text]);
    } else if agent.Some? && agent.value.Docker? {
      r, all := PushLines(job, lines, ["    runs-on: ubuntu-latest"]);
      r, all := PushLines(r, all, ["    container:"]);
      r, all := PushLines(r, all, ["      image: docker.io/library/rust:latest"]);
    } else {
      r, all := PushLines(job, lines, ["    runs-on: ubuntu-latest"]);
    }
  }

  /** One round of the post-condition loop of `translate_stage`. */
  method PushPost(job: string, ghost lines: seq<string>, p: RustlinePost.PostCondition) returns (r: string, ghost all: seq<string>)
    requires job == Text(lines)
    ensures all == lines + PostLines(p) && r == Text(all)
  {
    match p {
      case Always(steps) =>
        r, all := PushEach(job, lines, steps, StepLines);
      case OnFailure(steps) =>
        r, all := PushLines(job, lines, ["    if: failure()"]);
        r, all := PushEach(r, all, steps, StepLines);
      case _ =>
        r, all := job, lines;
    }
  }

  /** The post-condition loop of `translate_stage`. */
  method PushPosts(job: string, ghost lines: seq<string>, ps: seq<RustlinePost.PostCondition>)
    returns (r: string, ghost all: seq<string>)
    requires job == Text(lines)
    ensures all == lines + PostsLines(ps) && r == Text(all)
  {
    r, all := job, lines;
    var k := 0;
    while k < |ps|
      invariant 0 <= k <= |ps|
      invariant all == lines + Flatten(ps[..k], PostLines) && r == Text(all)
    {
      r, all := PushPost(r, all, ps[k]);
      FlattenStep(lines, ps, PostLines, k);
      k := k + 1;
    }
    assert ps[..k] == ps;
  }

  /** `translate_stage` between the job header and `steps:`. */
  method PushSetup(job: string, ghost lines: seq<string>, s: Stage) returns (r: string, ghost all: seq<string>)
    requires job == Text(lines)
    ensures all == lines + JobSetupLines(s) && r == Text(all)
  {
    var matrix, runsOn, cond := MatrixLines(s.parallel), RunsOnLines(s.agent), IfLines(s.when);
    r, all := PushMatrix(job, lines, s.parallel);
    r, all := PushRunsOn(r, all, s.agent);
    ghost var beforeCond := all;
    if s.when.Some? {
      r, all := PushLines(r, all, ["    if: " + WhenExpr(s.when.value)]);
    } else {
      assert beforeCond + cond == beforeCond;
    }
    r, all := PushPosts(r, all, s.post);
    Regroup(lines, matrix, runsOn, cond, PostsLines(s.post));
  }

  /** `translate_stage`: the job built line by line. */
  method TranslateStage(s: Stage) returns (job: string)
    ensures job == Text(StageLines(s))
  {
    ghost var lines: seq<string>;
    job, lines := PushLines("", [], [JobHeader(s)]);
    job, lines := PushSetup(job, lines, s);
    job, lines := PushLines(job, lines, ["    steps:"]);
    job, lines := PushEach(job, lines, s.steps, StepLines);
  }

  // ---------------------------------------------------------------------
  // Workflows
  // ---------------------------------------------------------------------

  const HeaderLines: seq<string> := ["name: CI", "", "on: [push]", ""]

  /** The `  key: value` lines of the environment, in the map's iteration order. */
  function VarLines(vars: Entries<string>): (r: seq<string>)
    ensures |r| == |vars|
  {
    if vars == [] then []
    else
      var (key, value) := vars[|vars| - 1];
      VarLines(vars[..|vars| - 1]) + ["  " + key + ": " + value]
  }

  /** The `env:` block, present only when there are environment variables. */
  function EnvLines(vars: Entries<string>): seq<string> {
    if vars == [] then [] else ["env:"] + VarLines(vars) + [""]
  }

  function StagesLines(stages: seq<Stage>): seq<string> {
    Flatten(stages, StageLines)
  }

  /** The lines of the workflow `translate` returns. */
  function WorkflowLines(p: RustlinePipeline.Pipeline): seq<string> {
    HeaderLines + EnvLines(p.environment.vars) + ["jobs:"] + StagesLines(p.stages)
  }

  /** `translate`, the environment: `env:`, one line per variable, then a blank line, only when there are variables. */
  method PushEnv(yaml: string, ghost lines: seq<string>, vars: Entries<string>) returns (r: string, ghost all: seq<string>)
    requires yaml == Text(lines)
    ensures all == lines + EnvLines(vars) && r == Text(all)
  {
    r, all := yaml, lines;
    if vars != [] {
      r, all := PushLines(r, all, ["env:"]);
      r, all := PushVars(r, all, vars);
      r, all := PushLines(r, all, [""]);
      assert all == lines + (["env:"] + VarLines(vars) + [""]);
    }
  }

  /** The variable loop of `translate`: one `  key: value` line per variable. */
  method PushVars(yaml: string, ghost lines: seq<string>, vars: Entries<string>) returns (r: string, ghost all: seq<string>)
    requires yaml == Text(lines)
    ensures all == lines + VarLines(vars) && r == Text(all)
  {
    r, all := yaml, lines;
    var i := 0;
    while i < |vars|
      invariant 0 <= i <= |vars|
      invariant all == lines + VarLines(vars[..i]) && r == Text(all)
    {
      assert vars[..i + 1][..i] == vars[..i];
      var (key, value) := vars[i];
      r, all := PushLines(r, all, ["  " + key + ": " + value]);
      i := i + 1;
    }
    assert vars[..i] == vars;
  }

  /** `translate`, the jobs: the job of each stage in turn. */
  method PushJobs(yaml: string, ghost lines: seq<string>, stages: seq<Stage>) returns (r: string, ghost all: seq<string>)
    requires yaml == Text(lines)
    ensures all == lines + StagesLines(stages) && r == Text(all)
  {
    r, all := yaml, lines;
    var j := 0;
    while j < |stages|
      invariant 0 <= j <= |stages|
      invariant all == lines + Flatten(stages[..j], StageLines) && r == Text(all)
    {
      var job := TranslateStage(stages[j]);
      TextAppend(all, StageLines(stages[j]));
      r, all := r + job, all + StageLines(stages[j]);
      FlattenStep(lines, stages, StageLines, j);
      j := j + 1;
    }
    assert stages[..j] == stages;
  }

  /** `translate`: the header, the environment, then each stage's job; it never fails. */
  method Translate(p: RustlinePipeline.Pipeline) returns (r: Result<string, PipelineError>)
    ensures r.Ok? && r.value == Text(WorkflowLines(p))
  {
    ghost var lines: seq<string>;
    var yaml;
    yaml, lines := PushLines("", [], ["name: CI", ""]);
    yaml, lines := PushLines(yaml, lines, ["on: [push]", ""]);
    yaml, lines := PushEnv(yaml, lines, p.environment.vars);
    yaml, lines := PushLines(yaml, lines, ["jobs:"]);
    assert lines == HeaderLines + EnvLines(p.environment.vars) + ["jobs:"];
    yaml, lines := PushJobs(yaml, lines, p.stages);
    r := Ok(yaml);
  }

  /**
   * Every workflow begins with the fixed header; an `env:` block follows it
   * exactly when the pipeline has environment variables, with one line per
   * variable; otherwise `jobs:` follows at once.
   */
  lemma WorkflowStart(p: RustlinePipeline.Pipeline)
    ensures var w := WorkflowLines(p);
      && |w| > 4 && w[..4] == HeaderLines
      && (w[4] == "env:" <==> p.environment.vars != [])
      && (p.environment.vars == [] ==> w[4] == "jobs:")
      && (p.environment.vars != [] ==>
            |w| > 6 + |p.environment.vars| && w[5 + |p.environment.vars|] == "" && w[6 + |p.environment.vars|] == "jobs:")
  {
    var vars := p.environment.vars;
    var w := WorkflowLines(p);
    if vars == [] {
      assert w == HeaderLines + ["jobs:"] + StagesLines(p.stages);
      assert "jobs:" != "env:" by { assert |"jobs:"| == 5; }
    } else {
      assert w == HeaderLines + (["env:"] + VarLines(vars) + [""]) + ["jobs:"] + StagesLines(p.stages);
    }
  }

  /**
   * One job per stage, in stage order: a line of the jobs is a job header
   * exactly when some stage's job begins there, and the job of stage `i`
   * begins with that stage's sanitized header.
   */
  lemma JobsInOrder(stages: seq<Stage>, k: nat)
    requires k < |StagesLines(stages)|
    ensures IsJobLine(StagesLines(stages)[k]) <==> exists i :: 0 <= i < |stages| && k == StartOf(stages, StageLines, i)
    ensures forall i :: 0 <= i < |stages| && k == StartOf(stages, StageLines, i) ==> StagesLines(stages)[k] == JobHeader(stages[i])
  {
    forall x, j | x in stages && 1 <= j < |StageLines(x)|
      ensures !IsJobLine(StageLines(x)[j])
    {
      StageLinesShape(x);
    }
    if IsJobLine(StagesLines(stages)[k]) {
      FlattenHeads(stages, StageLines, IsJobLine, k);
    }
    forall i | 0 <= i < |stages| && k == StartOf(stages, StageLines, i)
      ensures StagesLines(stages)[k] == JobHeader(stages[i]) && IsJobLine(StagesLines(stages)[k])
    {
      StageLinesShape(stages[i]);
      FlattenStart(stages, StageLines, i);
    }
  }
}
