/**
 * The GitLab CI backend of `rustline`: a pipeline becomes a configuration
 * text with an optional `variables:` block, the `stages:` list and one job
 * per stage, or one job per parallel branch of a stage.
 *
 * As for the GitHub backend, every piece is a run of whole lines: the
 * configuration and each job are specified by their list of lines
 * (`ConfigLines`, `StageJobLines`) and the text is `Text` of that list.
 * `Translate` and `TranslateStage` build the text by appending to an
 * accumulating string and are proved to produce those texts.
 *
 * Two places of the backend are modelled twice, as written and corrected.
 * The translation follows the code as written (`RuleAsWritten`,
 * `StageListAsWritten`); `Rule` and `StageList` are the corrected
 * references, used only by the lemmas that compare the two.
 */
module RustlineGitlab {
  import opened Wrappers
  import opened Strings
  import opened Durations
  import opened Assoc
  import opened TextLines
  import opened RustlineErrors
  import opened RustlineSteps
  import opened RustlineStage
  import RustlinePost
  import RustlineAgent
  import RustlinePipeline

  // ---------------------------------------------------------------------
  // Names
  // ---------------------------------------------------------------------

  /** The characters both sanitizers keep: letters, digits, '-' and '_'. */
  predicate Kept(c: char) {
    IsAlphanumeric(c) || c == '-' || c == '_'
  }

  /** The map both sanitizers apply: kept characters stay, every other becomes `fill`. */
  function SanitizeWith(name: string, fill: char): (r: string)
    ensures |r| == |name|
    ensures forall i :: 0 <= i < |name| ==> r[i] == (if Kept(name[i]) then name[i] else fill)
    decreases |name|
  {
    if name == [] then [] else [if Kept(name[0]) then name[0] else fill] + SanitizeWith(name[1..], fill)
  }

  /** `sanitize_stage_name`: other characters become '-'. */
  function SanitizeStageName(name: string): string {
    SanitizeWith(name, '-')
  }

  /** `sanitize_job_name`: other characters become '_'. */
  function SanitizeJobName(name: string): string {
    SanitizeWith(name, '_')
  }

  /** A name made of kept characters only. */
  predicate IsCleanName(s: string) {
    forall i :: 0 <= i < |s| ==> Kept(s[i])
  }

  /**
   * Both sanitizers give clean names of the same length, leave clean names
   * alone (so they are idempotent), and differ only in the replacement
   * character.
   */
  lemma SanitizeNames(name: string)
    ensures IsCleanName(SanitizeStageName(name)) && IsCleanName(SanitizeJobName(name))
    ensures IsCleanName(name) ==> SanitizeStageName(name) == name && SanitizeJobName(name) == name
    ensures SanitizeStageName(SanitizeStageName(name)) == SanitizeStageName(name)
    ensures SanitizeJobName(SanitizeJobName(name)) == SanitizeJobName(name)
    ensures forall i :: 0 <= i < |name| ==>
      (SanitizeStageName(name)[i] == '-' && SanitizeJobName(name)[i] == '_') || SanitizeStageName(name)[i] == SanitizeJobName(name)[i] == name[i]
  {
  }

  /** Sanitizing works character by character, so it distributes over concatenation. */
  lemma SanitizeAppend(a: string, b: string, fill: char)
    ensures SanitizeWith(a + b, fill) == SanitizeWith(a, fill) + SanitizeWith(b, fill)
  {
    var l, r := SanitizeWith(a + b, fill), SanitizeWith(a, fill) + SanitizeWith(b, fill);
    forall i | 0 <= i < |a + b|
      ensures l[i] == r[i]
    {
      if i < |a| {
        assert (a + b)[i] == a[i];
      } else {
        assert (a + b)[i] == b[i - |a|];
      }
    }
  }

  /**
   * The backend's tests: one other character between two clean words, as
   * in "Build Stage" or "Test@123", becomes '-' in a stage name and '_' in a
   * job name.
   */
  lemma SanitizeSeparator(a: string, c: char, b: string)
    requires IsCleanName(a) && IsCleanName(b) && !Kept(c)
    ensures SanitizeStageName(a + [c] + b) == a + ['-'] + b
    ensures SanitizeJobName(a + [c] + b) == a + ['_'] + b
  {
    SeparatorFilled(a, c, b, '-');
    SeparatorFilled(a, c, b, '_');
  }

  lemma SeparatorFilled(a: string, c: char, b: string, fill: char)
    requires IsCleanName(a) && IsCleanName(b) && !Kept(c)
    ensures SanitizeWith(a + [c] + b, fill) == a + [fill] + b
  {
    SanitizeNames(a);
    SanitizeNames(b);
    SanitizeAppend(a + [c], b, fill);
    SanitizeAppend(a, [c], fill);
  }

  // ---------------------------------------------------------------------
  // Rules
  // ---------------------------------------------------------------------

  /** The GitLab expression of a when condition, before the `if: ` of its rule. */
  function RuleCondition(c: WhenCondition): string
    decreases c, 1
  {
    match c
    case Branch(b) => "$CI_COMMIT_BRANCH == \"" + b + "\""
    case Tag(t) => "$CI_COMMIT_TAG == \"" + t + "\""
    case Environment(n, v) => "$" + n + " == \"" + v + "\""
    case Expression(x) => x
    case AllOf(cs) => Join(RuleConditions(cs), " && ")
    case AnyOf(cs) => Join(RuleConditions(cs), " || ")
  }

  function RuleConditions(cs: seq<WhenCondition>): (r: seq<string>)
    ensures |r| == |cs|
    ensures forall i :: 0 <= i < |cs| ==> r[i] == RuleCondition(cs[i])
    decreases cs, 0
  {
    if cs == [] then []
    else
      assert forall i :: 1 <= i < |cs| ==> cs[i] == cs[1..][i - 1];
      [RuleCondition(cs[0])] + RuleConditions(cs[1..])
  }

  /** `translate_when_condition`, corrected: one `if: ` in front of the whole condition. */
  function Rule(c: WhenCondition): string {
    "if: " + RuleCondition(c)
  }

  /**
   * `translate_when_condition` as written: the children of `AllOf`/`AnyOf`
   * are translated by the same function, so each keeps its own `if: `.
   */
  function RuleAsWritten(c: WhenCondition): string
    decreases c, 1
  {
    match c
    case Branch(b) => "if: $CI_COMMIT_BRANCH == \"" + b + "\""
    case Tag(t) => "if: $CI_COMMIT_TAG == \"" + t + "\""
    case Environment(n, v) => "if: $" + n + " == \"" + v + "\""
    case Expression(x) => "if: " + x
    case AllOf(cs) => "if: " + Join(RulesAsWritten(cs), " && ")
    case AnyOf(cs) => "if: " + Join(RulesAsWritten(cs), " || ")
  }

  function RulesAsWritten(cs: seq<WhenCondition>): (r: seq<string>)
    ensures |r| == |cs|
    ensures forall i :: 0 <= i < |cs| ==> r[i] == RuleAsWritten(cs[i])
    decreases cs, 0
  {
    if cs == [] then []
    else
      assert forall i :: 1 <= i < |cs| ==> cs[i] == cs[1..][i - 1];
      [RuleAsWritten(cs[0])] + RulesAsWritten(cs[1..])
  }

  /** On the simple conditions the two translations agree. */
  lemma RuleSimple(c: WhenCondition)
    requires !c.AllOf? && !c.AnyOf?
    ensures RuleAsWritten(c) == Rule(c)
  {
  }

  /**
   * As written, a compound condition of one child is the child's rule with
   * a second `if: ` in front, so it differs from the child's rule.
   */
  lemma RuleAsWrittenDoubled(c: WhenCondition)
    ensures RuleAsWritten(AllOf([c])) == "if: " + RuleAsWritten(c)
    ensures RuleAsWritten(AnyOf([c])) == "if: " + RuleAsWritten(c)
    ensures RuleAsWritten(AllOf([c])) != RuleAsWritten(c)
  {
    assert RulesAsWritten([c]) == [RuleAsWritten(c)];
    assert |RuleAsWritten(AllOf([c]))| == |RuleAsWritten(c)| + 4;
  }

  /** For instance a branch condition inside `AllOf` renders as `if: if: $CI_COMMIT_BRANCH == "..."`. */
  lemma RuleAsWrittenBranch(b: string)
    ensures RuleAsWritten(AllOf([Branch(b)])) == "if: if: $CI_COMMIT_BRANCH == \"" + b + "\""
  {
    RuleAsWrittenDoubled(Branch(b));
  }

  /** Corrected, a compound condition of one child is that child's rule. */
  lemma RuleSingle(c: WhenCondition)
    ensures Rule(AllOf([c])) == Rule(AnyOf([c])) == Rule(c)
  {
    assert RuleConditions([c]) == [RuleCondition(c)];
  }

  /** Corrected, two children are joined by the operator under a single `if: `. */
  lemma RulePair(c: WhenCondition, d: WhenCondition)
    ensures Rule(AllOf([c, d])) == "if: " + RuleCondition(c) + " && " + RuleCondition(d)
    ensures Rule(AnyOf([c, d])) == "if: " + RuleCondition(c) + " || " + RuleCondition(d)
  {
    PairCondition(c, d);
  }

  lemma PairCondition(c: WhenCondition, d: WhenCondition)
    ensures RuleCondition(AllOf([c, d])) == RuleCondition(c) + " && " + RuleCondition(d)
    ensures RuleCondition(AnyOf([c, d])) == RuleCondition(c) + " || " + RuleCondition(d)
  {
    var rc := RuleConditions([c, d]);
    assert rc == [RuleCondition(c), RuleCondition(d)];
    JoinTwo(RuleCondition(c), RuleCondition(d), " && ");
    JoinTwo(RuleCondition(c), RuleCondition(d), " || ");
  }

  lemma JoinTwo(a: string, b: string, sep: string)
    ensures Join([a, b], sep) == a + sep + b
  {
    assert [a, b][1..] == [b];
  }

  /** The backend's test: a branch condition. */
  lemma RuleBranchExample()
    ensures Rule(Branch("main")) == "if: $CI_COMMIT_BRANCH == \"main\""
  {
  }

  // ---------------------------------------------------------------------
  // Steps
  // ---------------------------------------------------------------------

  /** `translate_step`: one script line per step; only shell and echo steps have a translation. */
  function ScriptLine(s: Step): string {
    match s.stepType
    case Shell(cmd) => "    - " + cmd
    case Echo(msg) => "    - echo '" + msg + "'"
    case _ => "    - # Step type not supported"
  }

  function StepLines(s: Step): seq<string> {
    [ScriptLine(s)]
  }

  /** The script lines of a list of steps. */
  function ScriptLines(steps: seq<Step>): seq<string> {
    Flatten(steps, StepLines)
  }

  /** One script line per step, in step order. */
  lemma {:induction false} ScriptLinesEach(steps: seq<Step>)
    ensures |ScriptLines(steps)| == |steps|
    ensures forall i :: 0 <= i < |steps| ==> ScriptLines(steps)[i] == ScriptLine(steps[i])
    decreases |steps|
  {
    if steps != [] {
      var init := steps[..|steps| - 1];
      ScriptLinesEach(init);
      forall i | 0 <= i < |init|
        ensures init[i] == steps[i]
      {
      }
    }
  }

  /** The backend's tests: a shell command and an echo. */
  lemma ScriptLineExamples(cmd: string, msg: string)
    ensures ScriptLine(NewStep(Shell(cmd))) == "    - " + cmd
    ensures ScriptLine(NewStep(Echo(msg))) == "    - echo '" + msg + "'"
  {
  }

  /** A line inside a job: it begins with a space. */
  predicate IsBodyLine(l: string) {
    |l| >= 1 && l[0] == ' '
  }

  predicate AllBody(ls: seq<string>) {
    forall k :: 0 <= k < |ls| ==> IsBodyLine(ls[k])
  }

  lemma AllBodyAppend(a: seq<string>, b: seq<string>)
    requires AllBody(a) && AllBody(b)
    ensures AllBody(a + b)
  {
  }

  lemma ScriptBody(steps: seq<Step>)
    ensures AllBody(ScriptLines(steps))
  {
    FlattenAll(steps, StepLines, IsBodyLine);
  }

  // ---------------------------------------------------------------------
  // Timeouts
  // ---------------------------------------------------------------------

  /** The duration of the first timeout step of the list, if any. */
  function FirstTimeout(steps: seq<Step>): (r: Option<Duration>)
    ensures r.None? <==> forall i :: 0 <= i < |steps| ==> !steps[i].stepType.Timeout?
    ensures r.Some? ==> exists i :: (0 <= i < |steps| && steps[i].stepType.Timeout?
      && steps[i].stepType.duration == r.value && forall j :: 0 <= j < i ==> !steps[j].stepType.Timeout?)
    decreases |steps|
  {
    if steps == [] then None
    else if steps[0].stepType.Timeout? then Some(steps[0].stepType.duration)
    else
      var r := FirstTimeout(steps[1..]);
      assert forall i :: 1 <= i < |steps| ==> steps[i] == steps[1..][i - 1];
      r
  }

  /** `(as_secs() / 60).max(1)`: whole minutes rounded down, at least one. */
  function TimeoutMinutes(d: Duration): (m: nat)
    ensures m >= 1
    ensures AsSecs(d) < 120 ==> m == 1
    ensures AsSecs(d) >= 60 ==> m * 60 <= AsSecs(d) < m * 60 + 60
  {
    var minutes := AsSecs(d) / 60;
    if minutes < 1 then 1 else minutes
  }

  /** Rounding down: the backend's 300 seconds are 5 minutes, and 90 seconds only 1. */
  lemma TimeoutMinutesExamples()
    ensures TimeoutMinutes(FromSecs(300)) == 5
    ensures TimeoutMinutes(FromSecs(90)) == 1
    ensures TimeoutMinutes(FromSecs(30)) == 1
  {
  }

  /** The `timeout:` line of a job: from the first timeout step only. */
  function TimeoutLines(steps: seq<Step>): seq<string> {
    match FirstTimeout(steps)
    case Some(d) => ["  timeout: " + NatToString(TimeoutMinutes(d)) + "m"]
    case None => []
  }

  /** A job has at most one `timeout:` line, and it has one exactly when some step is a timeout. */
  lemma TimeoutLinesCount(steps: seq<Step>, d: Duration, rest: seq<Step>)
    ensures |TimeoutLines(steps)| <= 1
    ensures |TimeoutLines(steps)| == 1 <==> exists i :: 0 <= i < |steps| && steps[i].stepType.Timeout?
    ensures TimeoutLines([TimeoutStep(d, NewStep(Shell("")))] + rest)
      == ["  timeout: " + NatToString(TimeoutMinutes(d)) + "m"]
  {
  }

  // ---------------------------------------------------------------------
  // Jobs
  // ---------------------------------------------------------------------

  /** The image line of a job: a Docker agent names its image, a label becomes the job's tags. */
  function ImageLines(agent: Option<RustlineAgent.AgentType>): seq<string> {
    if agent.Some? && agent.value.Docker? then ["  image: " + agent.value.docker.image]
    else if agent.Some? && agent.value.Label? then ["  tags: [" + agent.value.text + "]"]
    else []
  }

  /** The image line of a parallel branch's job: only a Docker agent has one. */
  function BranchImageLines(agent: Option<RustlineAgent.AgentType>): seq<string> {
    if agent.Some? && agent.value.Docker? then ["  image: " + agent.value.docker.image] else []
  }

  /** The `rules:` block of a stage with a when condition, its rule rendered as written. */
  function RulesLines(when: Option<WhenCondition>): seq<string> {
    if when.Some? then ["  rules:", "  - " + RuleAsWritten(when.value)] else []
  }

  /** An `always` post condition becomes an `after_script:` block; the others are dropped. */
  function AfterScriptLines(p: RustlinePost.PostCondition): seq<string> {
    if p.Always? then ["  after_script:"] + ScriptLines(p.steps) else []
  }

  function PostsLines(ps: seq<RustlinePost.PostCondition>): seq<string> {
    Flatten(ps, AfterScriptLines)
  }

  /** The `stage:` line of every job of a stage. */
  function StageLine(s: Stage): string {
    "  stage: " + SanitizeStageName(s.name)
  }

  /** The job of a stage without parallel branches, between its header and `script:`. */
  function JobSetupLines(s: Stage): seq<string> {
    [StageLine(s)] + ImageLines(s.agent) + TimeoutLines(s.steps) + RulesLines(s.when) + PostsLines(s.post)
  }

  /** The job of a stage without parallel branches. */
  function SingleJobLines(s: Stage): seq<string> {
    [SanitizeJobName(s.name) + ":"] + JobSetupLines(s) + ["  script:"] + ScriptLines(s.steps)
  }

  /** The job of one parallel branch: named after the stage and the branch, running the branch's steps. */
  function BranchJobLines(s: Stage, b: ParallelBranch): seq<string> {
    [SanitizeJobName(s.name + "_" + b.name) + ":", StageLine(s)] + BranchImageLines(s.agent) + RulesLines(s.when)
      + ["  script:"] + ScriptLines(b.stage.steps)
  }

  /** The jobs of the branches of `s`, as a function of the branch. */
  function BranchJobs(s: Stage): ParallelBranch -> seq<string> {
    b => BranchJobLines(s, b)
  }

  /** `translate_stage`: one job per parallel branch when there are any, otherwise the stage's own job. */
  function StageJobLines(s: Stage): seq<string> {
    if s.parallel != [] then Flatten(s.parallel, BranchJobs(s)) else SingleJobLines(s)
  }

  /** A job header line: it does not begin with a space. */
  predicate IsJobLine(l: string) {
    |l| >= 1 && l[0] != ' '
  }

  lemma HeaderIsJobLine(name: string)
    ensures IsJobLine(SanitizeJobName(name) + ":")
  {
    var h := SanitizeJobName(name) + ":";
    if |name| > 0 {
      assert h[0] == SanitizeJobName(name)[0];
    }
  }

  lemma SetupBody(s: Stage)
    ensures AllBody(JobSetupLines(s))
  {
    assert AllBody([StageLine(s)] + ImageLines(s.agent) + TimeoutLines(s.steps) + RulesLines(s.when));
    PostsBody(s.post);
    AllBodyAppend([StageLine(s)] + ImageLines(s.agent) + TimeoutLines(s.steps) + RulesLines(s.when), PostsLines(s.post));
  }

  lemma PostsBody(ps: seq<RustlinePost.PostCondition>)
    ensures AllBody(PostsLines(ps))
  {
    forall p | p in ps
      ensures AllBody(AfterScriptLines(p))
    {
      ScriptBody(p.steps);
    }
    FlattenAll(ps, AfterScriptLines, IsBodyLine);
  }

  /** A single job is its header followed by body lines. */
  lemma SingleJobShape(s: Stage)
    ensures var r := SingleJobLines(s);
      |r| >= 1 && r[0] == SanitizeJobName(s.name) + ":" && IsJobLine(r[0]) && AllBody(r[1..])
  {
    var r := SingleJobLines(s);
    HeaderIsJobLine(s.name);
    SetupBody(s);
    ScriptBody(s.steps);
    AllBodyAppend(JobSetupLines(s), ["  script:"] + ScriptLines(s.steps));
    assert r[1..] == JobSetupLines(s) + (["  script:"] + ScriptLines(s.steps));
  }

  /** A branch job is its header followed by body lines. */
  lemma BranchJobShape(s: Stage, b: ParallelBranch)
    ensures var r := BranchJobLines(s, b);
      |r| >= 1 && r[0] == SanitizeJobName(s.name + "_" + b.name) + ":" && IsJobLine(r[0]) && AllBody(r[1..])
  {
    var r := BranchJobLines(s, b);
    HeaderIsJobLine(s.name + "_" + b.name);
    var setup := [StageLine(s)] + BranchImageLines(s.agent) + RulesLines(s.when);
    assert AllBody(setup);
    ScriptBody(b.stage.steps);
    AllBodyAppend(setup, ["  script:"] + ScriptLines(b.stage.steps));
    assert r[1..] == setup + (["  script:"] + ScriptLines(b.stage.steps));
  }

  /**
   * A stage with parallel branches gives one job per branch, in branch
   * order: a line is a job header exactly where a branch's job begins, and
   * that header is the sanitized "<stage>_<branch>" name.
   */
  lemma BranchJobsInOrder(s: Stage, k: nat)
    requires s.parallel != [] && k < |StageJobLines(s)|
    ensures IsJobLine(StageJobLines(s)[k]) <==> exists i :: 0 <= i < |s.parallel| && k == StartOf(s.parallel, BranchJobs(s), i)
    ensures forall i :: 0 <= i < |s.parallel| && k == StartOf(s.parallel, BranchJobs(s), i) ==>
      StageJobLines(s)[k] == SanitizeJobName(s.name + "_" + s.parallel[i].name) + ":"
  {
    var f := BranchJobs(s);
    forall x, j | x in s.parallel && 1 <= j < |f(x)|
      ensures !IsJobLine(f(x)[j])
    {
      BranchJobShape(s, x);
      assert f(x)[j] == f(x)[1..][j - 1];
    }
    if IsJobLine(StageJobLines(s)[k]) {
      FlattenHeads(s.parallel, f, IsJobLine, k);
    }
    forall i | 0 <= i < |s.parallel| && k == StartOf(s.parallel, f, i)
      ensures StageJobLines(s)[k] == SanitizeJobName(s.name + "_" + s.parallel[i].name) + ":"
      ensures IsJobLine(StageJobLines(s)[k])
    {
      BranchJobShape(s, s.parallel[i]);
      FlattenStart(s.parallel, f, i);
    }
  }

  /** With parallel branches, the stage's own steps and post conditions are not rendered. */
  lemma ParallelIgnoresOwnSteps(s: Stage, steps: seq<Step>, post: seq<RustlinePost.PostCondition>)
    requires s.parallel != []
    ensures StageJobLines(s.(steps := steps, post := post)) == StageJobLines(s)
  {
    var t := s.(steps := steps, post := post);
    forall b | b in s.parallel
      ensures BranchJobs(t)(b) == BranchJobs(s)(b)
    {
    }
    FlattenSame(s.parallel, BranchJobs(t), BranchJobs(s));
  }

  /** Without branches, a timeout step yields the job's one `timeout:` line, from the first such step. */
  lemma SingleJobTimeout(s: Stage, i: nat)
    requires s.parallel == [] && i < |s.steps| && s.steps[i].stepType.Timeout?
    requires forall j :: 0 <= j < i ==> !s.steps[j].stepType.Timeout?
    ensures TimeoutLines(s.steps) == ["  timeout: " + NatToString(TimeoutMinutes(s.steps[i].stepType.duration)) + "m"]
  {
  }

  // ---------------------------------------------------------------------
  // The stages list
  // ---------------------------------------------------------------------

  /** The sanitized names of a list of stages. */
  function StageNames(stages: seq<Stage>): set<string>
    decreases |stages|
  {
    if stages == [] then {} else {SanitizeStageName(stages[0].name)} + StageNames(stages[1..])
  }

  /**
   * The `stages:` entries, corrected: the sanitized name of each stage once,
   * where it first occurs, skipping names already in `seen`.
   */
  function StageList(stages: seq<Stage>, seen: set<string>): seq<string>
    decreases |stages|
  {
    if stages == [] then []
    else
      var n := SanitizeStageName(stages[0].name);
      (if n in seen then [] else [n]) + StageList(stages[1..], seen + {n})
  }

  /** The "<stage>_<branch>" stage names the loop adds to its set for the branches `bs` of `s`. */
  function BranchStageNames(s: Stage, bs: seq<ParallelBranch>): set<string>
    decreases |bs|
  {
    if bs == [] then {}
    else BranchStageNames(s, bs[..|bs| - 1]) + {SanitizeStageName(s.name + "_" + bs[|bs| - 1].name)}
  }

  /**
   * The `stages:` entries as written: after each stage, the names of its
   * branches are also marked as seen, though never printed.
   */
  function StageListAsWritten(stages: seq<Stage>, seen: set<string>): seq<string>
    decreases |stages|
  {
    if stages == [] then []
    else
      var n := SanitizeStageName(stages[0].name);
      (if n in seen then [] else [n])
        + StageListAsWritten(stages[1..], seen + {n} + BranchStageNames(stages[0], stages[0].parallel))
  }

  /** The corrected list holds exactly the stage names not seen before. */
  lemma {:induction false} StageListMembers(stages: seq<Stage>, seen: set<string>)
    ensures forall x :: x in StageList(stages, seen) <==> x in StageNames(stages) && x !in seen
    decreases |stages|
  {
    if stages != [] {
      StageListMembers(stages[1..], seen + {SanitizeStageName(stages[0].name)});
    }
  }

  predicate NoDuplicates(l: seq<string>) {
    forall i, j :: 0 <= i < j < |l| ==> l[i] != l[j]
  }

  /** The corrected list holds each name once. */
  lemma {:induction false} StageListDistinct(stages: seq<Stage>, seen: set<string>)
    ensures NoDuplicates(StageList(stages, seen))
    decreases |stages|
  {
    if stages != [] {
      var n := SanitizeStageName(stages[0].name);
      var rest := StageList(stages[1..], seen + {n});
      StageListDistinct(stages[1..], seen + {n});
      StageListMembers(stages[1..], seen + {n});
      var l := StageList(stages, seen);
      if n !in seen {
        assert l == [n] + rest;
        forall i, j | 0 <= i < j < |l|
          ensures l[i] != l[j]
        {
          assert l[j] == rest[j - 1] && rest[j - 1] in rest;
          if i > 0 {
            assert l[i] == rest[i - 1];
          }
        }
      } else {
        assert l == rest;
      }
    }
  }

  /**
   * First-occurrence order: the entries of a list of stages are the entries
   * of its first part, then those of the rest that the first part did not
   * name.
   */
  lemma {:induction false} StageListAppend(a: seq<Stage>, b: seq<Stage>, seen: set<string>)
    ensures StageList(a + b, seen) == StageList(a, seen) + StageList(b, seen + StageNames(a))
    decreases |a|
  {
    if a == [] {
      assert a + b == b;
      assert seen + StageNames(a) == seen;
    } else {
      var n := SanitizeStageName(a[0].name);
      assert (a + b)[1..] == a[1..] + b;
      StageListAppend(a[1..], b, seen + {n});
      assert seen + {n} + StageNames(a[1..]) == seen + StageNames(a);
    }
  }

  /** Corrected, every job's `stage:` is in the list. */
  lemma JobStagesListed(stages: seq<Stage>, i: nat)
    requires i < |stages|
    ensures SanitizeStageName(stages[i].name) in StageList(stages, {})
  {
    StageListMembers(stages, {});
    NamesMember(stages, i);
  }

  lemma {:induction false} NamesMember(stages: seq<Stage>, i: nat)
    requires i < |stages|
    ensures SanitizeStageName(stages[i].name) in StageNames(stages)
    decreases i
  {
    if i > 0 {
      NamesMember(stages[1..], i - 1);
    }
  }

  /**
   * As written, a stage named like an earlier stage's "<stage>_<branch>" is
   * never listed, yet its job declares it as its stage: for stages "a" (with
   * a branch "b") and "a_b" only "a" is listed. Corrected, both are.
   */
  lemma StageListAsWrittenMisses(first: Stage, b: ParallelBranch, second: Stage)
    requires first.parallel == [b] && second.parallel == []
    requires SanitizeStageName(second.name) == SanitizeStageName(first.name + "_" + b.name)
    requires SanitizeStageName(second.name) != SanitizeStageName(first.name)
    ensures StageListAsWritten([first, second], {}) == [SanitizeStageName(first.name)]
    ensures SanitizeStageName(second.name) !in StageListAsWritten([first, second], {})
    ensures StageJobLines(second)[1] == "  stage: " + SanitizeStageName(second.name)
    ensures StageList([first, second], {}) == [SanitizeStageName(first.name), SanitizeStageName(second.name)]
  {
    var n, m := SanitizeStageName(first.name), SanitizeStageName(second.name);
    var stages := [first, second];
    assert stages[1..] == [second];
    assert [second][1..] == [];
    assert BranchStageNames(first, [b]) == {m} by {
      assert [b][..0] == [];
    }
    var seen := {} + {n} + BranchStageNames(first, first.parallel);
    assert m in seen;
    assert StageListAsWritten([second], seen) == [];
    assert StageListAsWritten(stages, {}) == [n] + StageListAsWritten([second], seen);
    assert StageList([second], {} + {n}) == [m];
    assert StageList(stages, {}) == [n] + StageList([second], {} + {n});
  }

  /** The condition above is met, for instance by the names "a", "b" and "a_b". */
  lemma StageListAsWrittenExample()
    ensures SanitizeStageName("a_b") == "a_b"
    ensures SanitizeStageName("a" + "_" + "b") == "a_b"
    ensures SanitizeStageName("a") == "a"
    ensures "a" != "a_b"
  {
    assert "a" + "_" + "b" == "a_b";
    var ab, a := SanitizeStageName("a_b"), SanitizeStageName("a");
    assert Kept('a') && Kept('_') && Kept('b');
    assert ab == [ab[0], ab[1], ab[2]];
    assert a == [a[0]];
    assert |"a"| != |"a_b"|;
  }

  /** The names the loop has marked as seen after a list of stages: each stage's own and its branches'. */
  function TakenNames(stages: seq<Stage>): set<string>
    decreases |stages|
  {
    if stages == [] then {}
    else {SanitizeStageName(stages[0].name)} + BranchStageNames(stages[0], stages[0].parallel) + TakenNames(stages[1..])
  }

  /** As written, every entry is a stage name not seen before. */
  lemma {:induction false} StageListAsWrittenSound(stages: seq<Stage>, seen: set<string>)
    ensures forall x :: x in StageListAsWritten(stages, seen) ==> x in StageNames(stages) && x !in seen
    decreases |stages|
  {
    if stages != [] {
      var n := SanitizeStageName(stages[0].name);
      StageListAsWrittenSound(stages[1..], seen + {n} + BranchStageNames(stages[0], stages[0].parallel));
    }
  }

  /** As written, no entry is listed twice. */
  lemma {:induction false} StageListAsWrittenDistinct(stages: seq<Stage>, seen: set<string>)
    ensures NoDuplicates(StageListAsWritten(stages, seen))
    decreases |stages|
  {
    if stages != [] {
      var n := SanitizeStageName(stages[0].name);
      var seen' := seen + {n} + BranchStageNames(stages[0], stages[0].parallel);
      var rest := StageListAsWritten(stages[1..], seen');
      StageListAsWrittenDistinct(stages[1..], seen');
      StageListAsWrittenSound(stages[1..], seen');
      var l := StageListAsWritten(stages, seen);
      if n !in seen {
        assert l == [n] + rest;
        forall i, j | 0 <= i < j < |l|
          ensures l[i] != l[j]
        {
          assert l[j] == rest[j - 1] && rest[j - 1] in rest;
          if i > 0 {
            assert l[i] == rest[i - 1];
          }
        }
      } else {
        assert l == rest;
      }
    }
  }

  /** As written, a stage whose name no earlier stage has taken is listed. */
  lemma {:induction false} StageListAsWrittenListed(stages: seq<Stage>, seen: set<string>, i: nat)
    requires i < |stages|
    requires SanitizeStageName(stages[i].name) !in seen + TakenNames(stages[..i])
    ensures SanitizeStageName(stages[i].name) in StageListAsWritten(stages, seen)
    decreases i
  {
    var n := SanitizeStageName(stages[0].name);
    var seen' := seen + {n} + BranchStageNames(stages[0], stages[0].parallel);
    if i == 0 {
      assert StageListAsWritten(stages, seen) == [n] + StageListAsWritten(stages[1..], seen');
    } else {
      assert stages[..i][0] == stages[0] && stages[..i][1..] == stages[1..][..i - 1];
      assert TakenNames(stages[..i]) == {n} + BranchStageNames(stages[0], stages[0].parallel)
                                        + TakenNames(stages[1..][..i - 1]);
      StageListAsWrittenListed(stages[1..], seen', i - 1);
    }
  }

  /** The positions of the stages whose names the list as written holds, in list order. */
  ghost function ListedStages(stages: seq<Stage>, seen: set<string>): seq<nat>
    decreases |stages|
  {
    if stages == [] then []
    else
      var n := SanitizeStageName(stages[0].name);
      var rest := ListedStages(stages[1..], seen + {n} + BranchStageNames(stages[0], stages[0].parallel));
      (if n in seen then [] else [0]) + Shifted(rest)
  }

  /** Each position moved one stage later. */
  ghost function Shifted(at: seq<nat>): (r: seq<nat>)
    ensures |r| == |at| && forall k :: 0 <= k < |at| ==> r[k] == at[k] + 1
  {
    seq(|at|, k requires 0 <= k < |at| => at[k] + 1)
  }

  /**
   * As written, the entries come in the order the stages are declared:
   * entry k is the name of stage `ListedStages(..)[k]`, and those positions
   * strictly increase.
   */
  lemma {:induction false} StageListAsWrittenOrder(stages: seq<Stage>, seen: set<string>)
    ensures var l, at := StageListAsWritten(stages, seen), ListedStages(stages, seen);
      && |at| == |l|
      && (forall k :: 0 <= k < |at| ==> at[k] < |stages| && l[k] == SanitizeStageName(stages[at[k]].name))
      && (forall k :: 0 <= k < |at| - 1 ==> at[k] < at[k + 1])
    decreases |stages|
  {
    if stages != [] {
      var n := SanitizeStageName(stages[0].name);
      var seen' := seen + {n} + BranchStageNames(stages[0], stages[0].parallel);
      StageListAsWrittenOrder(stages[1..], seen');
      var restL, restAt := StageListAsWritten(stages[1..], seen'), ListedStages(stages[1..], seen');
      var shifted := Shifted(restAt);
      var l, at := StageListAsWritten(stages, seen), ListedStages(stages, seen);
      assert l == (if n in seen then [] else [n]) + restL;
      forall k | 0 <= k < |shifted|
        ensures shifted[k] < |stages| && restL[k] == SanitizeStageName(stages[shifted[k]].name)
      {
        assert stages[shifted[k]] == stages[1..][restAt[k]];
      }
      if n in seen {
        assert at == shifted;
      } else {
        assert at == [0] + shifted;
        assert l == [n] + restL;
      }
    }
  }

  // ---------------------------------------------------------------------
  // The configuration
  // ---------------------------------------------------------------------

  /** The `  key: "value"` lines of the variables, in the map's iteration order. */
  function VarLines(vars: Entries<string>): (r: seq<string>)
    ensures |r| == |vars|
    ensures forall i :: 0 <= i < |vars| ==> r[i] == "  " + vars[i].0 + ": \"" + vars[i].1 + "\""
  {
    if vars == [] then []
    else
      var (key, value) := vars[|vars| - 1];
      VarLines(vars[..|vars| - 1]) + ["  " + key + ": \"" + value + "\""]
  }

  /** The `variables:` block, present only when there are variables. */
  function VariablesLines(vars: Entries<string>): seq<string> {
    if vars == [] then [] else ["variables:"] + VarLines(vars) + [""]
  }

  /** One entry of the `stages:` list. */
  function EntryLines(name: string): seq<string> {
    ["  - " + name]
  }

  /** The lines of the configuration `translate` returns. */
  function ConfigLines(p: RustlinePipeline.Pipeline): seq<string> {
    VariablesLines(p.environment.vars) + ["stages:"] + Flatten(StageListAsWritten(p.stages, {}), EntryLines) + [""]
      + Flatten(p.stages, StageJobLines)
  }

  /**
   * Without variables the configuration starts with `stages:`; with
   * variables it starts with the `variables:` block, one quoted line per
   * variable and a blank line, and `stages:` follows.
   */
  lemma ConfigStart(p: RustlinePipeline.Pipeline)
    ensures var vars, c := p.environment.vars, ConfigLines(p);
      && (vars == [] ==> c[0] == "stages:" && StartsWith(Text(c), "stages:\n"))
      && (vars != [] ==>
            && c[0] == "variables:"
            && (forall i :: 0 <= i < |vars| ==> c[1 + i] == "  " + vars[i].0 + ": \"" + vars[i].1 + "\"")
            && c[1 + |vars|] == "" && c[2 + |vars|] == "stages:")
  {
    var rest := Flatten(StageListAsWritten(p.stages, {}), EntryLines) + [""] + Flatten(p.stages, StageJobLines);
    assert ConfigLines(p) == VariablesLines(p.environment.vars) + ["stages:"] + rest;
    ConfigHead(p.environment.vars, rest);
  }

  /** `ConfigStart` over any lines after `stages:`. */
  lemma ConfigHead(vars: Entries<string>, rest: seq<string>)
    ensures var c := VariablesLines(vars) + ["stages:"] + rest;
      && (vars == [] ==> c[0] == "stages:" && StartsWith(Text(c), "stages:\n"))
      && (vars != [] ==>
            && c[0] == "variables:"
            && (forall i :: 0 <= i < |vars| ==> c[1 + i] == "  " + vars[i].0 + ": \"" + vars[i].1 + "\"")
            && c[1 + |vars|] == "" && c[2 + |vars|] == "stages:")
  {
    var c := VariablesLines(vars) + ["stages:"] + rest;
    if vars == [] {
      assert c == ["stages:"] + rest;
      TextAppend(["stages:"], rest);
      TextOne("stages:");
    } else {
      assert c == ["variables:"] + VarLines(vars) + [""] + ["stages:"] + rest;
    }
  }


  /**
   * Under `stages:` every entry is the name of a stage, listed once, and a
   * stage's name is listed when no earlier stage has taken it, either as
   * its own name or as one of its "<stage>_<branch>" names.
   */
  lemma ConfigStagesListed(p: RustlinePipeline.Pipeline, i: nat)
    requires i < |p.stages|
    ensures forall x :: x in StageListAsWritten(p.stages, {}) ==> x in StageNames(p.stages)
    ensures NoDuplicates(StageListAsWritten(p.stages, {}))
    ensures SanitizeStageName(p.stages[i].name) !in TakenNames(p.stages[..i]) ==>
              SanitizeStageName(p.stages[i].name) in StageListAsWritten(p.stages, {})
    ensures var l, at := StageListAsWritten(p.stages, {}), ListedStages(p.stages, {});
      && |at| == |l|
      && (forall k :: 0 <= k < |at| ==> at[k] < |p.stages| && l[k] == SanitizeStageName(p.stages[at[k]].name))
      && (forall k :: 0 <= k < |at| - 1 ==> at[k] < at[k + 1])
  {
    StageListAsWrittenOrder(p.stages, {});
    StageListAsWrittenSound(p.stages, {});
    StageListAsWrittenDistinct(p.stages, {});
    if SanitizeStageName(p.stages[i].name) !in TakenNames(p.stages[..i]) {
      StageListAsWrittenListed(p.stages, {}, i);
    }
  }

  // ---------------------------------------------------------------------
  // Building the text
  // ---------------------------------------------------------------------

  /** The timeout loop of `translate_stage`: the first timeout step pushes its line, then the loop stops. */
  method PushTimeout(job: string, ghost lines: seq<string>, steps: seq<Step>) returns (r: string, ghost all: seq<string>)
    requires job == Text(lines)
    ensures all == lines + TimeoutLines(steps) && r == Text(all)
  {
    r, all := job, lines;
    var i := 0;
    while i < |steps|
      invariant 0 <= i <= |steps|
      invariant forall j :: 0 <= j < i ==> !steps[j].stepType.Timeout?
      invariant r == job && all == lines
    {
      if steps[i].stepType.Timeout? {
        var minutes := AsSecs(steps[i].stepType.duration) / 60;
        var shown := if minutes < 1 then 1 else minutes;
        assert FirstTimeout(steps) == Some(steps[i].stepType.duration);
        r, all := PushLines(r, all, ["  timeout: " + NatToString(shown) + "m"]);
        return;
      }
      i := i + 1;
    }
    assert all + [] == all;
  }

  /** One round of the post-condition loop of `translate_stage`. */
  method PushAfterScript(job: string, ghost lines: seq<string>, p: RustlinePost.PostCondition)
    returns (r: string, ghost all: seq<string>)
    requires job == Text(lines)
    ensures all == lines + AfterScriptLines(p) && r == Text(all)
  {
    if p.Always? {
      r, all := PushLines(job, lines, ["  after_script:"]);
      r, all := PushEach(r, all, p.steps, StepLines);
    } else {
      r, all := job, lines;
      assert all + [] == all;
    }
  }

  /** The post-condition loop of `translate_stage`. */
  method PushPosts(job: string, ghost lines: seq<string>, ps: seq<RustlinePost.PostCondition>)
    returns (r: string, ghost all: seq<string>)
    requires job == Text(lines)
    ensures all == lines + PostsLines(ps) && r == Text(all)
  {
    r, all := job, lines;
    var k := 0;
    while k < |ps|
      invariant 0 <= k <= |ps|
      invariant all == lines + Flatten(ps[..k], AfterScriptLines) && r == Text(all)
    {
      r, all := PushAfterScript(r, all, ps[k]);
      FlattenStep(lines, ps, AfterScriptLines, k);
      k := k + 1;
    }
    assert ps[..k] == ps;
  }

  /** The `rules:` block. */
  method PushRules(job: string, ghost lines: seq<string>, when: Option<WhenCondition>) returns (r: string, ghost all: seq<string>)
    requires job == Text(lines)
    ensures all == lines + RulesLines(when) && r == Text(all)
  {
    if when.Some? {
      r, all := PushLines(job, lines, ["  rules:"]);
      r, all := PushLines(r, all, ["  - " + RuleAsWritten(when.value)]);
    } else {
      r, all := job, lines;
      assert all + [] == all;
    }
  }

  /** The image (or tags) line of a job. */
  method PushImage(job: string, ghost lines: seq<string>, agent: Option<RustlineAgent.AgentType>)
    returns (r: string, ghost all: seq<string>)
    requires job == Text(lines)
    ensures all == lines + ImageLines(agent) && r == Text(all)
  {
    if agent.Some? && agent.value.Docker? {
      r, all := PushLines(job, lines, ["  image: " + agent.value.docker.image]);
    } else if agent.Some? && agent.value.Label? {
      r, all := PushLines(job, lines, ["  tags: [" + agent.value.text + "]"]);
    } else {
      r, all := job, lines;
      assert all + [] == all;
    }
  }

  /** The image line of a branch job. */
  method PushBranchImage(job: string, ghost lines: seq<string>, agent: Option<RustlineAgent.AgentType>)
    returns (r: string, ghost all: seq<string>)
    requires job == Text(lines)
    ensures all == lines + BranchImageLines(agent) && r == Text(all)
  {
    if agent.Some? && agent.value.Docker? {
      r, all := PushLines(job, lines, ["  image: " + agent.value.docker.image]);
    } else {
      r, all := job, lines;
      assert all + [] == all;
    }
  }

  /** The job of a stage without branches, from `stage:` up to the post conditions. */
  method PushSetup(job: string, ghost lines: seq<string>, s: Stage) returns (r: string, ghost all: seq<string>)
    requires job == Text(lines)
    ensures all == lines + JobSetupLines(s) && r == Text(all)
  {
    r, all := PushLines(job, lines, [StageLine(s)]);
    r, all := PushImage(r, all, s.agent);
    r, all := PushTimeout(r, all, s.steps);
    r, all := PushRules(r, all, s.when);
    r, all := PushPosts(r, all, s.post);
    Regroup5(lines, [StageLine(s)], ImageLines(s.agent), TimeoutLines(s.steps), RulesLines(s.when), PostsLines(s.post));
  }

  /** The job of one parallel branch. */
  method PushBranchJob(yaml: string, ghost lines: seq<string>, s: Stage, b: ParallelBranch) returns (r: string, ghost all: seq<string>)
    requires yaml == Text(lines)
    ensures all == lines + BranchJobLines(s, b) && r == Text(all)
  {
    var header := [SanitizeJobName(s.name + "_" + b.name) + ":", StageLine(s)];
    r, all := PushLines(yaml, lines, header);
    r, all := PushBranchImage(r, all, s.agent);
    r, all := PushRules(r, all, s.when);
    r, all := PushLines(r, all, ["  script:"]);
    r, all := PushEach(r, all, b.stage.steps, StepLines);
    Regroup5(lines, header, BranchImageLines(s.agent), RulesLines(s.when), ["  script:"], ScriptLines(b.stage.steps));
  }

  /** The branch loop of `translate_stage`. */
  method PushBranchJobs(yaml: string, ghost lines: seq<string>, s: Stage) returns (r: string, ghost all: seq<string>)
    requires yaml == Text(lines)
    ensures all == lines + Flatten(s.parallel, BranchJobs(s)) && r == Text(all)
  {
    r, all := yaml, lines;
    var i := 0;
    while i < |s.parallel|
      invariant 0 <= i <= |s.parallel|
      invariant all == lines + Flatten(s.parallel[..i], BranchJobs(s)) && r == Text(all)
    {
      r, all := PushBranchJob(r, all, s, s.parallel[i]);
      assert BranchJobs(s)(s.parallel[i]) == BranchJobLines(s, s.parallel[i]);
      FlattenStep(lines, s.parallel, BranchJobs(s), i);
      i := i + 1;
    }
    assert s.parallel[..i] == s.parallel;
  }

  /** `translate_stage`: the branch jobs, or the stage's own job. */
  method TranslateStage(s: Stage) returns (job: string)
    ensures job == Text(StageJobLines(s))
  {
    ghost var lines: seq<string>;
    if s.parallel != [] {
      job, lines := PushBranchJobs("", [], s);
      assert lines == StageJobLines(s);
      return;
    }
    job, lines := PushLines("", [], [SanitizeJobName(s.name) + ":"]);
    job, lines := PushSetup(job, lines, s);
    job, lines := PushLines(job, lines, ["  script:"]);
    job, lines := PushEach(job, lines, s.steps, StepLines);
  }

  /** The variables block of `translate`. */
  method PushVariables(yaml: string, ghost lines: seq<string>, vars: Entries<string>) returns (r: string, ghost all: seq<string>)
    requires yaml == Text(lines)
    ensures all == lines + VariablesLines(vars) && r == Text(all)
  {
    r, all := yaml, lines;
    if vars != [] {
      r, all := PushLines(r, all, ["variables:"]);
      r, all := PushVarLines(r, all, vars);
      r, all := PushLines(r, all, [""]);
      assert all == lines + (["variables:"] + VarLines(vars) + [""]);
    } else {
      assert all + [] == all;
    }
  }

  /** The variable loop of `translate`: one quoted line per variable. */
  method PushVarLines(yaml: string, ghost lines: seq<string>, vars: Entries<string>) returns (r: string, ghost all: seq<string>)
    requires yaml == Text(lines)
    ensures all == lines + VarLines(vars) && r == Text(all)
  {
    r, all := yaml, lines;
    var i := 0;
    while i < |vars|
      invariant 0 <= i <= |vars|
      invariant all == lines + VarLines(vars[..i]) && r == Text(all)
    {
      assert vars[..i + 1][..i] == vars[..i];
      var (key, value) := vars[i];
      r, all := PushLines(r, all, ["  " + key + ": \"" + value + "\""]);
      i := i + 1;
    }
    assert vars[..i] == vars;
  }

  /**
   * The `stages:` loop of `translate`: each new sanitized stage name is
   * printed once, and the names of the stage's branches are marked as seen.
   */
  method PushStageList(yaml: string, ghost lines: seq<string>, stages: seq<Stage>) returns (r: string, ghost all: seq<string>)
    requires yaml == Text(lines)
    ensures all == lines + Flatten(StageListAsWritten(stages, {}), EntryLines) && r == Text(all)
  {
    r, all := yaml, lines;
    var seen: set<string> := {};
    ghost var listed: seq<string> := [];
    var i := 0;
    assert stages[i..] == stages;
    while i < |stages|
      invariant 0 <= i <= |stages|
      invariant listed + StageListAsWritten(stages[i..], seen) == StageListAsWritten(stages, {})
      invariant all == lines + Flatten(listed, EntryLines) && r == Text(all)
    {
      r, all, seen, listed := PushStageTurn(r, all, lines, stages, i, seen, listed);
      i := i + 1;
    }
    assert stages[i..] == [];
    assert listed + [] == listed;
  }

  /** One turn of the `stages:` loop, over stage `i`. */
  method PushStageTurn(yaml: string, ghost lines: seq<string>, ghost start: seq<string>, stages: seq<Stage>, i: nat,
                       seen: set<string>, ghost listed: seq<string>)
    returns (r: string, ghost all: seq<string>, seen': set<string>, ghost listed': seq<string>)
    requires i < |stages|
    requires yaml == Text(lines) && lines == start + Flatten(listed, EntryLines)
    ensures listed' + StageListAsWritten(stages[i + 1..], seen') == listed + StageListAsWritten(stages[i..], seen)
    ensures all == start + Flatten(listed', EntryLines) && r == Text(all)
  {
    var s := stages[i];
    ghost var n := SanitizeStageName(s.name);
    ghost var added := if n in seen then [] else [n];
    StageListStep(stages, i, seen);
    r, all, seen', listed' := PushStageName(yaml, lines, start, s, seen, listed);
    Regroup3(listed, added, StageListAsWritten(stages[i + 1..], seen'));
  }

  /** The list of `stages[i..]` is the entry of stage `i`, if new, then the rest with its names marked. */
  lemma StageListStep(stages: seq<Stage>, i: nat, seen: set<string>)
    requires i < |stages|
    ensures var s, n := stages[i], SanitizeStageName(stages[i].name);
      StageListAsWritten(stages[i..], seen)
      == (if n in seen then [] else [n]) + StageListAsWritten(stages[i + 1..], seen + {n} + BranchStageNames(s, s.parallel))
  {
    assert stages[i..][1..] == stages[i + 1..];
  }

  /**
   * One round of the `stages:` loop: `if stage_names.insert(name) { .. }`,
   * then the inner loop inserting each "<stage>_<branch>" name.
   */
  method PushStageName(yaml: string, ghost lines: seq<string>, ghost start: seq<string>, s: Stage, seen: set<string>,
                       ghost listed: seq<string>)
    returns (r: string, ghost all: seq<string>, seen': set<string>, ghost listed': seq<string>)
    requires yaml == Text(lines) && lines == start + Flatten(listed, EntryLines)
    ensures var n := SanitizeStageName(s.name);
      && seen' == seen + {n} + BranchStageNames(s, s.parallel) && listed' == listed + (if n in seen then [] else [n])
      && all == start + Flatten(listed', EntryLines) && r == Text(all)
  {
    var name := SanitizeStageName(s.name);
    if name !in seen {
      seen' := seen + {name};
      r, all := PushLines(yaml, lines, ["  - " + name]);
      FlattenAppend(listed, [name], EntryLines);
      assert Flatten([name], EntryLines) == EntryLines(name) by {
        assert [name][..0] == [];
      }
      listed' := listed + [name];
    } else {
      seen', r, all, listed' := seen, yaml, lines, listed;
      assert listed + [] == listed;
    }
    seen' := InsertBranchNames(seen', s);
  }

  /** The inner loop of the `stages:` loop: every branch's "<stage>_<branch>" name goes into the set. */
  method InsertBranchNames(seen: set<string>, s: Stage) returns (seen': set<string>)
    ensures seen' == seen + BranchStageNames(s, s.parallel)
  {
    seen' := seen;
    var j := 0;
    while j < |s.parallel|
      invariant 0 <= j <= |s.parallel|
      invariant seen' == seen + BranchStageNames(s, s.parallel[..j])
    {
      assert s.parallel[..j + 1][..j] == s.parallel[..j];
      seen' := seen' + {SanitizeStageName(s.name + "_" + s.parallel[j].name)};
      j := j + 1;
    }
    assert s.parallel[..j] == s.parallel;
  }

  /** The jobs loop of `translate`. */
  method PushJobs(yaml: string, ghost lines: seq<string>, stages: seq<Stage>) returns (r: string, ghost all: seq<string>)
    requires yaml == Text(lines)
    ensures all == lines + Flatten(stages, StageJobLines) && r == Text(all)
  {
    r, all := yaml, lines;
    var j := 0;
    while j < |stages|
      invariant 0 <= j <= |stages|
      invariant all == lines + Flatten(stages[..j], StageJobLines) && r == Text(all)
    {
      var job := TranslateStage(stages[j]);
      TextAppend(all, StageJobLines(stages[j]));
      r, all := r + job, all + StageJobLines(stages[j]);
      FlattenStep(lines, stages, StageJobLines, j);
      j := j + 1;
    }
    assert stages[..j] == stages;
  }

  /** `translate`: variables, the stages list, then each stage's jobs; it never fails. */
  method Translate(p: RustlinePipeline.Pipeline) returns (r: Result<string, PipelineError>)
    ensures r.Ok? && r.value == Text(ConfigLines(p))
  {
    ghost var lines: seq<string>;
    var yaml;
    yaml, lines := PushVariables("", [], p.environment.vars);
    yaml, lines := PushLines(yaml, lines, ["stages:"]);
    yaml, lines := PushStageList(yaml, lines, p.stages);
    yaml, lines := PushLines(yaml, lines, [""]);
    yaml, lines := PushJobs(yaml, lines, p.stages);
    Regroup5([], VariablesLines(p.environment.vars), ["stages:"], Flatten(StageListAsWritten(p.stages, {}), EntryLines),
      [""], Flatten(p.stages, StageJobLines));
    assert lines == ConfigLines(p);
    r := Ok(yaml);
  }
}
