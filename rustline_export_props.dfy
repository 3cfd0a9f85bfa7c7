/**
 * Properties of `rustline export`: the agent priority, the needs chain,
 * the case converters, and the shape of the three rendered files.
 */
module RustlineExportProps {
  import opened Wrappers
  import opened Strings
  import opened TextLines
  import opened RustlineExport

  // ---------------------------------------------------------------------
  // Extraction
  // ---------------------------------------------------------------------

  /**
   * A macro is used only when no macro before it in the priority order
   * any, docker, kubernetes, label is present, and its argument is kept.
   */
  lemma AgentPriority(content: string, caps: Captures)
    ensures Contains(content, AnyMacro) ==> ExtractAgent(content, caps) == Some(AgentExport(AnyAgent, None, None))
    ensures ExtractAgent(content, caps).Some? && ExtractAgent(content, caps).value.kind == DockerAgent ==>
      !Contains(content, AnyMacro) && ExtractAgent(content, caps).value.image == caps.docker
    ensures ExtractAgent(content, caps).Some? && ExtractAgent(content, caps).value.kind == KubernetesAgent ==>
      !Contains(content, AnyMacro) && caps.docker.None? && ExtractAgent(content, caps).value.labelName == caps.kubernetes
    ensures ExtractAgent(content, caps).Some? && ExtractAgent(content, caps).value.kind == LabelAgent ==>
      !Contains(content, AnyMacro) && caps.docker.None? && caps.kubernetes.None?
      && ExtractAgent(content, caps).value.labelName == caps.labelName
  {
  }

  /** In the parsed pipeline every stage but the first needs the stage before it, and each has the one echo step. */
  lemma ParsedStages(content: string, caps: Captures, i: nat)
    requires i < |caps.stages|
    ensures ParsePipeline(content, caps).stages[i].name == caps.stages[i]
    ensures ParsePipeline(content, caps).stages[i].needs == (if i == 0 then [] else [caps.stages[i - 1]])
    ensures ParsePipeline(content, caps).stages[i].steps == [EchoStep()]
  {
  }

  // ---------------------------------------------------------------------
  // Case conversion
  // ---------------------------------------------------------------------

  /** The letters and digits of a text, in order. */
  function Alnums(s: string): (r: string)
    ensures |r| <= |s|
  {
    if s == [] then [] else (if IsAlphanumeric(s[0]) then [s[0]] else []) + Alnums(s[1..])
  }

  lemma {:induction false} AlnumsAppend(a: string, b: string)
    ensures Alnums(a + b) == Alnums(a) + Alnums(b)
    decreases |a|
  {
    if a != [] {
      assert (a + b)[1..] == a[1..] + b;
      AlnumsAppend(a[1..], b);
    } else {
      assert a + b == b;
    }
  }

  /** `n` copies of `c`. */
  function Repeat(c: char, n: nat): (r: string)
    ensures |r| == n && forall i :: 0 <= i < n ==> r[i] == c
  {
    if n == 0 then [] else [c] + Repeat(c, n - 1)
  }

  /** Every character of a replacement comes from the text or from the replacement string. */
  lemma {:induction false} ReplaceChars(s: string, pat: string, rep: string)
    requires |pat| > 0
    ensures forall x :: x in ReplaceAll(s, pat, rep) ==> x in s || x in rep
    decreases |s|
  {
    if |s| >= |pat| {
      if s[..|pat|] == pat {
        ReplaceChars(s[|pat|..], pat, rep);
        assert forall x :: x in s[|pat|..] ==> x in s;
      } else {
        ReplaceChars(s[1..], pat, rep);
        assert forall x :: x in s[1..] ==> x in s;
      }
    }
  }

  /** Replacing a pattern by something no longer does not lengthen the text. */
  lemma {:induction false} ReplaceShrinks(s: string, pat: string, rep: string)
    requires 0 < |rep| <= |pat|
    ensures |ReplaceAll(s, pat, rep)| <= |s|
    decreases |s|
  {
    if |s| >= |pat| {
      if s[..|pat|] == pat {
        ReplaceShrinks(s[|pat|..], pat, rep);
      } else {
        ReplaceShrinks(s[1..], pat, rep);
      }
    }
  }

  /** Collapsing a doubled separator loses no letter or digit. */
  lemma {:induction false} ReplaceKeepsAlnums(t: string, c: char)
    requires !IsAlphanumeric(c)
    ensures Alnums(ReplaceAll(t, [c, c], [c])) == Alnums(t)
    decreases |t|
  {
    if |t| >= 2 {
      if t[..2] == [c, c] {
        ReplaceKeepsAlnums(t[2..], c);
        AlnumsAppend([c], ReplaceAll(t[2..], [c, c], [c]));
        assert t == [c, c] + t[2..];
        AlnumsAppend([c, c], t[2..]);
      } else {
        ReplaceKeepsAlnums(t[1..], c);
        AlnumsAppend([t[0]], ReplaceAll(t[1..], [c, c], [c]));
        assert t == [t[0]] + t[1..];
        AlnumsAppend([t[0]], t[1..]);
      }
    }
  }

  /** Letters and digits are kept in order and lower-cased; everything else is the separator. */
  lemma CaseChars(s: string, sep: char)
    requires !IsAlphanumeric(sep)
    ensures |CaseWith(s, sep)| <= |s|
    ensures forall x :: x in CaseWith(s, sep) ==> x == sep || (IsAlphanumeric(x) && !('A' <= x <= 'Z'))
    ensures Alnums(CaseWith(s, sep)) == Alnums(ToLower(s))
  {
    var m := SeparatorMap(ToLower(s), sep);
    ReplaceShrinks(m, [sep, sep], [sep]);
    ReplaceChars(m, [sep, sep], [sep]);
    ReplaceKeepsAlnums(m, sep);
    SeparatorMapAlnums(ToLower(s), sep);
  }

  lemma {:induction false} SeparatorMapAlnums(s: string, sep: char)
    requires !IsAlphanumeric(sep)
    ensures Alnums(SeparatorMap(s, sep)) == Alnums(s)
    decreases |s|
  {
    if s != [] {
      SeparatorMapAlnums(s[1..], sep);
      assert SeparatorMap(s, sep)[1..] == SeparatorMap(s[1..], sep);
    }
  }

  /** A word of letters and digits is only lower-cased. */
  lemma CaseWord(s: string, sep: char)
    requires !IsAlphanumeric(sep)
    requires forall i :: 0 <= i < |s| ==> IsAlphanumeric(s[i])
    ensures CaseWith(s, sep) == ToLower(s)
  {
    var l := ToLower(s);
    assert forall i :: 0 <= i < |l| ==> IsAlphanumeric(l[i]) && l[i] != sep;
    assert SeparatorMap(l, sep) == l;
    ReplaceAbsentChar(l, sep);
  }

  /** The converters' examples: "Build" becomes "build" in both cases. */
  lemma CaseExamples()
    ensures ToKebabCase("Build") == "build"
    ensures ToSnakeCase("Build") == "build"
  {
    CaseWord("Build", '-');
    CaseWord("Build", '_');
    assert ToLower("Build") == "build";
  }

  /** A text without the separator passes through the collapsing pass unchanged in front. */
  lemma {:induction false} ReplaceCleanPrefix(u: string, t: string, c: char)
    requires c !in u
    ensures ReplaceAll(u + t, [c, c], [c]) == u + ReplaceAll(t, [c, c], [c])
    decreases |u|
  {
    if u != [] {
      assert |u + t| >= 2 ==> (u + t)[..2] != [c, c] by {
        assert (u + t)[0] == u[0];
      }
      assert (u + t)[1..] == u[1..] + t;
      ReplaceCleanPrefix(u[1..], t, c);
    } else {
      assert u + t == t;
    }
  }

  /** A run of `n` separators before a text without one becomes `(n + 1) / 2` separators. */
  lemma {:induction false} ReplaceRun(n: nat, t: string, c: char)
    requires c !in t
    ensures ReplaceAll(Repeat(c, n) + t, [c, c], [c]) == Repeat(c, (n + 1) / 2) + t
    decreases n
  {
    if n >= 2 {
      var s := Repeat(c, n) + t;
      RunHead(n, t, c);
      ReplaceAtPattern(s, c);
      ReplaceRun(n - 2, t, c);
      RunHalved(n, t, c);
    } else if n == 1 {
      assert Repeat(c, n) == [c] == Repeat(c, (n + 1) / 2);
      ReplaceSingle(t, c);
    } else {
      assert Repeat(c, n) + t == t;
      ReplaceAbsentChar(t, c);
    }
  }

  /** A run of at least two separators starts with the pattern, and the rest is a shorter run. */
  lemma RunHead(n: nat, t: string, c: char)
    requires n >= 2
    ensures var s := Repeat(c, n) + t;
      s[..2] == [c, c] && s[2..] == Repeat(c, n - 2) + t
  {
    var s := Repeat(c, n) + t;
    assert s[..2] == [c, c];
    assert Repeat(c, n) == [c, c] + Repeat(c, n - 2);
    assert s[2..] == Repeat(c, n - 2) + t;
  }

  /** A text starting with the doubled separator loses one copy of it in front. */
  lemma ReplaceAtPattern(s: string, c: char)
    requires |s| >= 2 && s[..2] == [c, c]
    ensures ReplaceAll(s, [c, c], [c]) == [c] + ReplaceAll(s[2..], [c, c], [c])
  {
  }

  /** One separator in front of the halved shorter run is the halved run. */
  lemma RunHalved(n: nat, t: string, c: char)
    requires n >= 2
    ensures [c] + (Repeat(c, (n - 2 + 1) / 2) + t) == Repeat(c, (n + 1) / 2) + t
  {
    assert Repeat(c, (n + 1) / 2) == [c] + Repeat(c, (n - 2 + 1) / 2);
  }

  /** One separator before a text without one is left alone. */
  lemma ReplaceSingle(t: string, c: char)
    requires c !in t
    ensures ReplaceAll([c] + t, [c, c], [c]) == [c] + t
  {
    var s := [c] + t;
    assert s[1..] == t;
    if |s| >= 2 {
      assert s[1] == t[0];
    }
    ReplaceAbsentChar(t, c);
  }

  lemma ReplaceAbsentChar(t: string, c: char)
    requires c !in t
    ensures ReplaceAll(t, [c, c], [c]) == t
  {
    forall i | 0 <= i <= |t| - 2
      ensures !OccursAt(t, [c, c], i)
    {
      assert t[i..i + 2][0] == t[i];
    }
    ReplaceAbsent(t, [c, c], [c]);
  }

  /**
   * Two words joined by a run of `n` other characters, as in "Build & Test",
   * come out joined by `(n + 1) / 2` separators: the single pass halves a
   * run rather than collapsing it.
   */
  lemma CaseRun(a: string, x: string, b: string, sep: char)
    requires !IsAlphanumeric(sep)
    requires forall i :: 0 <= i < |a| ==> IsAlphanumeric(a[i])
    requires forall i :: 0 <= i < |b| ==> IsAlphanumeric(b[i])
    requires forall i :: 0 <= i < |x| ==> !IsAlphanumeric(x[i])
    ensures CaseWith(a + x + b, sep) == ToLower(a) + Repeat(sep, (|x| + 1) / 2) + ToLower(b)
  {
    RunMapped(a, x, b, sep);
    LowerNoSeparator(a, sep);
    LowerNoSeparator(b, sep);
    ReplaceBetween(ToLower(a), |x|, ToLower(b), sep);
  }

  /** A run of separators between two texts without one is halved, and nothing else changes. */
  lemma ReplaceBetween(u: string, n: nat, t: string, c: char)
    requires c !in u && c !in t
    ensures ReplaceAll(u + Repeat(c, n) + t, [c, c], [c]) == u + Repeat(c, (n + 1) / 2) + t
  {
    assert u + Repeat(c, n) + t == u + (Repeat(c, n) + t);
    ReplaceCleanPrefix(u, Repeat(c, n) + t, c);
    ReplaceRun(n, t, c);
  }

  /** Before the collapsing pass, the run is `|x|` separators between the lower-cased words. */
  lemma RunMapped(a: string, x: string, b: string, sep: char)
    requires forall i :: 0 <= i < |a| ==> IsAlphanumeric(a[i])
    requires forall i :: 0 <= i < |b| ==> IsAlphanumeric(b[i])
    requires forall i :: 0 <= i < |x| ==> !IsAlphanumeric(x[i])
    ensures SeparatorMap(ToLower(a + x + b), sep) == ToLower(a) + Repeat(sep, |x|) + ToLower(b)
  {
    LowerAppend(a + x, b);
    LowerAppend(a, x);
    var la, lx, lb := ToLower(a), ToLower(x), ToLower(b);
    SeparatorMapAppend(la + lx, lb, sep);
    SeparatorMapAppend(la, lx, sep);
    SeparatorMapWord(la, sep);
    SeparatorMapWord(lb, sep);
    SeparatorMapRun(lx, sep);
  }

  /** Lower-casing works character by character, so it distributes over concatenation. */
  lemma {:induction false} LowerAppend(a: string, b: string)
    ensures ToLower(a + b) == ToLower(a) + ToLower(b)
    decreases |a|
  {
    if a == [] {
      assert a + b == b;
    } else {
      assert (a + b)[0] == a[0] && (a + b)[1..] == a[1..] + b;
      LowerAppend(a[1..], b);
    }
  }

  /** Mapping to separators works character by character, so it distributes over concatenation. */
  lemma {:induction false} SeparatorMapAppend(a: string, b: string, sep: char)
    ensures SeparatorMap(a + b, sep) == SeparatorMap(a, sep) + SeparatorMap(b, sep)
    decreases |a|
  {
    if a == [] {
      assert a + b == b;
    } else {
      assert (a + b)[0] == a[0] && (a + b)[1..] == a[1..] + b;
      SeparatorMapAppend(a[1..], b, sep);
    }
  }

  /** The lower-cased form of a word of letters and digits is kept by the separator map. */
  lemma SeparatorMapWord(a: string, sep: char)
    requires forall i :: 0 <= i < |a| ==> IsAlphanumeric(a[i])
    ensures SeparatorMap(a, sep) == a
  {
    var m := SeparatorMap(a, sep);
    assert forall i :: 0 <= i < |a| ==> m[i] == a[i];
  }

  /** A run of other characters becomes as many separators. */
  lemma SeparatorMapRun(x: string, sep: char)
    requires forall i :: 0 <= i < |x| ==> !IsAlphanumeric(x[i])
    ensures SeparatorMap(x, sep) == Repeat(sep, |x|)
  {
    var m, r := SeparatorMap(x, sep), Repeat(sep, |x|);
    assert forall i :: 0 <= i < |x| ==> m[i] == r[i];
  }

  lemma LowerNoSeparator(a: string, sep: char)
    requires !IsAlphanumeric(sep)
    requires forall i :: 0 <= i < |a| ==> IsAlphanumeric(a[i])
    ensures sep !in ToLower(a)
  {
    assert forall i :: 0 <= i < |a| ==> ToLower(a)[i] != sep;
  }

  // ---------------------------------------------------------------------
  // Steps: only shell steps are rendered
  // ---------------------------------------------------------------------

  /** The shell steps of a list, in order. */
  function ShellSteps(steps: seq<StepExport>): (r: seq<StepExport>)
    ensures |r| <= |steps|
    ensures forall st :: st in r ==> st in steps && st.stepType == Shell
  {
    if steps == [] then []
    else ShellSteps(steps[..|steps| - 1]) + (if steps[|steps| - 1].stepType == Shell then [steps[|steps| - 1]] else [])
  }

  /** A renderer that skips every step but the shell ones renders the shell steps with its shell rendering. */
  lemma {:induction false} FlattenShell(steps: seq<StepExport>, f: StepExport -> seq<string>, g: StepExport -> seq<string>)
    requires forall st :: f(st) == (if st.stepType == Shell then g(st) else [])
    ensures Flatten(steps, f) == Flatten(ShellSteps(steps), g)
    decreases |steps|
  {
    if steps != [] {
      var init, last := steps[..|steps| - 1], steps[|steps| - 1];
      FlattenShell(init, f, g);
      if last.stepType == Shell {
        FlattenAppend(ShellSteps(init), [last], g);
        assert [last][..0] == [];
      } else {
        assert ShellSteps(steps) == ShellSteps(init);
      }
    }
  }

  function GithubShellStep(st: StepExport): seq<string> {
    ["      - name: " + Shell, "        run: " + st.command]
  }

  function GitlabShellStep(st: StepExport): seq<string> {
    ["    - " + st.command]
  }

  function JenkinsShellStep(st: StepExport): seq<string> {
    ["                sh '" + st.command + "'"]
  }

  /** The three renderers skip every step but the shell ones. */
  lemma ShellOnly(steps: seq<StepExport>)
    ensures Flatten(steps, GithubStepLines) == Flatten(ShellSteps(steps), GithubShellStep)
    ensures Flatten(steps, GitlabStepLines) == Flatten(ShellSteps(steps), GitlabShellStep)
    ensures Flatten(steps, JenkinsStepLines) == Flatten(ShellSteps(steps), JenkinsShellStep)
  {
    FlattenShell(steps, GithubStepLines, GithubShellStep);
    FlattenShell(steps, GitlabStepLines, GitlabShellStep);
    FlattenShell(steps, JenkinsStepLines, JenkinsShellStep);
  }

  // ---------------------------------------------------------------------
  // GitHub Actions
  // ---------------------------------------------------------------------

  /**
   * A job is its header, at most one needs line (present exactly when the
   * stage has needs), `runs-on: ubuntu-latest`, `steps:`, the checkout step
   * and then its shell steps.
   */
  lemma GithubJobShape(s: StageExport)
    ensures |GithubNeedsLines(s.needs)| <= 1 && (GithubNeedsLines(s.needs) == [] <==> s.needs == [])
    ensures GithubJobLines(s)[0] == GithubJobHeader(s)
    ensures GithubJobLines(s)[|GithubNeedsLines(s.needs)| + 1] == RunsOn
    ensures GithubJobLines(s)[|GithubNeedsLines(s.needs)| + 3] == Checkout
    ensures GithubJobLines(s)[|GithubNeedsLines(s.needs)| + 4..] == Flatten(ShellSteps(s.steps), GithubShellStep)
  {
    ShellOnly(s.steps);
    var k := |GithubNeedsLines(s.needs)|;
    assert GithubJobLines(s) == ([GithubJobHeader(s)] + GithubNeedsLines(s.needs) + GithubRunnerLines()) + Flatten(s.steps, GithubStepLines);
  }

  /** Needs are written in kebab case: in an exported pipeline, every job but the first needs the job before it. */
  lemma GithubNeedsChain(content: string, names: seq<string>, i: nat)
    requires i < |names|
    ensures i == 0 ==> GithubNeedsLines(ExportStages(content, names)[i].needs) == []
    ensures i > 0 ==> GithubNeedsLines(ExportStages(content, names)[i].needs) == ["    needs: [" + ToKebabCase(names[i - 1]) + "]"]
  {
    var needs := ExportStages(content, names)[i].needs;
    if i > 0 {
      assert KebabAll(needs) == [ToKebabCase(names[i - 1])];
    }
  }

  predicate NonBlank(l: string) {
    l != ""
  }

  /** No line of a job is blank. */
  lemma GithubJobNoBlank(s: StageExport)
    ensures forall k :: 0 <= k < |GithubJobLines(s)| ==> NonBlank(GithubJobLines(s)[k])
  {
    FlattenAll(s.steps, GithubStepLines, NonBlank);
  }

  /** Where job `i` begins in the jobs section. */
  function GithubJobStart(stages: seq<StageExport>, i: nat): nat
    requires i < |stages|
  {
    StartOf(stages[..|stages| - 1], GithubJobBlock, i)
  }

  /**
   * Every job of the jobs section begins with its header at its start,
   * and the section does not end with a blank line.
   */
  lemma GithubJobsHeaders(stages: seq<StageExport>, i: nat)
    requires i < |stages|
    ensures GithubJobStart(stages, i) < |GithubJobsLines(stages)|
    ensures GithubJobsLines(stages)[GithubJobStart(stages, i)] == GithubJobHeader(stages[i])
    ensures NonBlank(GithubJobsLines(stages)[|GithubJobsLines(stages)| - 1])
  {
    SeparatedEnds(stages, GithubJobLines, GithubJobBlock, i);
    GithubJobNoBlank(stages[|stages| - 1]);
  }

  // ---------------------------------------------------------------------
  // GitLab CI
  // ---------------------------------------------------------------------

  /** The configuration starts with the stages list: one snake-case entry per stage, in order, then a blank line. */
  lemma GitlabStagesListed(p: PipelineExport, i: nat)
    requires i < |p.stages|
    ensures |GitlabLines(p)| >= |p.stages| + 2
    ensures GitlabLines(p)[0] == "stages:"
    ensures GitlabLines(p)[1 + i] == "  - " + ToSnakeCase(p.stages[i].name)
    ensures GitlabLines(p)[1 + |p.stages|] == ""
  {
    FlattenSingles(p.stages, GitlabStageEntry);
    var entries := Flatten(p.stages, GitlabStageEntry);
    assert GitlabLines(p) == ["stages:"] + entries + [""] + Flatten(p.stages, GitlabJobs(p.agent));
  }

  /** After the stages list come the jobs, one per stage in order, each starting with its snake-case name. */
  lemma GitlabJobsInOrder(p: PipelineExport, i: nat)
    requires i < |p.stages|
    ensures |p.stages| + 2 + StartOf(p.stages, GitlabJobs(p.agent), i) < |GitlabLines(p)|
    ensures GitlabLines(p)[|p.stages| + 2 + StartOf(p.stages, GitlabJobs(p.agent), i)] == GitlabJobHeader(p.stages[i])
  {
    FlattenSingles(p.stages, GitlabStageEntry);
    assert GitlabJobs(p.agent)(p.stages[i]) == GitlabJobLines(p.agent, p.stages[i]);
    FlattenStart(p.stages, GitlabJobs(p.agent), i);
    var head := ["stages:"] + Flatten(p.stages, GitlabStageEntry) + [""];
    assert GitlabLines(p) == head + Flatten(p.stages, GitlabJobs(p.agent));
  }

  /** A job is its name, the agent's lines, `script:`, its shell steps and a blank line. */
  lemma GitlabJobShape(agent: Option<AgentExport>, s: StageExport)
    ensures |GitlabJobLines(agent, s)| >= |GitlabAgentLines(agent)| + 3
    ensures GitlabJobLines(agent, s)[0] == GitlabJobHeader(s)
    ensures GitlabJobLines(agent, s)[|GitlabAgentLines(agent)| + 1] == "  script:"
    ensures GitlabJobLines(agent, s)[|GitlabAgentLines(agent)| + 2..|GitlabJobLines(agent, s)| - 1]
      == Flatten(ShellSteps(s.steps), GitlabShellStep)
    ensures GitlabJobLines(agent, s)[|GitlabJobLines(agent, s)| - 1] == ""
  {
    ShellOnly(s.steps);
    var front := [GitlabJobHeader(s)] + GitlabAgentLines(agent) + ["  script:"];
    assert GitlabJobLines(agent, s) == front + Flatten(s.steps, GitlabStepLines) + [""];
  }

  /**
   * The agent lines of every job, from the script: the image of
   * `agent_docker!` unless `agent_any!()` is present; the "rust" tag for
   * `agent_any!()`, or for kubernetes and label agents without a docker one;
   * nothing when no agent macro is present.
   */
  lemma GitlabAgentFromScript(content: string, caps: Captures)
    ensures !Contains(content, AnyMacro) && caps.docker.Some? ==>
      GitlabAgentLines(ParsePipeline(content, caps).agent) == ["  image: " + caps.docker.value]
    ensures Contains(content, AnyMacro) || (caps.docker.None? && (caps.kubernetes.Some? || caps.labelName.Some?)) ==>
      GitlabAgentLines(ParsePipeline(content, caps).agent) == ["  tags:", "    - rust"]
    ensures !Contains(content, AnyMacro) && caps.docker.None? && caps.kubernetes.None? && caps.labelName.None? ==>
      GitlabAgentLines(ParsePipeline(content, caps).agent) == []
  {
  }

  /** A one-stage pipeline: the stages list with its one entry, then the one job. */
  lemma GitlabOneStage(p: PipelineExport)
    requires |p.stages| == 1
    ensures GitlabLines(p) == ["stages:", "  - " + ToSnakeCase(p.stages[0].name), ""] + GitlabJobLines(p.agent, p.stages[0])
  {
    assert p.stages == [p.stages[0]];
    FlattenOne(p.stages[0], GitlabStageEntry);
    FlattenOne(p.stages[0], GitlabJobs(p.agent));
  }

  lemma EchoScriptLine()
    ensures GitlabStepLines(EchoStep()) == ["    - echo step"]
  {
    assert EchoStep().stepType == Shell;
    var l := "    - " + "echo step";
    assert |l| == 15;
    assert l == "    - echo step";
  }

  /** The job of the backend's own example. */
  lemma GitlabBuildJob(content: string, img: string)
    requires !Contains(content, AnyMacro)
    ensures GitlabJobLines(ParsePipeline(content, Captures(None, Some(img), None, None, [], ["Build"])).agent,
                           ParsePipeline(content, Captures(None, Some(img), None, None, [], ["Build"])).stages[0])
      == ["build:", "  image: " + img, "  script:", "    - echo step", ""]
  {
    var caps := Captures(None, Some(img), None, None, [], ["Build"]);
    var p := ParsePipeline(content, caps);
    var s := p.stages[0];
    CaseExamples();
    assert GitlabJobHeader(s) == "build:";
    GitlabAgentFromScript(content, caps);
    assert s.steps == [EchoStep()];
    FlattenOne(EchoStep(), GitlabStepLines);
    EchoScriptLine();
  }

  /**
   * The backend's own example: a docker agent and one "Build" stage give
   * the stages list, the "build" job and its image line.
   */
  lemma GitlabExportExample(content: string, img: string)
    requires !Contains(content, AnyMacro)
    ensures |GitlabLines(ParsePipeline(content, Captures(None, Some(img), None, None, [], ["Build"])))| == 8
    ensures GitlabLines(ParsePipeline(content, Captures(None, Some(img), None, None, [], ["Build"])))[0] == "stages:"
    ensures GitlabLines(ParsePipeline(content, Captures(None, Some(img), None, None, [], ["Build"])))[1] == "  - build"
    ensures GitlabLines(ParsePipeline(content, Captures(None, Some(img), None, None, [], ["Build"])))[3] == "build:"
    ensures GitlabLines(ParsePipeline(content, Captures(None, Some(img), None, None, [], ["Build"])))[4] == "  image: " + img
  {
    var p := ParsePipeline(content, Captures(None, Some(img), None, None, [], ["Build"]));
    GitlabOneStage(p);
    GitlabBuildJob(content, img);
    BuildEntry();
  }

  lemma BuildEntry()
    ensures "  - " + ToSnakeCase("Build") == "  - build"
  {
    CaseExamples();
  }

  // ---------------------------------------------------------------------
  // Jenkinsfile
  // ---------------------------------------------------------------------

  /**
   * The corrected Jenkinsfile is one pipeline block: it opens with
   * "pipeline {" and the agent directive, defines the agent's variable
   * first in the environment block, and ends with "}".
   */
  lemma JenkinsShape(p: PipelineExport)
    ensures |JenkinsLines(p)| >= 4 + |JenkinsAgentVar(p.agent)|
    ensures JenkinsLines(p)[0] == "pipeline {"
    ensures JenkinsLines(p)[1] == "    agent " + JenkinsAgent(p.agent)
    ensures JenkinsLines(p)[3] == "    environment {"
    ensures JenkinsLines(p)[4..4 + |JenkinsAgentVar(p.agent)|] == JenkinsAgentVar(p.agent)
    ensures JenkinsLines(p)[|JenkinsLines(p)| - 1] == "}"
  {
    var rest := Flatten(p.environment, JenkinsEnvLine) + JenkinsStagesOpen() + Flatten(p.stages, JenkinsStageLines);
    assert JenkinsLines(p) == JenkinsOpenLines(p.agent) + JenkinsAgentVar(p.agent) + rest + JenkinsCloseLines();
    SliceMiddle(JenkinsOpenLines(p.agent), JenkinsAgentVar(p.agent), rest + JenkinsCloseLines());
  }

  /**
   * The Jenkinsfile as written: the agent's variable definition, if any,
   * then one pipeline block that opens with "pipeline {" and the agent
   * directive, has an environment block, and ends with "}".
   */
  lemma JenkinsAsWrittenShape(p: PipelineExport)
    ensures var l, v := JenkinsLinesAsWritten(p), JenkinsAgentVar(p.agent);
      && |l| >= 4 + |v|
      && l[..|v|] == v
      && l[|v|] == "pipeline {"
      && l[|v| + 1] == "    agent " + JenkinsAgent(p.agent)
      && l[|v| + 3] == "    environment {"
      && l[|l| - 1] == "}"
  {
    var v := JenkinsAgentVar(p.agent);
    var rest := Flatten(p.environment, JenkinsEnvLine) + JenkinsStagesOpen() + Flatten(p.stages, JenkinsStageLines);
    var block := JenkinsOpenLines(p.agent) + (rest + JenkinsCloseLines());
    assert JenkinsLinesAsWritten(p) == v + block;
    assert block[0] == "pipeline {" && block[1] == "    agent " + JenkinsAgent(p.agent) && block[3] == "    environment {";
  }

  /** A docker or label agent defines exactly one variable, on an indented line. */
  lemma JenkinsAgentVarLine(agent: Option<AgentExport>)
    requires agent.Some? && agent.value.kind in {DockerAgent, LabelAgent}
    ensures |JenkinsAgentVar(agent)| == 1
    ensures |JenkinsAgentVar(agent)[0]| > 0 && JenkinsAgentVar(agent)[0][0] == ' '
  {
  }

  /**
   * As written, a docker or label agent makes the Jenkinsfile start with
   * the variable definition, outside the pipeline block, and "pipeline {"
   * comes second; the corrected file starts with "pipeline {".
   */
  lemma JenkinsAsWrittenOutside(p: PipelineExport)
    requires p.agent.Some? && p.agent.value.kind in {DockerAgent, LabelAgent}
    ensures JenkinsLinesAsWritten(p)[0] == JenkinsAgentVar(p.agent)[0]
    ensures JenkinsLinesAsWritten(p)[0] != "pipeline {"
    ensures JenkinsLinesAsWritten(p)[1] == "pipeline {"
    ensures JenkinsLines(p)[0] == "pipeline {"
  {
    JenkinsAgentVarLine(p.agent);
    JenkinsShape(p);
    var line := JenkinsAgentVar(p.agent)[0];
    assert line[0] != "pipeline {"[0];
    var rest := Flatten(p.environment, JenkinsEnvLine) + JenkinsStagesOpen() + Flatten(p.stages, JenkinsStageLines);
    assert JenkinsLinesAsWritten(p) == JenkinsAgentVar(p.agent) + (JenkinsOpenLines(p.agent) + rest + JenkinsCloseLines());
  }

  /** Without a variable to define, the written and the corrected file are the same. */
  lemma JenkinsAsWrittenAgrees(p: PipelineExport)
    requires p.agent.None? || p.agent.value.kind in {AnyAgent, KubernetesAgent}
    ensures JenkinsLinesAsWritten(p) == JenkinsLines(p)
  {
    assert JenkinsAgentVar(p.agent) == [];
  }
}
