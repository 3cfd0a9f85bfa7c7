/**
 * The `sh` support of the `src/` executor: `${NAME}` expansion, the
 * Jenkins variables of a shell configuration, the outcome of one shell
 * command and the merge of the per-command environment.
 */
module RustlineShell {
  import opened Wrappers
  import opened Strings
  import opened Durations
  import opened RustlineErrors

  // ---------------------------------------------------------------------
  // `${NAME}` placeholders, NAME matching [A-Za-z_][A-Za-z0-9_]*
  // ---------------------------------------------------------------------

  predicate IsNameStart(c: char) {
    ('A' <= c <= 'Z') || ('a' <= c <= 'z') || c == '_'
  }

  predicate IsNameChar(c: char) {
    IsNameStart(c) || ('0' <= c <= '9')
  }

  /** A variable name the expansion pattern accepts. */
  predicate IsName(n: string) {
    |n| > 0 && IsNameStart(n[0]) && forall i :: 1 <= i < |n| ==> IsNameChar(n[i])
  }

  /** The length of the longest prefix of `s` made of name characters. */
  function NameRun(s: string): (k: nat)
    ensures k <= |s|
    ensures forall i :: 0 <= i < k ==> IsNameChar(s[i])
    ensures k < |s| ==> !IsNameChar(s[k])
  {
    if |s| == 0 || !IsNameChar(s[0]) then 0 else 1 + NameRun(s[1..])
  }

  /**
   * Whether the pattern matches at the start of `s`, and if so the length
   * of the captured name: `${`, a name, and `}` right after the longest
   * name run (a name character can never be `}`, so no shorter run matches).
   */
  function PlaceholderAt(s: string): (r: Option<nat>)
    ensures r.Some? ==>
      (3 + r.value <= |s| && s[0] == '$' && s[1] == '{'
       && IsName(s[2..2 + r.value]) && s[2 + r.value] == '}')
  {
    if 3 <= |s| && s[0] == '$' && s[1] == '{' && IsNameStart(s[2]) then
      var n := NameRun(s[2..]);
      if 2 + n < |s| && s[2 + n] == '}' then Some(n) else None
    else None
  }

  lemma {:induction false} NameRunOfName(name: string, rest: string)
    requires forall i :: 0 <= i < |name| ==> IsNameChar(name[i])
    ensures NameRun(name + "}" + rest) == |name|
    decreases |name|
  {
    if |name| == 0 {
      assert (name + "}" + rest)[0] == '}';
    } else {
      assert (name + "}" + rest)[1..] == name[1..] + "}" + rest;
      NameRunOfName(name[1..], rest);
    }
  }

  /** The converse of `PlaceholderAt`'s contract: every `${NAME}` at the start is found. */
  lemma PlaceholderAtToken(name: string, rest: string)
    requires IsName(name)
    ensures PlaceholderAt("${" + name + "}" + rest) == Some(|name|)
  {
    var s := "${" + name + "}" + rest;
    assert s[2..] == name + "}" + rest;
    NameRunOfName(name, rest);
  }

  /**
   * `expand_variables`: one left-to-right pass of the pattern; a known name
   * is replaced by its value, an unknown placeholder is kept verbatim, and
   * the text after a match is scanned from the end of the match.
   */
  function Expand(s: string, env: map<string, string>): (r: string)
    decreases |s|
  {
    if |s| == 0 then ""
    else match PlaceholderAt(s)
      case Some(n) =>
        (if s[2..2 + n] in env then env[s[2..2 + n]] else s[..3 + n]) + Expand(s[3 + n..], env)
      case None => [s[0]] + Expand(s[1..], env)
  }

  /**
   * A placeholder followed by any text: its value (or itself when unknown),
   * then the expansion of the rest. The value is never scanned again, so a
   * value that itself looks like `${OTHER}` stays as it is.
   */
  lemma ExpandToken(name: string, rest: string, env: map<string, string>)
    requires IsName(name)
    ensures Expand("${" + name + "}" + rest, env)
         == (if name in env then env[name] else "${" + name + "}") + Expand(rest, env)
  {
    var s := "${" + name + "}" + rest;
    PlaceholderAtToken(name, rest);
    var n := |name|;
    assert s[2..2 + n] == name;
    assert s[..3 + n] == "${" + name + "}";
    assert s[3 + n..] == rest;
  }

  /** No match starts anywhere in `s`. */
  predicate NoPlaceholder(s: string) {
    forall i :: 0 <= i < |s| ==> PlaceholderAt(s[i..]).None?
  }

  /** Text in which the pattern matches nowhere comes back unchanged. */
  lemma {:induction false} ExpandIdentity(s: string, env: map<string, string>)
    requires NoPlaceholder(s)
    ensures Expand(s, env) == s
    decreases |s|
  {
    if |s| > 0 {
      assert s[0..] == s;
      assert NoPlaceholder(s[1..]) by {
        forall i | 0 <= i < |s[1..]|
          ensures PlaceholderAt(s[1..][i..]).None?
        {
          assert s[1..][i..] == s[i + 1..];
        }
      }
      ExpandIdentity(s[1..], env);
    }
  }

  /** Without the two characters "${" side by side, bare `$VAR` included, nothing is expanded. */
  lemma ExpandWithoutDollarBrace(s: string, env: map<string, string>)
    requires forall i :: 0 <= i < |s| - 1 ==> !(s[i] == '$' && s[i + 1] == '{')
    ensures Expand(s, env) == s
  {
    forall i | 0 <= i < |s|
      ensures PlaceholderAt(s[i..]).None?
    {
      if i + 1 < |s| {
        assert s[i..][1] == s[i + 1];
      }
    }
    ExpandIdentity(s, env);
  }

  /** With an empty environment every placeholder is unknown, so the text is unchanged. */
  lemma {:induction false} ExpandEmptyEnv(s: string)
    ensures Expand(s, map[]) == s
    decreases |s|
  {
    if |s| > 0 {
      match PlaceholderAt(s)
      case Some(n) =>
        ExpandEmptyEnv(s[3 + n..]);
        assert s[..3 + n] + s[3 + n..] == s;
      case None =>
        ExpandEmptyEnv(s[1..]);
        assert [s[0]] + s[1..] == s;
    }
  }

  // ---------------------------------------------------------------------
  // expand_variables_with_info
  // ---------------------------------------------------------------------

  /** The names captured by the pattern's successive matches in `s`. */
  function Placeholders(s: string): (r: seq<string>)
    ensures forall k :: 0 <= k < |r| ==> IsName(r[k])
    decreases |s|
  {
    if |s| == 0 then []
    else match PlaceholderAt(s)
      case Some(n) => [s[2..2 + n]] + Placeholders(s[3 + n..])
      case None => Placeholders(s[1..])
  }

  /**
   * The `found` list after visiting `names` in order: a name is appended
   * when it is an environment key not yet listed.
   */
  function Collect(names: seq<string>, env: map<string, string>, found: seq<string>): (r: seq<string>)
    decreases |names|
  {
    if |names| == 0 then found
    else Collect(names[1..], env,
                 if names[0] in env && names[0] !in found then found + [names[0]] else found)
  }

  lemma {:induction false} CollectFacts(names: seq<string>, env: map<string, string>, found: seq<string>)
    requires forall i, j :: 0 <= i < j < |found| ==> found[i] != found[j]
    ensures var r := Collect(names, env, found);
      (forall i, j :: 0 <= i < j < |r| ==> r[i] != r[j])
      && (forall x :: x in r <==> x in found || (x in names && x in env))
      && |found| <= |r| && r[..|found|] == found
    decreases |names|
  {
    if |names| > 0 {
      var next := if names[0] in env && names[0] !in found then found + [names[0]] else found;
      CollectFacts(names[1..], env, next);
      var r := Collect(names, env, found);
      assert r == Collect(names[1..], env, next);
      assert r[..|found|] == next[..|found|];
      forall x
        ensures x in r <==> x in found || (x in names && x in env)
      {
        assert x in names <==> x == names[0] || x in names[1..];
      }
    }
  }

  /**
   * `expand_variables_with_info`: the expanded text, and the environment
   * keys that still occur as placeholders in it, each listed once, in the
   * order they first occur.
   */
  method ExpandWithInfo(input: string, env: map<string, string>) returns (expanded: string, found: seq<string>)
    ensures expanded == Expand(input, env)
    ensures found == Collect(Placeholders(expanded), env, [])
    ensures forall i, j :: 0 <= i < j < |found| ==> found[i] != found[j]
    ensures forall x :: x in found <==> x in Placeholders(expanded) && x in env
  {
    expanded := Expand(input, env);
    // the names of `captures_iter` over the expanded text, in order
    var names := Placeholders(expanded);
    found := [];
    var k := 0;
    while k < |names|
      invariant 0 <= k <= |names|
      invariant Collect(names[k..], env, found) == Collect(names, env, [])
      decreases |names| - k
    {
      var name := names[k];
      assert names[k..][1..] == names[k + 1..];
      if name in env && name !in found {
        found := found + [name];
      }
      k := k + 1;
    }
    assert names[k..] == [];
    CollectFacts(names, env, []);
  }

  // ---------------------------------------------------------------------
  // ShellConfig and jenkins_shell_config
  // ---------------------------------------------------------------------

  /** `ShellConfig`: working directory, environment, shell, streaming flag, timeout. */
  datatype ShellConfig = ShellConfig(
    cwd: string,
    env: map<string, string>,
    shell: string,
    streaming: bool,
    timeout: Option<Duration>)

  /**
   * The eight Jenkins variables before `extra_env`; the build id is a fresh
   * UUID in the source and an input here.
   */
  function JenkinsBaseEnv(workspace: string, jobName: string, buildNumber: nat,
                          stageName: Option<string>, buildId: string): (env: map<string, string>)
    ensures env.Keys == {"WORKSPACE", "WORKSPACE_TMP", "BUILD_NUMBER", "BUILD_ID",
                         "JOB_NAME", "STAGE_NAME", "NODE_NAME", "JENKINS_URL"}
    ensures env["WORKSPACE"] == workspace && env["WORKSPACE_TMP"] == "@tmp"
    ensures env["BUILD_NUMBER"] == NatToString(buildNumber) && env["BUILD_ID"] == buildId
    ensures env["JOB_NAME"] == jobName && env["NODE_NAME"] == "local"
    ensures env["STAGE_NAME"] == (if stageName.Some? then stageName.value else "")
    ensures env["JENKINS_URL"] == "http://localhost:8080"
  {
    map["WORKSPACE" := workspace,
        "WORKSPACE_TMP" := "@tmp",
        "BUILD_NUMBER" := NatToString(buildNumber),
        "BUILD_ID" := buildId,
        "JOB_NAME" := jobName,
        "STAGE_NAME" := (if stageName.Some? then stageName.value else ""),
        "NODE_NAME" := "local",
        "JENKINS_URL" := "http://localhost:8080"]
  }

  /**
   * `jenkins_shell_config`: the Jenkins variables, each `extra_env` entry
   * inserted over them, and the working directory taken from the final
   * WORKSPACE value.
   */
  method JenkinsShellConfig(workspace: string, jobName: string, buildNumber: nat,
                            stageName: Option<string>, extraEnv: Option<map<string, string>>,
                            buildId: string) returns (config: ShellConfig)
    ensures var base := JenkinsBaseEnv(workspace, jobName, buildNumber, stageName, buildId);
      config.env == (if extraEnv.Some? then base + extraEnv.value else base)
    ensures forall k :: k in config.env ==>
      config.env[k] == (if extraEnv.Some? && k in extraEnv.value then extraEnv.value[k]
                        else JenkinsBaseEnv(workspace, jobName, buildNumber, stageName, buildId)[k])
    ensures "WORKSPACE" in config.env && config.cwd == config.env["WORKSPACE"]
    ensures config.shell == "sh" && !config.streaming && config.timeout == None
  {
    var env := JenkinsBaseEnv(workspace, jobName, buildNumber, stageName, buildId);
    ghost var base := env;
    if extraEnv.Some? {
      var extra := extraEnv.value;
      var rest := extra.Keys;
      while rest != {}
        invariant rest <= extra.Keys
        invariant env.Keys == base.Keys + (extra.Keys - rest)
        invariant forall k :: k in env ==>
          env[k] == (if k in extra && k !in rest then extra[k] else base[k])
        decreases |rest|
      {
        var k :| k in rest;
        env := env[k := extra[k]];
        rest := rest - {k};
      }
      assert env == base + extra;
    }
    config := ShellConfig(env["WORKSPACE"], env, "sh", false, None);
  }

  // ---------------------------------------------------------------------
  // ShellResult and ShellCommand
  // ---------------------------------------------------------------------

  /** `ShellResult`: captured output, the i32 exit code and the elapsed time. */
  datatype ShellResult = ShellResult(stdout: string, stderr: string, exitCode: int, duration: Duration)

  /** `ShellResult::is_success`. */
  predicate IsSuccess(r: ShellResult) {
    r.exitCode == 0
  }

  /** `ShellResult::is_failure`. */
  predicate IsFailure(r: ShellResult) {
    r.exitCode != 0
  }

  /** Every result is exactly one of success and failure. */
  lemma SuccessXorFailure(r: ShellResult)
    ensures IsSuccess(r) != IsFailure(r)
    ensures IsSuccess(r) <==> r.exitCode == 0
  {
  }

  /** `ShellCommand`: the configuration it runs under and its own environment overrides. */
  datatype ShellCommand = ShellCommand(config: ShellConfig, envOverride: map<string, string>)

  /** `ShellCommand::new`: no overrides. */
  function NewShellCommand(config: ShellConfig): (c: ShellCommand)
    ensures c.config == config && c.envOverride == map[]
  {
    ShellCommand(config, map[])
  }

  /** `ShellCommand::env`: one override, replacing an earlier one for the same key. */
  function WithEnv(c: ShellCommand, key: string, value: string): (r: ShellCommand)
    ensures r.config == c.config
    ensures key in r.envOverride && r.envOverride[key] == value
    ensures forall k :: k != key ==> (k in r.envOverride <==> k in c.envOverride)
    ensures forall k :: k != key && k in c.envOverride ==> r.envOverride[k] == c.envOverride[k]
  {
    ShellCommand(c.config, c.envOverride[key := value])
  }

  /** The environment the child process gets: the configuration's, then the overrides over it. */
  function MergedEnv(c: ShellCommand): (env: map<string, string>)
    ensures forall k :: k in env <==> k in c.config.env || k in c.envOverride
    ensures forall k :: k in c.envOverride ==> env[k] == c.envOverride[k]
    ensures forall k :: k in c.config.env && k !in c.envOverride ==> env[k] == c.config.env[k]
  {
    c.config.env + c.envOverride
  }

  /**
   * What the operating system reported for `<shell> -c <command>`: the
   * spawn failed with an I/O error, or the process ended with its output
   * and exit code (None when killed by a signal).
   */
  datatype ProcessOutput =
    | SpawnError(message: string)
    | Finished(stdout: string, stderr: string, code: Option<int>)

  /** The shell process as an oracle over (expanded command, environment, working directory). */
  type ShellOracle = (string, map<string, string>, string) -> ProcessOutput

  /**
   * The common ending of `execute_captured` and `execute_streaming`: a spawn
   * failure is `Io`, a non-zero exit code (-1 without one) is
   * `CommandFailed` with the standard error, and only exit code 0 is Ok.
   */
  function Outcome(out: ProcessOutput, elapsed: Duration): (r: Result<ShellResult, PipelineError>)
    ensures out.SpawnError? ==> r == Err(Io(out.message))
    ensures r.Ok? ==> IsSuccess(r.value)
    ensures out.Finished? ==>
      var code := if out.code.Some? then out.code.value else -1;
      (r.Ok? <==> code == 0)
      && (code != 0 ==> r == Err(CommandFailed(code, out.stderr)))
      && (r.Ok? ==> r.value.stdout == out.stdout && r.value.stderr == out.stderr)
  {
    match out
    case SpawnError(message) => Err(Io(message))
    case Finished(stdout, stderr, code) =>
      var exitCode := if code.Some? then code.value else -1;
      if exitCode != 0 then Err(CommandFailed(exitCode, stderr))
      else Ok(ShellResult(stdout, stderr, exitCode, elapsed))
  }

  /**
   * `ShellCommand::execute`: the command is expanded against the
   * configuration's environment only (not the overrides), and the process
   * runs with the merged environment in the configured directory.
   */
  function Execute(c: ShellCommand, command: string, run: ShellOracle, elapsed: Duration)
    : (r: Result<ShellResult, PipelineError>)
    ensures r == Outcome(run(Expand(command, c.config.env), MergedEnv(c), c.config.cwd), elapsed)
    ensures r.Ok? ==> r.value.exitCode == 0
  {
    Outcome(run(Expand(command, c.config.env), MergedEnv(c), c.config.cwd), elapsed)
  }
}
