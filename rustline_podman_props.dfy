/**
 * Properties of the Podman executor: the environment a container sees,
 * the calls a shell step makes and what decides its result, the parts of
 * the configuration that play no part, and the order of the socket calls
 * of a whole run.
 */
module RustlinePodmanProps {
  import opened Wrappers
  import opened Assoc
  import opened RustlineErrors
  import opened RustlineTypes
  import opened RustlineSteps
  import opened RustlinePodmanHttp
  import opened JsonValues
  import opened RustlinePodman
  import RustlineAgent
  import RustlineStage
  import RustlinePipeline

  /**
   * The container's environment: a context variable wins over the stage
   * configuration's variable of the same name; every other configured
   * variable is kept.
   */
  lemma ContainerEnvOverlay(config: RustlineAgent.PodmanConfig, site: Site, k: string)
    requires Distinct(config.environment) && Distinct(site.env)
    ensures Get(ContainerEnv(config, site), k)
         == if HasKey(site.env, k) then Get(site.env, k) else Get(config.environment, k)
  {
    InsertAllAppend([], config.environment, site.env);
    GetInsertAll(InsertAll([], config.environment), site.env, k);
    GetInsertAll([], config.environment, k);
  }

  /** The request a client call sends, by verb and path, without a body. */
  function Plain(client: Client, verb: string, path: string): Call {
    SendCall(client, verb, path, None)
  }

  /** The calls after a container was created: start, wait, logs, and the removal when configured. */
  function AfterCreate(client: Client, id: string, remove: bool): seq<Call> {
    [Plain(client, "POST", ContainerPath(id, "/start")),
     Plain(client, "POST", ContainerPath(id, "/wait")),
     Plain(client, "GET", ContainerPath(id, "/logs?stdout=true&stderr=true"))]
    + (if remove then [Plain(client, "DELETE", ContainerPath(id, ""))] else [])
  }

  /** The creation call of a shell step. */
  function CreateRunOf(config: RustlineAgent.PodmanConfig, command: string, client: Client, site: Site, w: World,
                       log: seq<Call>): Reply<string> {
    CreateRun(client, config.image, command, ContainerEnv(config, site), WorkingDir(config, site),
              config.cgroupManager, w, log)
  }

  /**
   * A shell step that got as far as its exit code made exactly these calls:
   * create, start, wait, logs, then the removal if and only if the stage
   * asks for it; its result is decided by the exit code alone (a failed
   * removal changes nothing), and a non-zero code fails with empty stderr.
   */
  lemma ContainerCallOrder(config: RustlineAgent.PodmanConfig, command: string, client: Client, site: Site,
                           w: World, log: seq<Call>)
    requires var r := ContainerRun(config, command, client, site, w, log);
      r.result.Ok? || r.result.error.CommandFailed?
    ensures var c := CreateRunOf(config, command, client, site, w, log);
      && c.result.Ok?
      && var id := c.result.value;
         var wait := WaitRun(client, id, w, c.log + [Plain(client, "POST", ContainerPath(id, "/start"))]);
         var r := ContainerRun(config, command, client, site, w, log);
         && wait.result.Ok?
         && r.log == c.log + AfterCreate(client, id, config.remove)
         && r.result == if wait.result.value != 0 then Err(CommandFailed(wait.result.value, "")) else Ok(Unit)
  {
    var c := CreateRunOf(config, command, client, site, w, log);
    LifeCallOrder(client, c.result.value, config.remove, w, c.log);
  }

  lemma AppendThree(log: seq<Call>, a: Call, b: Call, c: Call)
    ensures log + [a] + [b] + [c] == log + ([a, b, c] + [])
  {
    assert [a, b, c] + [] == [a, b, c];
  }

  lemma AppendFour(log: seq<Call>, a: Call, b: Call, c: Call, d: Call)
    ensures log + [a] + [b] + [c] + [d] == log + ([a, b, c] + [d])
  {
    assert [a, b, c] + [d] == [a, b, c, d];
  }

  /** The calls and result of a container's life that got as far as its exit code. */
  lemma LifeCallOrder(client: Client, id: string, remove: bool, w: World, log: seq<Call>)
    requires var r := LifeRun(client, id, remove, w, log);
      r.result.Ok? || r.result.error.CommandFailed?
    ensures var wait := WaitRun(client, id, w, log + [Plain(client, "POST", ContainerPath(id, "/start"))]);
      var r := LifeRun(client, id, remove, w, log);
      && wait.result.Ok?
      && r.log == log + AfterCreate(client, id, remove)
      && r.result == if wait.result.value != 0 then Err(CommandFailed(wait.result.value, "")) else Ok(Unit)
  {
    var start := Plain(client, "POST", ContainerPath(id, "/start"));
    var wait := Plain(client, "POST", ContainerPath(id, "/wait"));
    var logs := Plain(client, "GET", ContainerPath(id, "/logs?stdout=true&stderr=true"));
    var lg := LogsRun(client, id, w, WaitRun(client, id, w, StartRun(client, id, w, log).log).log);
    AppendThree(log, start, wait, logs);
    assert lg.log == log + AfterCreate(client, id, false);
    if remove {
      var remove := Plain(client, "DELETE", ContainerPath(id, ""));
      AppendFour(log, start, wait, logs, remove);
    }
  }

  /** The first call of a shell step creates the container from the stage's image, command and environment. */
  lemma CreateComesFirst(config: RustlineAgent.PodmanConfig, command: string, client: Client, site: Site,
                         w: World, log: seq<Call>)
    ensures var r := ContainerRun(config, command, client, site, w, log);
      && |r.log| > |log|
      && r.log[|log|] == SendCall(client, "POST", "/containers/create",
                                  Some(w.codec.encode(CreateSpec(config.image, command, ContainerEnv(config, site),
                                                                 WorkingDir(config, site), config.cgroupManager))))
  {
    var r := ContainerRun(config, command, client, site, w, log);
    ContainerLogGrows(config, command, client, site, w, log);
    var c := CreateRunOf(config, command, client, site, w, log);
    assert r.log[|log|] == r.log[..|c.log|][|log|];
  }

  /** The calls `longer` records begin with those of `shorter`. */
  predicate Extends(longer: seq<Call>, shorter: seq<Call>) {
    |shorter| <= |longer| && longer[..|shorter|] == shorter
  }

  lemma ExtendsAppend(s: seq<Call>, t: seq<Call>)
    ensures Extends(s + t, s)
  {
    assert (s + t)[..|s|] == s;
  }

  lemma ExtendsTrans(a: seq<Call>, b: seq<Call>, c: seq<Call>)
    requires Extends(a, b) && Extends(b, c)
    ensures Extends(a, c)
  {
    assert a[..|c|] == a[..|b|][..|c|];
  }

  lemma ExtendsAt(longer: seq<Call>, shorter: seq<Call>, i: nat)
    requires Extends(longer, shorter) && i < |shorter|
    ensures longer[i] == shorter[i]
  {
    assert longer[i] == longer[..|shorter|][i];
  }

  /** A shell step makes between one and five calls, after those already made. */
  lemma ContainerLogGrows(config: RustlineAgent.PodmanConfig, command: string, client: Client, site: Site,
                          w: World, log: seq<Call>)
    ensures var r := ContainerRun(config, command, client, site, w, log);
      var c := CreateRunOf(config, command, client, site, w, log);
      |log| < |r.log| <= |log| + 5 && r.log[..|c.log|] == c.log && c.log[..|log|] == log
  {
    var c := CreateRunOf(config, command, client, site, w, log);
    assert c.log == log + [c.log[|log|]];
    ExtendsAppend(log, [c.log[|log|]]);
    if c.result.Ok? {
      LifeLogGrows(client, c.result.value, config.remove, w, c.log);
    } else {
      ExtendsAppend(c.log, []);
    }
  }

  /** A container's life makes between one and four calls, after those already made. */
  lemma LifeLogGrows(client: Client, id: string, remove: bool, w: World, log: seq<Call>)
    ensures var r := LifeRun(client, id, remove, w, log);
      |log| < |r.log| <= |log| + 4 && r.log[..|log|] == log
  {
    var s := StartRun(client, id, w, log);
    ExtendsAppend(log, [Plain(client, "POST", ContainerPath(id, "/start"))]);
    if s.result.Ok? {
      var wait := WaitRun(client, id, w, s.log);
      ExtendsAppend(s.log, [Plain(client, "POST", ContainerPath(id, "/wait"))]);
      ExtendsTrans(wait.log, s.log, log);
      if wait.result.Ok? {
        var lg := LogsRun(client, id, w, wait.log);
        ExtendsAppend(wait.log, [Plain(client, "GET", ContainerPath(id, "/logs?stdout=true&stderr=true"))]);
        ExtendsTrans(lg.log, wait.log, log);
        if lg.result.Ok? && remove {
          var rm := RemoveRun(client, id, w, lg.log);
          ExtendsAppend(lg.log, [Plain(client, "DELETE", ContainerPath(id, ""))]);
          ExtendsTrans(rm.log, lg.log, log);
        }
      }
    }
  }

  /** Steps only add socket calls. */
  lemma {:induction false} StepsLogGrows(steps: seq<Step>, config: RustlineAgent.PodmanConfig, client: Client,
                                         site: Site, w: World, log: seq<Call>)
    ensures var s := StepsRun(steps, config, client, site, w, log);
      |s.log| >= |log| && s.log[..|log|] == log
    decreases |steps|
  {
    if |steps| > 0 {
      var s := StepRun(steps[0], config, client, site, w, log);
      if steps[0].stepType.Shell? {
        ContainerLogGrows(config, steps[0].stepType.command, client, site, w, log);
      } else {
        ExtendsAppend(log, []);
      }
      assert Extends(s.log, log);
      if s.result.Ok? {
        StepsLogGrows(steps[1..], config, client, site, w, s.log);
        ExtendsTrans(StepsRun(steps[1..], config, client, site, w, s.log).log, s.log, log);
      }
    }
  }

  /** The stage loop only adds socket calls. */
  lemma {:induction false} StagesLogGrows(stages: seq<RustlineStage.Stage>, retryNone: bool, client: Client, site: Site,
                                          w: World, log: seq<Call>, recorded: Entries<StageResult>)
    ensures var e := StagesFrom(stages, retryNone, client, site, w, log, recorded);
      |e.log| >= |log| && e.log[..|log|] == log
    decreases |stages|
  {
    ExtendsAppend(log, []);
    if |stages| > 0 {
      var s := StageRun(stages[0], client, site, w, log);
      if stages[0].agent.Some? && stages[0].agent.value.Podman? {
        StepsLogGrows(stages[0].steps, stages[0].agent.value.podman, client, site, w, log);
      }
      assert Extends(s.log, log);
      if s.result.Ok? {
        var rec := Insert(recorded, stages[0].name, s.result.value);
        StagesLogGrows(stages[1..], retryNone, client, site, w, s.log, rec);
        ExtendsTrans(StagesFrom(stages[1..], retryNone, client, site, w, s.log, rec).log, s.log, log);
      }
    }
  }

  /** The calls of a run with a Podman agent: those up to the step that ended it. */
  lemma ExecuteRunLog(p: RustlinePipeline.Pipeline, processEnv: Entries<string>, cwd: string, w: World,
                      log: seq<Call>)
    requires p.agent.Podman?
    ensures var r := ExecuteRun(p, processEnv, cwd, w, log);
      var c := ConnectRun(ClientConfigOf(p.agent.podman), w, log);
      r.log == if c.result.Err? then c.log
               else var ping := PingRun(c.result.value, w, c.log);
                 if ping.result.Err? then ping.log
                 else PipelineStages(p, processEnv, cwd, c.result.value, w, ping.log).log
  {
  }

  /** A run that ended at the ping or after the stages extends both the connection's calls and the ping's. */
  lemma ExtendsPast(r: seq<Call>, c: seq<Call>, ping: seq<Call>, stages: seq<Call>, pingFailed: bool)
    requires Extends(ping, c) && Extends(stages, ping)
    requires r == if pingFailed then ping else stages
    ensures Extends(r, c) && Extends(r, ping)
  {
    ExtendsAppend(ping, []);
    ExtendsTrans(r, ping, c);
  }

  /** The calls of a run with a Podman agent begin with its connection and, once connected, its ping. */
  lemma PodmanRunExtends(p: RustlinePipeline.Pipeline, processEnv: Entries<string>, cwd: string, w: World,
                         log: seq<Call>)
    requires p.agent.Podman?
    ensures var r := ExecuteRun(p, processEnv, cwd, w, log);
      var c := ConnectRun(ClientConfigOf(p.agent.podman), w, log);
      && Extends(r.log, c.log)
      && (c.result.Ok? ==> Extends(r.log, PingRun(c.result.value, w, c.log).log))
  {
    var c := ConnectRun(ClientConfigOf(p.agent.podman), w, log);
    ExecuteRunLog(p, processEnv, cwd, w, log);
    if c.result.Err? {
      ExtendsAppend(c.log, []);
    } else {
      var ping := PingRun(c.result.value, w, c.log);
      ExtendsAppend(c.log, [Plain(c.result.value, "GET", "/_ping")]);
      var site := Site(RunEnv(p, processEnv), cwd);
      StagesLogGrows(p.stages, p.options.retry.None?, c.result.value, site, w, ping.log, []);
      var e := PipelineStages(p, processEnv, cwd, c.result.value, w, ping.log);
      ExtendsPast(ExecuteRun(p, processEnv, cwd, w, log).log, c.log, ping.log, e.log, ping.result.Err?);
    }
  }

  /**
   * A run with a Podman agent first connects to the agent's socket and
   * then pings; a run without one makes no call at all.
   */
  lemma ConnectThenPing(p: RustlinePipeline.Pipeline, processEnv: Entries<string>, cwd: string, w: World,
                        log: seq<Call>)
    ensures var r := ExecuteRun(p, processEnv, cwd, w, log);
      && (!p.agent.Podman? ==> r.log == log)
      && (p.agent.Podman? ==> |r.log| > |log| && r.log[|log|] == Dial(p.agent.podman.socketPath))
      && (p.agent.Podman? && !w.socket(|log|, Dial(p.agent.podman.socketPath)).Refused? ==>
            |r.log| > |log| + 1
            && r.log[|log| + 1] == Plain(Client(p.agent.podman.socketPath, ApiVersionHeader(p.agent.podman.apiVersion)),
                                         "GET", "/_ping"))
  {
    if p.agent.Podman? {
      var r := ExecuteRun(p, processEnv, cwd, w, log);
      var dial := Dial(p.agent.podman.socketPath);
      var c := ConnectRun(ClientConfigOf(p.agent.podman), w, log);
      assert c.log == log + [dial];
      PodmanRunExtends(p, processEnv, cwd, w, log);
      ExtendsAt(r.log, c.log, |log|);
      assert r.log[|log|] == dial;
      if !w.socket(|log|, dial).Refused? {
        var client := Client(p.agent.podman.socketPath, ApiVersionHeader(p.agent.podman.apiVersion));
        assert c.result == Ok(client);
        var ping := PingRun(client, w, c.log);
        assert ping.log == log + [dial] + [Plain(client, "GET", "/_ping")];
        ExtendsAt(r.log, ping.log, |log| + 1);
      }
    }
  }

  /** A stage never returns a failed result, so the pipeline's retry option never changes the stage loop. */
  lemma {:induction false} RetryOptionIrrelevant(stages: seq<RustlineStage.Stage>, client: Client, site: Site,
                                                 w: World, log: seq<Call>, recorded: Entries<StageResult>)
    ensures StagesFrom(stages, true, client, site, w, log, recorded)
         == StagesFrom(stages, false, client, site, w, log, recorded)
    decreases |stages|
  {
    if |stages| > 0 {
      var s := StageRun(stages[0], client, site, w, log);
      if s.result.Ok? {
        RetryOptionIrrelevant(stages[1..], client, site, w, s.log, Insert(recorded, stages[0].name, s.result.value));
      }
    }
  }

  /** A completed stage loop recorded every stage's name, each with Success. */
  /** A name is among the stages exactly when it is the first one's or among the rest. */
  lemma NamedSplit(stages: seq<RustlineStage.Stage>, k: string)
    requires |stages| > 0
    ensures (exists i :: 0 <= i < |stages| && stages[i].name == k)
        <==> stages[0].name == k || exists i :: 0 <= i < |stages[1..]| && stages[1..][i].name == k
  {
    if exists i :: 0 <= i < |stages[1..]| && stages[1..][i].name == k {
      var i :| 0 <= i < |stages[1..]| && stages[1..][i].name == k;
      assert stages[i + 1].name == k;
    }
    if exists i :: 0 <= i < |stages| && stages[i].name == k {
      var i :| 0 <= i < |stages| && stages[i].name == k;
      if i > 0 {
        assert stages[1..][i - 1].name == k;
      }
    }
  }

  lemma {:induction false} CompletedRecordsAll(stages: seq<RustlineStage.Stage>, retryNone: bool, client: Client,
                                               site: Site, w: World, log: seq<Call>, recorded: Entries<StageResult>,
                                               k: string)
    requires StagesFrom(stages, retryNone, client, site, w, log, recorded).result.Ok?
    ensures var e := StagesFrom(stages, retryNone, client, site, w, log, recorded);
      Get(e.recorded, k) == if exists i :: 0 <= i < |stages| && stages[i].name == k then Some(Success) else Get(recorded, k)
    decreases |stages|
  {
    if |stages| > 0 {
      var s := StageRun(stages[0], client, site, w, log);
      var rec := Insert(recorded, stages[0].name, s.result.value);
      CompletedRecordsAll(stages[1..], retryNone, client, site, w, s.log, rec, k);
      GetInsert(recorded, stages[0].name, s.result.value, k);
      NamedSplit(stages, k);
    }
  }

  /**
   * The stage configuration's socket, API version, extra arguments and
   * network play no part in running a shell step: the client comes from the
   * pipeline's agent.
   */
  lemma UnusedStageSettings(config: RustlineAgent.PodmanConfig, socketPath: string, apiVersion: string,
                            args: seq<string>, network: Option<string>, command: string, client: Client, site: Site,
                            w: World, log: seq<Call>)
    ensures ContainerRun(config.(socketPath := socketPath, apiVersion := apiVersion, args := args, network := network),
                         command, client, site, w, log)
         == ContainerRun(config, command, client, site, w, log)
  {
    var c2 := config.(socketPath := socketPath, apiVersion := apiVersion, args := args, network := network);
    assert ContainerEnv(c2, site) == ContainerEnv(config, site);
    assert WorkingDir(c2, site) == WorkingDir(config, site);
  }
}
