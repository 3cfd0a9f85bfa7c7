/**
 * The Podman executor of the `src/` code (`PodmanExecutor` and the client
 * calls it makes): every shell step becomes one container, created,
 * started, waited for, its logs fetched and, when the stage's Podman
 * configuration asks for it, removed, all through HTTP requests on the
 * Podman socket.
 *
 * The socket is an oracle (see `Oracles`) asked with the request text and
 * answering with what was read back or the I/O error met; JSON decoding of
 * a response body and serialisation of the container description are given
 * functions (`Codec`). Each method is proved against the function of the
 * same name ending in `Run`, which takes the answers and the calls made so
 * far and gives the result and the calls made afterwards.
 */
module RustlinePodman {
  import opened Wrappers
  import opened Assoc
  import opened Durations
  import opened Oracles
  import opened RustlineErrors
  import opened RustlineTypes
  import opened RustlineSteps
  import opened RustlinePodmanHttp
  import opened JsonValues
  import RustlineAgent
  import RustlineStage
  import RustlinePipeline
  import RustlineContext

  // ---------------------------------------------------------------------
  // Executor and client configuration
  // ---------------------------------------------------------------------

  const SocketPath: string := "/run/podman/podman.sock"
  const ApiVersion: string := "v5.0.0"

  /** `PodmanClientConfig`. */
  datatype ClientConfig = ClientConfig(socketPath: string, timeout: Duration, apiVersion: string)

  /** `PodmanClientConfig::default`: the standard socket, five minutes, API v5.0.0. */
  function DefaultClientConfig(): (c: ClientConfig)
    ensures c.socketPath == "/run/podman/podman.sock" && c.apiVersion == "v5.0.0"
    ensures c.timeout == FromSecs(300)
  {
    ClientConfig(SocketPath, FromSecs(300), ApiVersion)
  }

  /** The client configuration `execute` derives from the pipeline's Podman agent. */
  function ClientConfigOf(c: RustlineAgent.PodmanConfig): (r: ClientConfig)
    ensures r.socketPath == c.socketPath && r.apiVersion == c.apiVersion && r.timeout == FromSecs(300)
  {
    ClientConfig(c.socketPath, FromSecs(300), c.apiVersion)
  }

  /** `PodmanExecutor`: its configuration is kept, but `execute` never reads it. */
  datatype Executor = Executor(config: ClientConfig)

  /** `PodmanExecutor::new` (and `default`). */
  function NewExecutor(): (e: Executor)
    ensures e.config == DefaultClientConfig()
  {
    Executor(DefaultClientConfig())
  }

  /** `with_socket`: only the socket changes. */
  function WithSocket(e: Executor, socket: string): (r: Executor)
    ensures r.config.socketPath == socket
    ensures r.config.timeout == e.config.timeout && r.config.apiVersion == e.config.apiVersion
  {
    Executor(e.config.(socketPath := socket))
  }

  /** `with_timeout`: only the timeout changes. */
  function WithTimeout(e: Executor, timeout: Duration): (r: Executor)
    ensures r.config.timeout == timeout
    ensures r.config.socketPath == e.config.socketPath && r.config.apiVersion == e.config.apiVersion
  {
    Executor(e.config.(timeout := timeout))
  }

  /** `capabilities`: shell, Docker images, timeout and retry; no Kubernetes, parallelism or caching. */
  function Capabilities(): (c: RustlineContext.ExecutorCapabilities)
    ensures c.canExecuteShell && c.canRunDocker && c.supportsTimeout && c.supportsRetry
    ensures !c.canRunKubernetes && !c.supportsParallel && !c.supportsCaching
  {
    RustlineContext.ExecutorCapabilities(true, true, false, false, false, true, true)
  }

  /** `dry_run`: Success exactly for a valid pipeline, the validation error otherwise. */
  function DryRun(p: RustlinePipeline.Pipeline): (r: Result<StageResult, PipelineError>)
    ensures r.Ok? <==> RustlinePipeline.Validate(p).Ok?
    ensures r.Ok? ==> r.value == Success
    ensures r.Err? ==> r.error == Validation(RustlinePipeline.Validate(p).error)
  {
    match RustlinePipeline.Validate(p)
    case Err(e) => Err(Validation(e))
    case Ok(_) => Ok(Success)
  }

  // ---------------------------------------------------------------------
  // The world
  // ---------------------------------------------------------------------

  /** What the socket is asked: to accept a connection, or to carry one request. */
  datatype Call = Dial(socket: string) | Send(socket: string, request: string)

  /** What the socket answers: a refused connection, a failed write or read, or the text read back. */
  datatype Wire = Refused(message: string) | WriteFailed(message: string) | ReadFailed(message: string) | Received(response: string)

  type Socket = Oracle<Call, Wire>

  /** The JSON decoder of response bodies and the serialiser of container descriptions. */
  datatype Codec = Codec(decode: string -> Result<Json, string>, encode: ContainerSpec -> string)

  datatype World = World(socket: (nat, Call) -> Wire, codec: Codec)

  /** A client call's result and the socket calls made so far. */
  datatype Reply<T> = Reply(result: Result<T, PodmanError>, log: seq<Call>)

  /** An executor operation's result and the socket calls made so far. */
  datatype Run<T> = Run(result: Result<T, PipelineError>, log: seq<Call>)

  /** `PodmanClient`: its socket and the `Api-Version` header value it sends. */
  datatype Client = Client(socketPath: string, apiVersion: string)

  // ---------------------------------------------------------------------
  // The client
  // ---------------------------------------------------------------------

  /** The error of a refused connection. */
  function Unreachable(message: string): PodmanError {
    ConnectionFailed("Failed to connect to Podman socket: " + message)
  }

  /** `PodmanClient::new`: one connection attempt; the header value comes from the API version. */
  function ConnectRun(config: ClientConfig, w: World, log: seq<Call>): (r: Reply<Client>)
    ensures r.log == log + [Dial(config.socketPath)]
    ensures r.result.Ok? <==> !w.socket(|log|, Dial(config.socketPath)).Refused?
    ensures r.result.Ok? ==> r.result.value == Client(config.socketPath, ApiVersionHeader(config.apiVersion))
  {
    var q := Dial(config.socketPath);
    match w.socket(|log|, q)
    case Refused(m) => Reply(Err(Unreachable(m)), log + [q])
    case _ => Reply(Ok(Client(config.socketPath, ApiVersionHeader(config.apiVersion))), log + [q])
  }

  method Connect(config: ClientConfig, sock: Socket, codec: Codec) returns (r: Result<Client, PodmanError>)
    modifies sock
    ensures Reply(r, sock.asked) == ConnectRun(config, World(sock.answer, codec), old(sock.asked))
  {
    var a := sock.Ask(Dial(config.socketPath));
    if a.Refused? {
      return Err(Unreachable(a.message));
    }
    r := Ok(Client(config.socketPath, ApiVersionHeader(config.apiVersion)));
  }

  /** The one socket call a request makes. */
  function SendCall(client: Client, verb: string, path: string, body: Option<string>): Call {
    Send(client.socketPath, RequestText(verb, path, client.apiVersion, body))
  }

  /**
   * `send_http_request`: the request text goes out in one call; I/O errors
   * become connection, request or response errors; what was read is split
   * into status and body.
   */
  function SendRun(client: Client, verb: string, path: string, body: Option<string>, w: World, log: seq<Call>)
    : (r: Reply<Response>)
    ensures r.log == log + [SendCall(client, verb, path, body)]
  {
    var q := SendCall(client, verb, path, body);
    match w.socket(|log|, q)
    case Refused(m) => Reply(Err(Unreachable(m)), log + [q])
    case WriteFailed(m) => Reply(Err(ApiRequest("Failed to write request: " + m)), log + [q])
    case ReadFailed(m) => Reply(Err(ApiResponse("Failed to read response: " + m)), log + [q])
    case Received(resp) => Reply(SplitResponse(resp), log + [q])
  }

  method SendHttpRequest(client: Client, verb: string, path: string, body: Option<string>, sock: Socket, codec: Codec)
    returns (r: Result<Response, PodmanError>)
    modifies sock
    ensures Reply(r, sock.asked) == SendRun(client, verb, path, body, World(sock.answer, codec), old(sock.asked))
  {
    var request := BuildRequest(verb, path, client.apiVersion, body);
    var wire := sock.Ask(Send(client.socketPath, request));
    match wire {
      case Refused(m) => r := Err(Unreachable(m));
      case WriteFailed(m) => r := Err(ApiRequest("Failed to write request: " + m));
      case ReadFailed(m) => r := Err(ApiResponse("Failed to read response: " + m));
      case Received(resp) => r := SplitResponse(resp);
    }
  }

  /** `request`: the exchange, then the status and body rules of `RequestOutcome`. */
  function RequestRun(client: Client, verb: string, path: string, body: Option<string>, w: World, log: seq<Call>)
    : (r: Reply<Json>)
    ensures r.log == log + [SendCall(client, verb, path, body)]
    ensures var s := SendRun(client, verb, path, body, w, log);
      && (s.result.Err? ==> r.result == Err(s.result.error))
      && (s.result.Ok? ==> r.result == RequestOutcome(s.result.value, w.codec.decode))
  {
    var s := SendRun(client, verb, path, body, w, log);
    match s.result
    case Err(e) => Reply(Err(e), s.log)
    case Ok(resp) => Reply(RequestOutcome(resp, w.codec.decode), s.log)
  }

  method Request(client: Client, verb: string, path: string, body: Option<string>, sock: Socket, codec: Codec)
    returns (r: Result<Json, PodmanError>)
    modifies sock
    ensures Reply(r, sock.asked) == RequestRun(client, verb, path, body, World(sock.answer, codec), old(sock.asked))
  {
    var s := SendHttpRequest(client, verb, path, body, sock, codec);
    match s {
      case Err(e) => r := Err(e);
      case Ok(resp) => r := RequestOutcome(resp, codec.decode);
    }
  }

  /** Drops the value of a client call's result. */
  function Done<T>(r: Reply<T>): (u: Reply<Unit>)
    ensures u.log == r.log && (u.result.Ok? <==> r.result.Ok?)
    ensures r.result.Err? ==> u.result == Err(r.result.error)
  {
    match r.result
    case Ok(_) => Reply(Ok(Unit), r.log)
    case Err(e) => Reply(Err(e), r.log)
  }

  /** `ping`: GET /_ping. */
  function PingRun(client: Client, w: World, log: seq<Call>): (r: Reply<Unit>)
    ensures r.log == log + [SendCall(client, "GET", "/_ping", None)]
  {
    Done(RequestRun(client, "GET", "/_ping", None, w, log))
  }

  method Ping(client: Client, sock: Socket, codec: Codec) returns (r: Result<Unit, PodmanError>)
    modifies sock
    ensures Reply(r, sock.asked) == PingRun(client, World(sock.answer, codec), old(sock.asked))
  {
    var j := Request(client, "GET", "/_ping", None, sock, codec);
    r := if j.Ok? then Ok(Unit) else Err(j.error);
  }

  /**
   * `create_container`: POST /containers/create with the serialised
   * description; the reply must carry a string "Id".
   */
  function CreateRun(client: Client, image: string, command: string, env: Entries<string>, workingDir: string,
                     cgroupManager: Option<string>, w: World, log: seq<Call>): (r: Reply<string>)
    ensures var body := w.codec.encode(CreateSpec(image, command, env, workingDir, cgroupManager));
      var q := RequestRun(client, "POST", "/containers/create", Some(body), w, log);
      && r.log == q.log
      && (q.result.Err? ==> r.result == Err(q.result.error))
      && (q.result.Ok? ==> r.result == if ContainerId(q.result.value).Some? then Ok(ContainerId(q.result.value).value)
                                       else Err(ContainerCreateFailed("No container ID in response")))
  {
    var body := w.codec.encode(CreateSpec(image, command, env, workingDir, cgroupManager));
    var q := RequestRun(client, "POST", "/containers/create", Some(body), w, log);
    match q.result
    case Err(e) => Reply(Err(e), q.log)
    case Ok(json) =>
      match ContainerId(json)
      case None => Reply(Err(ContainerCreateFailed("No container ID in response")), q.log)
      case Some(id) => Reply(Ok(id), q.log)
  }

  method CreateContainer(client: Client, image: string, command: string, env: Entries<string>, workingDir: string,
                         cgroupManager: Option<string>, sock: Socket, codec: Codec) returns (r: Result<string, PodmanError>)
    modifies sock
    ensures Reply(r, sock.asked)
         == CreateRun(client, image, command, env, workingDir, cgroupManager, World(sock.answer, codec), old(sock.asked))
  {
    var cgroup := if cgroupManager.Some? then cgroupManager.value else "cgroupfs";
    var envVec := BuildEnvStrings(env);
    var spec := ContainerSpec(image, ["sh", "-c", command], workingDir, envVec, cgroup, false, false);
    var body := codec.encode(spec);
    var response := Request(client, "POST", "/containers/create", Some(body), sock, codec);
    match response {
      case Err(e) => r := Err(e);
      case Ok(json) =>
        var id := ContainerId(json);
        r := if id.Some? then Ok(id.value) else Err(ContainerCreateFailed("No container ID in response"));
    }
  }

  /** The path of a container's resource. */
  function ContainerPath(id: string, suffix: string): string {
    "/containers/" + id + suffix
  }

  /** `start_container`: POST /containers/{id}/start. */
  function StartRun(client: Client, id: string, w: World, log: seq<Call>): (r: Reply<Unit>)
    ensures r.log == log + [SendCall(client, "POST", ContainerPath(id, "/start"), None)]
  {
    Done(RequestRun(client, "POST", ContainerPath(id, "/start"), None, w, log))
  }

  method StartContainer(client: Client, id: string, sock: Socket, codec: Codec) returns (r: Result<Unit, PodmanError>)
    modifies sock
    ensures Reply(r, sock.asked) == StartRun(client, id, World(sock.answer, codec), old(sock.asked))
  {
    var j := Request(client, "POST", "/containers/" + id + "/start", None, sock, codec);
    r := if j.Ok? then Ok(Unit) else Err(j.error);
  }

  /** `wait_container`: POST /containers/{id}/wait; the reply's integer, else 0, as an `i32`. */
  function WaitRun(client: Client, id: string, w: World, log: seq<Call>): (r: Reply<int>)
    ensures var q := RequestRun(client, "POST", ContainerPath(id, "/wait"), None, w, log);
      && r.log == q.log
      && (q.result.Err? ==> r.result == Err(q.result.error))
      && (q.result.Ok? ==> r.result == Ok(WaitExitCode(q.result.value)))
  {
    var q := RequestRun(client, "POST", ContainerPath(id, "/wait"), None, w, log);
    match q.result
    case Err(e) => Reply(Err(e), q.log)
    case Ok(json) => Reply(Ok(WaitExitCode(json)), q.log)
  }

  method WaitContainer(client: Client, id: string, sock: Socket, codec: Codec) returns (r: Result<int, PodmanError>)
    modifies sock
    ensures Reply(r, sock.asked) == WaitRun(client, id, World(sock.answer, codec), old(sock.asked))
  {
    var j := Request(client, "POST", "/containers/" + id + "/wait", None, sock, codec);
    match j {
      case Err(e) => r := Err(e);
      case Ok(json) =>
        var code := AsI64(json);
        r := Ok(ToI32(if code.Some? then code.value else 0));
    }
  }

  /**
   * `logs`: GET /containers/{id}/logs?stdout=true&stderr=true. The logs are
   * printed and dropped here; a response error counts as empty logs.
   */
  function LogsRun(client: Client, id: string, w: World, log: seq<Call>): (r: Reply<Unit>)
    ensures var q := RequestRun(client, "GET", ContainerPath(id, "/logs?stdout=true&stderr=true"), None, w, log);
      && r.log == q.log
      && (r.result.Ok? <==> q.result.Ok? || q.result.error.ApiResponse?)
      && (r.result.Err? ==> r.result == Err(q.result.error))
  {
    var q := RequestRun(client, "GET", ContainerPath(id, "/logs?stdout=true&stderr=true"), None, w, log);
    match q.result
    case Ok(_) => Reply(Ok(Unit), q.log)
    case Err(ApiResponse(_)) => Reply(Ok(Unit), q.log)
    case Err(e) => Reply(Err(e), q.log)
  }

  method Logs(client: Client, id: string, sock: Socket, codec: Codec) returns (r: Result<Unit, PodmanError>)
    modifies sock
    ensures Reply(r, sock.asked) == LogsRun(client, id, World(sock.answer, codec), old(sock.asked))
  {
    var j := Request(client, "GET", "/containers/" + id + "/logs?stdout=true&stderr=true", None, sock, codec);
    match j {
      case Ok(_) => r := Ok(Unit);
      case Err(ApiResponse(_)) => r := Ok(Unit);
      case Err(e) => r := Err(e);
    }
  }

  /** `remove_container`: DELETE /containers/{id}. */
  function RemoveRun(client: Client, id: string, w: World, log: seq<Call>): (r: Reply<Unit>)
    ensures r.log == log + [SendCall(client, "DELETE", ContainerPath(id, ""), None)]
  {
    Done(RequestRun(client, "DELETE", ContainerPath(id, ""), None, w, log))
  }

  method RemoveContainer(client: Client, id: string, sock: Socket, codec: Codec) returns (r: Result<Unit, PodmanError>)
    modifies sock
    ensures Reply(r, sock.asked) == RemoveRun(client, id, World(sock.answer, codec), old(sock.asked))
  {
    var j := Request(client, "DELETE", "/containers/" + id, None, sock, codec);
    assert "/containers/" + id == ContainerPath(id, "");
    r := if j.Ok? then Ok(Unit) else Err(j.error);
  }

  /** `pull_image`: POST /images/pull?reference={image}; never called by the executor. */
  function PullImageRun(client: Client, image: string, w: World, log: seq<Call>): (r: Reply<Unit>)
    ensures r.log == log + [SendCall(client, "POST", "/images/pull?reference=" + image, None)]
  {
    Done(RequestRun(client, "POST", "/images/pull?reference=" + image, None, w, log))
  }

  method PullImage(client: Client, image: string, sock: Socket, codec: Codec) returns (r: Result<Unit, PodmanError>)
    modifies sock
    ensures Reply(r, sock.asked) == PullImageRun(client, image, World(sock.answer, codec), old(sock.asked))
  {
    var j := Request(client, "POST", "/images/pull?reference=" + image, None, sock, codec);
    r := if j.Ok? then Ok(Unit) else Err(j.error);
  }

  // ---------------------------------------------------------------------
  // Running a shell step in a container
  // ---------------------------------------------------------------------

  /** What every container of one run sees: the context's environment and directory. */
  datatype Site = Site(env: Entries<string>, cwd: string)

  /** The container's environment: the stage configuration's, overlaid by the context's. */
  function ContainerEnv(config: RustlineAgent.PodmanConfig, site: Site): Entries<string> {
    InsertAll([], config.environment + site.env)
  }

  /** The container's working directory: the configured one, else the context's. */
  function WorkingDir(config: RustlineAgent.PodmanConfig, site: Site): (dir: string)
    ensures config.workingDir.Some? ==> dir == config.workingDir.value
    ensures config.workingDir.None? ==> dir == site.cwd
  {
    if config.workingDir.Some? then config.workingDir.value else site.cwd
  }

  /** The `collect` of the chained environments into a fresh map. */
  method BuildContainerEnv(config: RustlineAgent.PodmanConfig, site: Site) returns (env: Entries<string>)
    ensures env == ContainerEnv(config, site)
  {
    var all := config.environment + site.env;
    env := [];
    var i := 0;
    while i < |all|
      invariant 0 <= i <= |all|
      invariant InsertAll(env, all[i..]) == ContainerEnv(config, site)
      decreases |all| - i
    {
      assert all[i..][0] == all[i] && all[i..][1..] == all[i + 1..];
      env := Insert(env, all[i].0, all[i].1);
      i := i + 1;
    }
    assert all[i..] == [];
  }

  /** Wraps a client error for the executor. */
  function Wrapped(what: string, e: PodmanError): PipelineError {
    AgentConfig(what + ErrorText(e))
  }

  /**
   * `run_in_container`: create, then run the container. Each client error
   * ends the step, wrapped with the call's name.
   */
  function ContainerRun(config: RustlineAgent.PodmanConfig, command: string, client: Client, site: Site,
                        w: World, log: seq<Call>): (r: Run<Unit>)
    ensures r.result.Err? ==> r.result.error.AgentConfig? || r.result.error.CommandFailed?
    ensures r.result.Err? && r.result.error.CommandFailed? ==> r.result.error.code != 0 && r.result.error.stderr == ""
  {
    var c := CreateRun(client, config.image, command, ContainerEnv(config, site), WorkingDir(config, site),
                       config.cgroupManager, w, log);
    match c.result
    case Err(e) => Run(Err(Wrapped("Container create: ", e)), c.log)
    case Ok(id) => LifeRun(client, id, config.remove, w, c.log)
  }

  /**
   * The rest of `run_in_container` once the container exists: start, wait,
   * fetch the logs, remove when configured (ignoring its result), then fail
   * with the exit code when it is not zero.
   */
  function LifeRun(client: Client, id: string, remove: bool, w: World, log: seq<Call>): (r: Run<Unit>)
    ensures r.result.Err? ==> r.result.error.AgentConfig? || r.result.error.CommandFailed?
    ensures r.result.Err? && r.result.error.CommandFailed? ==> r.result.error.code != 0 && r.result.error.stderr == ""
  {
    var s := StartRun(client, id, w, log);
    if s.result.Err? then Run(Err(Wrapped("Container start: ", s.result.error)), s.log)
    else
      var wt := WaitRun(client, id, w, s.log);
      match wt.result
      case Err(e) => Run(Err(Wrapped("Container wait: ", e)), wt.log)
      case Ok(code) =>
        var lg := LogsRun(client, id, w, wt.log);
        if lg.result.Err? then Run(Err(Wrapped("Container logs: ", lg.result.error)), lg.log)
        else
          var end := if remove then RemoveRun(client, id, w, lg.log).log else lg.log;
          if code != 0 then Run(Err(CommandFailed(code, "")), end) else Run(Ok(Unit), end)
  }

  method RunInContainer(config: RustlineAgent.PodmanConfig, command: string, client: Client, site: Site,
                        sock: Socket, codec: Codec) returns (r: Result<Unit, PipelineError>)
    modifies sock
    ensures Run(r, sock.asked) == ContainerRun(config, command, client, site, World(sock.answer, codec), old(sock.asked))
  {
    var workingDir := if config.workingDir.Some? then config.workingDir.value else site.cwd;
    var env := BuildContainerEnv(config, site);
    var created := CreateContainer(client, config.image, command, env, workingDir, config.cgroupManager, sock, codec);
    if created.Err? {
      return Err(Wrapped("Container create: ", created.error));
    }
    var id := created.value;
    var started := StartContainer(client, id, sock, codec);
    if started.Err? {
      return Err(Wrapped("Container start: ", started.error));
    }
    var waited := WaitContainer(client, id, sock, codec);
    if waited.Err? {
      return Err(Wrapped("Container wait: ", waited.error));
    }
    var exitCode := waited.value;
    var logs := Logs(client, id, sock, codec);
    if logs.Err? {
      return Err(Wrapped("Container logs: ", logs.error));
    }
    if config.remove {
      var _ := RemoveContainer(client, id, sock, codec);
    }
    if exitCode != 0 {
      return Err(CommandFailed(exitCode, ""));
    }
    r := Ok(Unit);
  }

  // ---------------------------------------------------------------------
  // Steps, stages and the pipeline
  // ---------------------------------------------------------------------

  /** `execute_step`: a shell step runs in a container; every other kind, Echo included, does nothing here. */
  function StepRun(step: Step, config: RustlineAgent.PodmanConfig, client: Client, site: Site, w: World,
                   log: seq<Call>): (r: Run<Unit>)
    ensures !step.stepType.Shell? ==> r == Run(Ok(Unit), log)
  {
    match step.stepType
    case Shell(command) => ContainerRun(config, command, client, site, w, log)
    case _ => Run(Ok(Unit), log)
  }

  method ExecuteStep(step: Step, config: RustlineAgent.PodmanConfig, client: Client, site: Site,
                     sock: Socket, codec: Codec) returns (r: Result<Unit, PipelineError>)
    modifies sock
    ensures Run(r, sock.asked) == StepRun(step, config, client, site, World(sock.answer, codec), old(sock.asked))
  {
    match step.stepType {
      case Shell(command) =>
        r := RunInContainer(config, command, client, site, sock, codec);
      case _ =>
        r := Ok(Unit);
    }
  }

  /** The steps of a stage in order, stopping at the first error. */
  function StepsRun(steps: seq<Step>, config: RustlineAgent.PodmanConfig, client: Client, site: Site, w: World,
                    log: seq<Call>): (r: Run<Unit>)
    decreases |steps|
  {
    if |steps| == 0 then Run(Ok(Unit), log)
    else
      var s := StepRun(steps[0], config, client, site, w, log);
      if s.result.Err? then s else StepsRun(steps[1..], config, client, site, w, s.log)
  }

  /**
   * `execute_stage`: the stage must have a Podman agent, whose
   * configuration every step uses; then its steps, and Success. Branches,
   * matrix and post-conditions are not looked at.
   */
  function StageRun(stage: RustlineStage.Stage, client: Client, site: Site, w: World, log: seq<Call>)
    : (r: Run<StageResult>)
    ensures r.result.Ok? ==> r.result.value == Success
    ensures stage.agent.None? ==> r == Run(Err(AgentConfig("Stage must have a Podman agent configured")), log)
    ensures stage.agent.Some? && !stage.agent.value.Podman? ==>
      r == Run(Err(AgentConfig("Stage agent must be Podman for PodmanExecutor")), log)
  {
    match stage.agent
    case None => Run(Err(AgentConfig("Stage must have a Podman agent configured")), log)
    case Some(agent) =>
      if !agent.Podman? then Run(Err(AgentConfig("Stage agent must be Podman for PodmanExecutor")), log)
      else
        var s := StepsRun(stage.steps, agent.podman, client, site, w, log);
        if s.result.Err? then Run(Err(s.result.error), s.log) else Run(Ok(Success), s.log)
  }

  method ExecuteStage(stage: RustlineStage.Stage, client: Client, site: Site, sock: Socket, codec: Codec)
    returns (r: Result<StageResult, PipelineError>)
    modifies sock
    ensures Run(r, sock.asked) == StageRun(stage, client, site, World(sock.answer, codec), old(sock.asked))
  {
    if stage.agent.None? {
      return Err(AgentConfig("Stage must have a Podman agent configured"));
    }
    if !stage.agent.value.Podman? {
      return Err(AgentConfig("Stage agent must be Podman for PodmanExecutor"));
    }
    var config := stage.agent.value.podman;
    ghost var w := World(sock.answer, codec);
    ghost var full := StepsRun(stage.steps, config, client, site, w, sock.asked);
    var i := 0;
    while i < |stage.steps|
      invariant 0 <= i <= |stage.steps|
      invariant sock.answer == w.socket
      invariant StepsRun(stage.steps[i..], config, client, site, w, sock.asked) == full
      decreases |stage.steps| - i
    {
      assert stage.steps[i..][0] == stage.steps[i] && stage.steps[i..][1..] == stage.steps[i + 1..];
      var s := ExecuteStep(stage.steps[i], config, client, site, sock, codec);
      if s.Err? {
        return Err(s.error);
      }
      i := i + 1;
    }
    assert stage.steps[i..] == [];
    r := Ok(Success);
  }

  /** Where the stage loop ended: its result, the socket calls, the results recorded. */
  datatype StagesEnd = StagesEnd(result: Result<StageResult, PipelineError>, log: seq<Call>,
                                 recorded: Entries<StageResult>)

  /**
   * The stage loop of `execute`: an error leaves at once; otherwise the
   * result is recorded, and a failed result ends the run when the pipeline
   * has no retry option.
   */
  function StagesFrom(stages: seq<RustlineStage.Stage>, retryNone: bool, client: Client, site: Site, w: World,
                      log: seq<Call>, recorded: Entries<StageResult>): (r: StagesEnd)
    ensures r.result.Ok? ==> r.result.value == Success
    decreases |stages|
  {
    if |stages| == 0 then StagesEnd(Ok(Success), log, recorded)
    else
      var s := StageRun(stages[0], client, site, w, log);
      match s.result
      case Err(e) => StagesEnd(Err(e), s.log, recorded)
      case Ok(result) =>
        var rec := Insert(recorded, stages[0].name, result);
        if IsFailure(result) && retryNone then StagesEnd(Ok(result), s.log, rec)
        else StagesFrom(stages[1..], retryNone, client, site, w, s.log, rec)
  }

  method ExecuteStages(stages: seq<RustlineStage.Stage>, retryNone: bool, client: Client, site: Site,
                       context: RustlineContext.PipelineContext, sock: Socket, codec: Codec)
    returns (r: Result<StageResult, PipelineError>)
    requires context.Valid()
    modifies sock, context
    ensures context.Valid()
    ensures StagesFrom(stages, retryNone, client, site, World(sock.answer, codec), old(sock.asked),
                       old(context.stageResults))
         == StagesEnd(r, sock.asked, context.stageResults)
  {
    ghost var w := World(sock.answer, codec);
    ghost var full := StagesFrom(stages, retryNone, client, site, w, sock.asked, context.stageResults);
    var i := 0;
    while i < |stages|
      invariant 0 <= i <= |stages|
      invariant sock.answer == w.socket
      invariant context.Valid()
      invariant StagesFrom(stages[i..], retryNone, client, site, w, sock.asked, context.stageResults) == full
      decreases |stages| - i
    {
      var stage := stages[i];
      assert stages[i..][0] == stage && stages[i..][1..] == stages[i + 1..];
      var s := ExecuteStage(stage, client, site, sock, codec);
      if s.Err? {
        return Err(s.error);
      }
      context.RecordStageResult(stage.name, s.value);
      if IsFailure(s.value) && retryNone {
        return s;
      }
      i := i + 1;
    }
    assert stages[i..] == [];
    r := Ok(Success);
  }

  /** The context environment: the process environment with the pipeline's variables inserted. */
  function RunEnv(p: RustlinePipeline.Pipeline, processEnv: Entries<string>): Entries<string> {
    InsertAll(processEnv, p.environment.vars)
  }

  /** The stage loop of one run: the context's environment and directory, nothing recorded yet. */
  function PipelineStages(p: RustlinePipeline.Pipeline, processEnv: Entries<string>, cwd: string, client: Client,
                          w: World, log: seq<Call>): (e: StagesEnd)
    ensures e.result.Ok? ==> e.result.value == Success
  {
    StagesFrom(p.stages, p.options.retry.None?, client, Site(RunEnv(p, processEnv), cwd), w, log, [])
  }

  /**
   * `execute` (through `execute_async`): the pipeline's agent must be
   * Podman; its socket and API version give the client, which connects and
   * pings; then the stages run with the context's environment and directory.
   * The executor's own configuration plays no part.
   */
  function ExecuteRun(p: RustlinePipeline.Pipeline, processEnv: Entries<string>, cwd: string, w: World,
                      log: seq<Call>): (r: Run<StageResult>)
    ensures !p.agent.Podman? ==> r == Run(Err(AgentConfig("Pipeline must have a Podman agent configured")), log)
    ensures r.result.Ok? ==> r.result.value == Success
  {
    match p.agent
    case Podman(pc) =>
      var c := ConnectRun(ClientConfigOf(pc), w, log);
      if c.result.Err? then Run(Err(AgentConfig("Podman connection failed: " + ErrorText(c.result.error))), c.log)
      else
        var ping := PingRun(c.result.value, w, c.log);
        if ping.result.Err? then Run(Err(AgentConfig("Podman ping failed: " + ErrorText(ping.result.error))), ping.log)
        else
          var e := PipelineStages(p, processEnv, cwd, c.result.value, w, ping.log);
          Run(e.result, e.log)
    case _ => Run(Err(AgentConfig("Pipeline must have a Podman agent configured")), log)
  }

  method Execute(p: RustlinePipeline.Pipeline, processEnv: Entries<string>, cwd: string, pipelineId: string,
                 sock: Socket, codec: Codec) returns (r: Result<StageResult, PipelineError>)
    requires Distinct(processEnv)
    modifies sock
    ensures Run(r, sock.asked) == ExecuteRun(p, processEnv, cwd, World(sock.answer, codec), old(sock.asked))
  {
    if !p.agent.Podman? {
      return Err(AgentConfig("Pipeline must have a Podman agent configured"));
    }
    var podmanConfig := p.agent.podman;
    var config := ClientConfig(podmanConfig.socketPath, FromSecs(300), podmanConfig.apiVersion);
    var client := Connect(config, sock, codec);
    if client.Err? {
      return Err(AgentConfig("Podman connection failed: " + ErrorText(client.error)));
    }
    var pinged := Ping(client.value, sock, codec);
    if pinged.Err? {
      return Err(AgentConfig("Podman ping failed: " + ErrorText(pinged.error)));
    }
    r := ExecuteConnected(p, processEnv, cwd, pipelineId, client.value, sock, codec);
  }

  /** The part of `execute_async` after the ping: the context, its variables, the stage loop. */
  method ExecuteConnected(p: RustlinePipeline.Pipeline, processEnv: Entries<string>, cwd: string, pipelineId: string,
                          client: Client, sock: Socket, codec: Codec) returns (r: Result<StageResult, PipelineError>)
    requires Distinct(processEnv)
    modifies sock
    ensures var e := PipelineStages(p, processEnv, cwd, client, World(sock.answer, codec), old(sock.asked));
      r == e.result && sock.asked == e.log
  {
    var context := new RustlineContext.PipelineContext(processEnv, cwd, pipelineId);
    var vars := p.environment.vars;
    var k := 0;
    while k < |vars|
      invariant 0 <= k <= |vars|
      invariant context.Valid() && context.cwd == cwd && context.stageResults == []
      invariant sock.asked == old(sock.asked)
      invariant InsertAll(context.env, vars[k..]) == RunEnv(p, processEnv)
      decreases |vars| - k
    {
      assert vars[k..][0] == vars[k] && vars[k..][1..] == vars[k + 1..];
      context.SetEnv(vars[k].0, vars[k].1);
      k := k + 1;
    }
    assert vars[k..] == [];
    var site := Site(context.env, context.cwd);
    assert site == Site(RunEnv(p, processEnv), cwd);
    r := ExecuteStages(p.stages, p.options.retry.None?, client, site, context, sock, codec);
  }
}
