/** Agents of the `src/` pipeline model: Docker, Kubernetes and Podman configurations, validation and `Display`. */
module RustlineAgent {
  import opened Wrappers
  import opened Assoc
  import opened RustlineErrors

  datatype DockerConfig = DockerConfig(
    image: string, args: seq<string>, environment: Entries<string>, registry: Option<string>)

  datatype KubernetesConfig = KubernetesConfig(
    namespace: string, podTemplate: Option<string>, image: string,
    containerName: string, nodeLabel: Option<string>)

  datatype PodmanConfig = PodmanConfig(
    image: string, args: seq<string>, environment: Entries<string>, socketPath: string,
    apiVersion: string, remove: bool, workingDir: Option<string>,
    cgroupManager: Option<string>, network: Option<string>)

  datatype AgentType =
    | Any
    | Label(text: string)
    | Docker(docker: DockerConfig)
    | Kubernetes(kubernetes: KubernetesConfig)
    | Podman(podman: PodmanConfig)

  /** Deserialisation defaults; the derived `Default` used by the constructors does not apply them. */
  const DefaultNamespace: string := "default"
  const DefaultContainerName: string := "rustline"
  const DefaultSocketPath: string := "/run/podman/podman.sock"
  const DefaultApiVersion: string := "v5.0.0"

  /** `DockerConfig::validate`: the image must be non-empty. */
  function ValidateDocker(c: DockerConfig): (r: Result<Unit, ValidationError>)
    ensures r.Err? <==> c.image == ""
    ensures r.Err? ==> r.error.InvalidAgentType?
  {
    if c.image == "" then Err(InvalidAgentType("Docker image cannot be empty")) else Ok(Unit)
  }

  /** `KubernetesConfig::validate`: the image must be non-empty. */
  function ValidateKubernetes(c: KubernetesConfig): (r: Result<Unit, ValidationError>)
    ensures r.Err? <==> c.image == ""
    ensures r.Err? ==> r.error.InvalidAgentType?
  {
    if c.image == "" then Err(InvalidAgentType("Kubernetes image cannot be empty")) else Ok(Unit)
  }

  /** `PodmanConfig::validate`: image, then socket path, must be non-empty. */
  function ValidatePodman(c: PodmanConfig): (r: Result<Unit, ValidationError>)
    ensures r.Err? <==> c.image == "" || c.socketPath == ""
    ensures r.Err? ==> r.error.InvalidAgentType?
  {
    if c.image == "" then Err(InvalidAgentType("Podman image cannot be empty"))
    else if c.socketPath == "" then Err(InvalidAgentType("Podman socket path cannot be empty"))
    else Ok(Unit)
  }

  /** `AgentType::validate` (also `AgentConfig::validate`, which delegates to it). */
  function Validate(a: AgentType): (r: Result<Unit, ValidationError>)
    ensures a.Any? ==> r.Ok?
    ensures a.Label? ==> (r.Err? <==> a.text == "")
    ensures a.Docker? ==> r == ValidateDocker(a.docker)
    ensures a.Kubernetes? ==> r == ValidateKubernetes(a.kubernetes)
    ensures a.Podman? ==> r == ValidatePodman(a.podman)
  {
    match a
    case Any => Ok(Unit)
    case Label(l) => if l == "" then Err(InvalidAgentType("Label cannot be empty")) else Ok(Unit)
    case Docker(c) => ValidateDocker(c)
    case Kubernetes(c) => ValidateKubernetes(c)
    case Podman(c) => ValidatePodman(c)
  }

  /** `AgentType::docker(image)`: every other field from the derived default. */
  function DockerAgent(image: string): (a: AgentType)
    ensures a == Docker(DockerConfig(image, [], [], None))
  {
    Docker(DockerConfig(image, [], [], None))
  }

  /** `AgentType::kubernetes(image)`: namespace and container name are the derived empty strings. */
  function KubernetesAgent(image: string): (a: AgentType)
    ensures a.Kubernetes? && a.kubernetes.image == image
    ensures a.kubernetes.namespace == "" && a.kubernetes.containerName == ""
  {
    Kubernetes(KubernetesConfig("", None, image, "", None))
  }

  /** `AgentType::podman(image)`: socket path and API version are the derived empty strings. */
  function PodmanAgent(image: string): (a: AgentType)
    ensures a.Podman? && a.podman.image == image
    ensures a.podman.socketPath == "" && a.podman.apiVersion == "" && !a.podman.remove
  {
    Podman(PodmanConfig(image, [], [], "", "", false, None, None, None))
  }

  /** A Podman agent built by `podman(image)` never validates, whatever the image. */
  lemma PodmanAgentInvalid(image: string)
    ensures Validate(PodmanAgent(image)).Err?
  {
  }

  /** A Docker or Kubernetes agent built from an image validates exactly when the image is non-empty. */
  lemma ImageAgentsValid(image: string)
    ensures Validate(DockerAgent(image)).Ok? <==> image != ""
    ensures Validate(KubernetesAgent(image)).Ok? <==> image != ""
  {
  }

  /** `Display` for an agent. */
  function Display(a: AgentType): string {
    match a
    case Any => "any"
    case Label(l) => "label:" + l
    case Docker(c) => "docker:" + c.image
    case Kubernetes(c) => "kubernetes:" + c.namespace + "/" + c.image
    case Podman(c) => "podman:" + c.image
  }

  /** The rendering of a Kubernetes agent built by `kubernetes(image)` has an empty namespace. */
  lemma KubernetesAgentDisplay(image: string)
    ensures Display(KubernetesAgent(image)) == "kubernetes:/" + image
  {
  }
}
