/** Agents of the `pipeliner-core` pipeline model and their constructors. */
module CoreAgent {
  import opened Wrappers
  import opened Assoc

  /** Registry login of a Docker or Podman agent. */
  datatype Credentials = Credentials(registry: string, username: string, password: string)

  /** A Kubernetes pod template; its container and volume lists carry no logic and are not modelled. */
  datatype PodTemplate = PodTemplate(
    name: Option<string>, nodeSelector: Entries<string>,
    serviceAccountName: Option<string>, imagePullSecrets: seq<string>)

  datatype AgentType =
    | Any
    | Label(text: string)
    | Docker(image: string, registry: Option<string>, credentials: Option<Credentials>,
             workingDir: Option<string>, environment: Entries<string>, alwaysPull: bool)
    | Podman(image: string, registry: Option<string>, credentials: Option<Credentials>,
             workingDir: Option<string>, environment: Entries<string>)
    | Kubernetes(namespace: string, podTemplate: Option<PodTemplate>, kubeImage: Option<string>,
                 serviceAccount: Option<string>, nodeSelector: Entries<string>)
    | Custom(customLabel: string)

  /** The namespace a Kubernetes agent gets when none is given. */
  function DefaultNamespace(): (ns: string)
    ensures ns == "default"
  {
    "default"
  }

  /** `AgentType::any`. */
  function AnyAgent(): (a: AgentType)
    ensures a.Any?
  {
    Any
  }

  /** `AgentType::label`: a label agent carrying exactly the given label. */
  function LabelAgent(l: string): (a: AgentType)
    ensures a.Label? && a.text == l
  {
    Label(l)
  }

  /** `AgentType::docker`: the image and nothing else. */
  function DockerAgent(image: string): (a: AgentType)
    ensures a.Docker? && a.image == image
    ensures a.registry.None? && a.credentials.None? && a.workingDir.None?
    ensures a.environment == [] && !a.alwaysPull
  {
    Docker(image, None, None, None, [], false)
  }

  /** `AgentType::kubernetes`: the default namespace and nothing else. */
  function KubernetesAgent(): (a: AgentType)
    ensures a.Kubernetes? && a.namespace == "default"
    ensures a.podTemplate.None? && a.kubeImage.None? && a.serviceAccount.None?
    ensures a.nodeSelector == []
  {
    Kubernetes(DefaultNamespace(), None, None, None, [])
  }
}
