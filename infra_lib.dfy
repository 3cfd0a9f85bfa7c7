/**
 * The shared types of `pipeliner-infrastructure`: container statuses, the
 * error kinds with their messages, and the container configuration
 * builder that splits an image reference into image and tag.
 */
module InfraLib {
  import opened Wrappers
  import opened Strings
  import opened Assoc

  datatype ContainerStatus = Created | Running | Paused | Exited

  /** `ContainerStatus::default()`. */
  function DefaultStatus(): (s: ContainerStatus)
    ensures s.Created?
  {
    Created
  }

  datatype InfrastructureError =
    | ConnectionFailed(reason: string)
    | ContainerNotFound(id: string)
    | ContainerTimeout

  /** The error's display text. */
  function ErrorMessage(e: InfrastructureError): string {
    match e
    case ConnectionFailed(reason) => "connection failed: " + reason
    case ContainerNotFound(id) => "container not found: " + id
    case ContainerTimeout => "container timeout"
  }

  /** The conversion from an I/O error, given the error's display text: a connection failure carrying that text. */
  function FromIoError(text: string): (e: InfrastructureError)
    ensures e.ConnectionFailed? && ErrorMessage(e) == "connection failed: " + text
  {
    ConnectionFailed(text)
  }

  datatype ContainerConfig = ContainerConfig(
    image: string,
    tag: string,
    registry: Option<string>,
    name: Option<string>,
    command: seq<string>,
    environment: Entries<string>,
    workingDir: Option<string>,
    autoRemove: bool)

  /** `ContainerConfig::new()`: every field empty. */
  function NewConfig(): (c: ContainerConfig)
    ensures c.image == "" && c.tag == "" && c.registry.None? && c.command == [] && c.environment == [] && !c.autoRemove
  {
    ContainerConfig("", "", None, None, [], [], None, false)
  }

  /** `with_image`: split at the last ':' into image and tag; without a ':' the tag is "latest". */
  function WithImage(c: ContainerConfig, reference: string): (r: ContainerConfig) {
    match LastIndexOf(reference, ':')
    case Some(i) => c.(image := reference[..i], tag := reference[i + 1..])
    case None => c.(image := reference, tag := "latest")
  }

  /** `full_image`: the image behind its registry when there is one; never the tag. */
  function FullImage(c: ContainerConfig): (r: string)
    ensures c.registry.None? ==> r == c.image
    ensures c.registry.Some? ==> r == c.registry.value + "/" + c.image
  {
    match c.registry
    case Some(registry) => registry + "/" + c.image
    case None => c.image
  }

  /**
   * `with_image` only sets the image and the tag; with a ':' the two joined
   * by ':' give back the reference and the tag holds no ':'; without one the
   * image is the whole reference and the tag is "latest".
   */
  lemma WithImageSplits(c: ContainerConfig, reference: string)
    ensures var r := WithImage(c, reference);
      && r.(image := c.image, tag := c.tag) == c
      && (':' in reference ==> r.image + ":" + r.tag == reference && ':' !in r.tag)
      && (':' !in reference ==> r.image == reference && r.tag == "latest")
  {
    if ':' in reference {
      var i := LastIndexOf(reference, ':').value;
      assert reference == reference[..i] + [':'] + reference[i + 1..];
    }
  }

  /** "rust:1.75" gives image "rust" and tag "1.75". */
  lemma WithImageVersion()
    ensures var r := WithImage(NewConfig(), "rust:1.75");
      r.image == "rust" && r.tag == "1.75"
  {
    var s := "rust:1.75";
    assert s[4] == ':' && ':' !in s[5..];
    assert LastIndexOf(s, ':') == Some(4);
    assert s[..4] == "rust" && s[5..] == "1.75";
  }

  /** The split takes the last ':', even a registry port's: "host:5000/img" gives image "host", tag "5000/img". */
  lemma WithImageRegistryPort()
    ensures var r := WithImage(NewConfig(), "host:5000/img");
      r.image == "host" && r.tag == "5000/img"
  {
    var s := "host:5000/img";
    assert s[4] == ':' && ':' !in s[5..];
    assert LastIndexOf(s, ':') == Some(4);
    assert s[..4] == "host" && s[5..] == "5000/img";
  }

  /** Without a registry, the full image of a reference with no ':' is that reference. */
  lemma FullImageOfPlainReference(c: ContainerConfig, reference: string)
    requires c.registry.None? && ':' !in reference
    ensures FullImage(WithImage(c, reference)) == reference
  {
  }
}
