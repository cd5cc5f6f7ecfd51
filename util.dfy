/** Edition mapping and string-to-boolean conversion (cdk/lib/util.ts). */
module CdkUtil {
  import opened Wrappers
  import opened Cdk
  import opened CdkConfig

  /** `stringAsBoolean`: only the exact lower-case text `true` is true. */
  function StringAsBoolean(s: Option<string>): (b: bool)
    ensures b <==> s == Some("true")
    ensures s == Some("TRUE") || s == Some("True") || s == Some("1") || s == None ==> !b
  {
    match s
    case Some(text) => text == "true"
    case None => false
  }

  const JavaEditionDockerImage := "itzg/minecraft-server"
  const BedrockEditionDockerImage := "itzg/minecraft-bedrock-server"

  /** `MinecraftEditionConfig`: what one edition needs from the container and the security group. */
  datatype EditionConfig = EditionConfig(image: string, port: nat, protocol: Protocol, ingressRulePort: PortRule)

  /** `getMinecraftServerConfig`: the fixed settings of each edition. */
  function GetMinecraftServerConfig(edition: Edition): (r: EditionConfig)
    ensures r.ingressRulePort == PortRule(r.protocol, r.port)
    ensures edition == Java <==> r.protocol == Tcp
    ensures edition == Java ==> r.port == 25565 && r.image == JavaEditionDockerImage
    ensures edition == Bedrock ==> r.port == 19132 && r.image == BedrockEditionDockerImage
  {
    var javaConfig := EditionConfig(JavaEditionDockerImage, 25565, Tcp, PortRule(Tcp, 25565));
    var bedrockConfig := EditionConfig(BedrockEditionDockerImage, 19132, Udp, PortRule(Udp, 19132));
    if edition == Java then javaConfig else bedrockConfig
  }

  /** The two editions never share a port, a protocol or an image. */
  lemma EditionConfigsDiffer(e1: Edition, e2: Edition)
    requires e1 != e2
    ensures GetMinecraftServerConfig(e1).port != GetMinecraftServerConfig(e2).port
    ensures GetMinecraftServerConfig(e1).protocol != GetMinecraftServerConfig(e2).protocol
    ensures GetMinecraftServerConfig(e1).image != GetMinecraftServerConfig(e2).image
  {
  }
}
