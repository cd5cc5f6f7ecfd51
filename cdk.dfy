/**
 * Plain-value stand-ins for the construct library's values that the stacks
 * compute with: deploy-time tokens, ARNs, ports and IAM policy statements.
 */
module Cdk {

  /**
   * A value known only at deployment time (a resource attribute, a value
   * read from the parameter store), written as `${LogicalId.Attribute}`.
   */
  function Token(logicalId: string, attribute: string): (token: string)
    ensures |token| >= 4 && token[..2] == "${" && token[|token| - 1] == '}'
  {
    "${" + logicalId + "." + attribute + "}"
  }

  const Partition := "${AWS::Partition}"
  const StackRegion := "${AWS::Region}"
  const StackAccount := "${AWS::AccountId}"

  /** `Arn.format({service, resource, resourceName}, stack)`, slash-separated resource name. */
  function FormatArn(service: string, region: string, account: string, resource: string, resourceName: string): (arn: string)
    ensures |arn| > 4 && arn[..4] == "arn:"
  {
    "arn:" + Partition + ":" + service + ":" + region + ":" + account + ":" + resource + "/" + resourceName
  }

  /** The service follows the partition, and the resource name ends the ARN, after its resource type and a slash. */
  lemma FormatArnLayout(service: string, region: string, account: string, resource: string, resourceName: string)
    ensures var arn, head := FormatArn(service, region, account, resource, resourceName), "arn:" + Partition + ":" + service + ":";
      |arn| >= |head| && arn[..|head|] == head
    ensures var arn, tail := FormatArn(service, region, account, resource, resourceName), ":" + resource + "/" + resourceName;
      |arn| >= |tail| && arn[|arn| - |tail|..] == tail
  {
  }

  /** An ARN names one resource: with everything else fixed, different resource names give different ARNs. */
  lemma FormatArnInjective(service: string, region: string, account: string, resource: string, name1: string, name2: string)
    ensures FormatArn(service, region, account, resource, name1) == FormatArn(service, region, account, resource, name2)
      <==> name1 == name2
  {
    var head := "arn:" + Partition + ":" + service + ":" + region + ":" + account + ":" + resource + "/";
    assert FormatArn(service, region, account, resource, name1) == head + name1;
    assert FormatArn(service, region, account, resource, name2) == head + name2;
    if head + name1 == head + name2 {
      assert name1 == (head + name1)[|head|..];
      assert name2 == (head + name2)[|head|..];
    }
  }

  /** Where a container image comes from: a public registry, or a local directory built at deployment. */
  datatype ContainerImage = FromRegistry(name: string) | FromAsset(directory: string, platform: string)

  /** A Fargate capacity provider: on-demand or spot capacity. */
  datatype CapacityProvider = Fargate | FargateSpot

  /** The provider's name in the template. */
  function CapacityProviderName(p: CapacityProvider): (name: string)
    ensures p == Fargate <==> name == "FARGATE"
    ensures p == FargateSpot <==> name == "FARGATE_SPOT"
  {
    match p
    case Fargate => "FARGATE"
    case FargateSpot => "FARGATE_SPOT"
  }

  /** One entry of a service's capacity provider strategy: the provider, its relative weight and its base task count. */
  datatype CapacityProviderStrategy = CapacityProviderStrategy(capacityProvider: CapacityProvider, weight: nat, base: nat)

  /** Transport protocol of a container port mapping (`ecs.Protocol`). */
  datatype Protocol = Tcp | Udp

  /** A security-group ingress port (`ec2.Port.tcp(n)` / `ec2.Port.udp(n)`). */
  datatype PortRule = PortRule(protocol: Protocol, port: nat)

  /** The resource of a policy statement: the wildcard `*`, or one ARN (possibly a deploy-time token). */
  datatype Resource = AnyResource | Arn(arn: string)

  /** The IAM actions the stacks allow, by the name ActionName gives them in the template. */
  datatype Action =
    | EcsAll | DescribeNetworkInterfaces
    | GetHostedZone | ChangeResourceRecordSets | ListResourceRecordSets | ListHostedZones
    | ClientMount | ClientWrite | DescribeFileSystems
    | SnsPublish

  function ActionName(a: Action): (name: string)
    ensures a == EcsAll <==> name == "ecs:*"
  {
    match a
    case EcsAll => "ecs:*"
    case DescribeNetworkInterfaces => "ec2:DescribeNetworkInterfaces"
    case GetHostedZone => "route53:GetHostedZone"
    case ChangeResourceRecordSets => "route53:ChangeResourceRecordSets"
    case ListResourceRecordSets => "route53:ListResourceRecordSets"
    case ListHostedZones => "route53:ListHostedZones"
    case ClientMount => "elasticfilesystem:ClientMount"
    case ClientWrite => "elasticfilesystem:ClientWrite"
    case DescribeFileSystems => "elasticfilesystem:DescribeFileSystems"
    case SnsPublish => "sns:Publish"
  }

  /** Different actions are written differently, so a statement's actions are told apart by their names alone. */
  lemma ActionNamesDistinct(a: Action, b: Action)
    ensures ActionName(a) == ActionName(b) <==> a == b
  {
  }

  /** An allow statement of an IAM policy; an empty `sid` means none was given. */
  datatype PolicyStatement = PolicyStatement(
    sid: string,
    actions: seq<Action>,
    resources: seq<Resource>,
    conditions: map<string, string>)
}
