/**
 * The multi-server compute stack (cdk/lib/minecraft-stack.ts).
 *
 * The stack's constructor creates a handful of shared resources and then
 * runs one loop over the container configurations. Each iteration declares
 * that server's resources (a ServerPlan value here, whose construct ids are
 * the server's prefix followed by a fixed construct name) and mutates the
 * shared ones: it adds an ingress rule to the one service security group,
 * attaches policies to the one ECS task role and the one EC2 role, and may
 * grant the task role publishing on a new notification topic. The class
 * keeps those shared accumulators as fields; Step says what one iteration
 * does to them, and Replay, one function per accumulator, what the whole
 * loop does.
 */
module MinecraftStack {
  import opened Wrappers
  import opened Js
  import opened Cdk
  import opened CdkConfig
  import opened CdkUtil
  import opened Seqs

  const ClusterName := "minecraft"
  const McServerContainerName := "minecraft-server"
  const WatchdogContainerName := "minecraft-ecsfargate-watchdog"
  const DomainStackRegion := "us-east-1"
  const HostedZoneSsmParameter := "MinecraftHostedZoneID"
  const LauncherLambdaArnSsmParameter := "LauncherLambdaRoleArn"
  const WatchdogRegistryImage := "doctorray/minecraft-ecsfargate-watchdog"
  const WatchdogAssetDirectory := "minecraft-ecsfargate-watchdog"
  const WatchdogAssetPlatform := "linux/amd64"
  const HostedZoneArnPrefix := "arn:aws:route53:::hostedzone/"
  const Ec2ManagedPolicy := "AmazonSSMManagedInstanceCore"

  /** The network: an existing VPC looked up by id, or a new one. */
  datatype VpcPlan = LookupVpc(vpcId: string) | NewVpc(maxAzs: nat, natGateways: nat)

  /** An existing VPC when an id is configured, otherwise a new one over three zones without NAT gateways. */
  function VpcFor(vpcId: string): (v: VpcPlan)
    ensures v.LookupVpc? <==> vpcId != ""
    ensures v.LookupVpc? ==> v.vpcId == vpcId
    ensures v.NewVpc? ==> v.maxAzs == 3 && v.natGateways == 0
  {
    if vpcId != "" then LookupVpc(vpcId) else NewVpc(3, 0)
  }

  /** The constructs one iteration of the loop declares, in declaration order. */
  datatype Construct =
    | FileSystem | AccessPoint | DataRWPolicy | TaskDefinition | ServerContainer
    | FargateService | ServerSnsTopic | EmailSubscription | Route53HostedZoneIdReader
    | WatchDogContainer | ServiceControlPolicy | LauncherLambdaRoleArnReader
    | LauncherLambdaRole | IamRoute53Policy

  /** The fixed part of a construct's id. */
  function ConstructName(k: Construct): string
  {
    match k
    case FileSystem => "FileSystem"
    case AccessPoint => "AccessPoint"
    case DataRWPolicy => "DataRWPolicy"
    case TaskDefinition => "TaskDefinition"
    case ServerContainer => "ServerContainer"
    case FargateService => "FargateService"
    case ServerSnsTopic => "ServerSnsTopic"
    case EmailSubscription => "EmailSubscription"
    case Route53HostedZoneIdReader => "Route53HostedZoneIdReader"
    case WatchDogContainer => "WatchDogContainer"
    case ServiceControlPolicy => "ServiceControlPolicy"
    case LauncherLambdaRoleArnReader => "launcherLambdaRoleArn"
    case LauncherLambdaRole => "LauncherLambdaRole"
    case IamRoute53Policy => "IamRoute53Policy"
  }

  /** A construct of one server, identified in the stack by its prefix followed by its name. */
  datatype ConstructId = ConstructId(prefix: string, construct: Construct)

  function IdText(id: ConstructId): string
  {
    id.prefix + ConstructName(id.construct)
  }

  lemma SameSuffixSamePrefix(a: string, b: string, suffix: string)
    requires a + suffix == b + suffix
    ensures a == b
  {
    assert |a| == |b|;
    assert a == (a + suffix)[..|a|];
    assert b == (b + suffix)[..|b|];
  }

  /**
   * Two servers' constructs of the same kind get distinct ids exactly when
   * their prefixes differ: a repeated prefix repeats every id of that server.
   */
  lemma IdTextDistinctIffPrefixesDistinct(a: string, b: string, k: Construct)
    ensures IdText(ConstructId(a, k)) != IdText(ConstructId(b, k)) <==> a != b
  {
    if IdText(ConstructId(a, k)) == IdText(ConstructId(b, k)) {
      SameSuffixSamePrefix(a, b, ConstructName(k));
    }
  }

  /** The deploy-time attributes the loop reads off its constructs. */
  datatype Attribute = FileSystemArn | AccessPointArn | ServiceArn | TopicArn | ParameterValue

  /** A deploy-time value: an attribute of one of the server's constructs. */
  datatype Ref = Ref(of: ConstructId, attribute: Attribute)

  function AttributeName(a: Attribute): string
  {
    match a
    case FileSystemArn => "FileSystemArn"
    case AccessPointArn => "AccessPointArn"
    case ServiceArn => "ServiceArn"
    case TopicArn => "TopicArn"
    case ParameterValue => "Parameter.Value"
  }

  /** The text the construct library stands in for the value until deployment; never empty. */
  function RefText(r: Ref): (text: string)
    ensures text != "" && text[0] == '$'
  {
    Token(IdText(r.of), AttributeName(r.attribute))
  }

  /** A cross-region parameter-store read (`SSMParameterReader`). */
  datatype ParameterRead = ParameterRead(id: ConstructId, parameterName: string, region: string)

  /** The hosted zone id the domain stack published for this server. */
  function HostedZoneRead(prefix: string): (read: ParameterRead)
    ensures read.id == ConstructId(prefix, Route53HostedZoneIdReader)
    ensures read.parameterName == prefix + HostedZoneSsmParameter
    ensures read.region == DomainStackRegion
  {
    ParameterRead(ConstructId(prefix, Route53HostedZoneIdReader), prefix + HostedZoneSsmParameter, DomainStackRegion)
  }

  /** The launcher function's role ARN the domain stack published for this server. */
  function LauncherRoleRead(prefix: string): (read: ParameterRead)
    ensures read.id == ConstructId(prefix, LauncherLambdaRoleArnReader)
    ensures read.parameterName == prefix + LauncherLambdaArnSsmParameter
    ensures read.region == DomainStackRegion
  {
    ParameterRead(ConstructId(prefix, LauncherLambdaRoleArnReader), prefix + LauncherLambdaArnSsmParameter, DomainStackRegion)
  }

  function ReadValue(read: ParameterRead): Ref
  {
    Ref(read.id, ParameterValue)
  }

  datatype PortMapping = PortMapping(containerPort: nat, hostPort: nat, protocol: Protocol)

  /** What the watchdog sidecar is told, before it is rendered as environment variables. */
  datatype WatchdogSettings = WatchdogSettings(
    serviceName: string,
    dnsZone: Ref,
    serverName: string,
    snsTopic: Option<Ref>,
    twilio: TwilioConfig,
    startupMinutes: string,
    shutdownMinutes: string)

  /** A role imported by ARN (`Role.fromRoleArn`) and the policies this stack attaches to it. */
  datatype ImportedRole = ImportedRole(id: ConstructId, arn: Ref, policies: seq<ConstructId>)

  /**
   * Everything one iteration of the loop declares for one server. The
   * service's policies are functions of the prefix (DataPolicy,
   * ServiceControlPolicyFor, Route53PolicyFor).
   */
  datatype ServerPlan = ServerPlan(
    prefix: string,
    declared: seq<Construct>,
    taskCpu: Option<int>,
    taskMemory: Option<int>,
    serverImage: ContainerImage,
    portMappings: seq<PortMapping>,
    serverEnvironment: map<string, string>,
    serviceName: string,
    capacityProviderStrategies: seq<CapacityProviderStrategy>,
    desiredCount: nat,
    emailSubscription: Option<string>,
    hostedZoneRead: ParameterRead,
    watchdogImage: ContainerImage,
    watchdog: WatchdogSettings,
    launcherRoleRead: ParameterRead,
    launcherRole: ImportedRole,
    logging: bool)

  /** The topic handed to the watchdog: a topic exists only for a server with an email address. */
  function SnsTopic(c: ContainerConfig): (topic: Option<Ref>)
    ensures topic.Some? <==> c.snsEmailAddress != ""
    ensures topic.Some? ==> topic.value == Ref(ConstructId(c.prefix, ServerSnsTopic), TopicArn)
  {
    if c.snsEmailAddress != "" then Some(Ref(ConstructId(c.prefix, ServerSnsTopic), TopicArn)) else None
  }

  /** The constructs of one server in declaration order; the topic and its subscription only with an email address. */
  function DeclaredConstructs(c: ContainerConfig): (ks: seq<Construct>)
    ensures ServerSnsTopic in ks <==> c.snsEmailAddress != ""
    ensures EmailSubscription in ks <==> c.snsEmailAddress != ""
    ensures |ks| == if c.snsEmailAddress != "" then 14 else 12
  {
    [FileSystem, AccessPoint, DataRWPolicy, TaskDefinition, ServerContainer, FargateService]
    + (if c.snsEmailAddress != "" then [ServerSnsTopic, EmailSubscription] else [])
    + [Route53HostedZoneIdReader, WatchDogContainer, ServiceControlPolicy,
       LauncherLambdaRoleArnReader, LauncherLambdaRole, IamRoute53Policy]
  }

  /** The resources one iteration of the loop declares for the container configuration `c`. */
  function ServerPlanFor(c: ContainerConfig, domainName: string, dockerInstalled: bool): (p: ServerPlan)
    ensures p.prefix == c.prefix
    // the task size, the server's environment and the service name are the configuration's own
    ensures p.taskCpu == c.taskCpu && p.taskMemory == c.taskMemory
    ensures p.serverEnvironment == c.minecraftImageEnv
    ensures p.serviceName == c.serviceName
    // the game server listens on its edition's port, inside the container and on the host
    ensures var e := GetMinecraftServerConfig(c.minecraftEdition);
      p.serverImage == FromRegistry(e.image) && p.portMappings == [PortMapping(e.port, e.port, e.protocol)]
    // the service starts cold, on spot capacity only when asked to
    ensures p.desiredCount == 0
    ensures |p.capacityProviderStrategies| == 1
    ensures var s := p.capacityProviderStrategies[0];
      && s.weight == 1 && s.base == 1
      && (s.capacityProvider == FargateSpot <==> Truthy(c.useFargateSpot))
      && CapacityProviderName(s.capacityProvider) == if Truthy(c.useFargateSpot) then "FARGATE_SPOT" else "FARGATE"
    // the watchdog hears of a topic exactly when an email address subscribes to one
    ensures p.watchdog.snsTopic.Some? <==> p.emailSubscription.Some?
    ensures p.emailSubscription.Some? <==> c.snsEmailAddress != ""
    ensures p.emailSubscription.Some? ==> p.emailSubscription.value == c.snsEmailAddress
    // the watchdog watches this server's service, with the configuration's notification and timing settings
    ensures p.watchdog.serviceName == c.serviceName
    ensures p.watchdog.twilio == c.twilio
    ensures p.watchdog.startupMinutes == c.startupMinutes && p.watchdog.shutdownMinutes == c.shutdownMinutes
    // the watchdog updates the zone whose id was published for this server's prefix
    ensures p.watchdog.dnsZone == ReadValue(p.hostedZoneRead)
    ensures p.hostedZoneRead.parameterName == c.prefix + HostedZoneSsmParameter
    // the name the watchdog keeps in DNS is the server's subdomain of the stack's domain
    ensures p.watchdog.serverName == c.subdomainPart + "." + domainName
    ensures p.watchdogImage.FromAsset? <==> dockerInstalled
    // the launcher function's role, imported from this prefix's parameter, gets this server's service-control policy
    ensures p.launcherRole.arn == ReadValue(p.launcherRoleRead)
    ensures p.launcherRoleRead.parameterName == c.prefix + LauncherLambdaArnSsmParameter
    ensures p.launcherRole.policies == [ConstructId(c.prefix, ServiceControlPolicy)]
    ensures p.logging <==> Truthy(c.debug)
  {
    var edition := GetMinecraftServerConfig(c.minecraftEdition);
    ServerPlan(
      prefix := c.prefix,
      declared := DeclaredConstructs(c),
      taskCpu := c.taskCpu,
      taskMemory := c.taskMemory,
      serverImage := FromRegistry(edition.image),
      portMappings := [PortMapping(edition.port, edition.port, edition.protocol)],
      serverEnvironment := c.minecraftImageEnv,
      serviceName := c.serviceName,
      capacityProviderStrategies :=
        [CapacityProviderStrategy(if Truthy(c.useFargateSpot) then FargateSpot else Fargate, 1, 1)],
      desiredCount := 0,
      emailSubscription := if c.snsEmailAddress != "" then Some(c.snsEmailAddress) else None,
      hostedZoneRead := HostedZoneRead(c.prefix),
      watchdogImage :=
        if dockerInstalled then FromAsset(WatchdogAssetDirectory, WatchdogAssetPlatform)
        else FromRegistry(WatchdogRegistryImage),
      watchdog := WatchdogSettings(
        c.serviceName, ReadValue(HostedZoneRead(c.prefix)), c.subdomainPart + "." + domainName,
        SnsTopic(c), c.twilio, c.startupMinutes, c.shutdownMinutes),
      launcherRoleRead := LauncherRoleRead(c.prefix),
      launcherRole := ImportedRole(
        ConstructId(c.prefix, LauncherLambdaRole), ReadValue(LauncherRoleRead(c.prefix)),
        [ConstructId(c.prefix, ServiceControlPolicy)]),
      logging := Truthy(c.debug))
  }

  /** The watchdog's environment: its fixed contract of eleven variables. */
  function WatchdogEnvironment(w: WatchdogSettings): (env: map<string, string>)
    ensures env.Keys == {"CLUSTER", "SERVICE", "DNSZONE", "SERVERNAME", "SNSTOPIC", "TWILIOFROM",
                         "TWILIOTO", "TWILIOAID", "TWILIOAUTH", "STARTUPMIN", "SHUTDOWNMIN"}
    ensures env["CLUSTER"] == ClusterName && env["SERVICE"] == w.serviceName
    ensures env["DNSZONE"] == RefText(w.dnsZone) && env["SERVERNAME"] == w.serverName
    // an empty topic tells the watchdog not to publish
    ensures env["SNSTOPIC"] == "" <==> w.snsTopic.None?
    ensures w.snsTopic.Some? ==> env["SNSTOPIC"] == RefText(w.snsTopic.value)
    ensures env["TWILIOFROM"] == w.twilio.phoneFrom && env["TWILIOTO"] == w.twilio.phoneTo
    ensures env["TWILIOAID"] == w.twilio.accountId && env["TWILIOAUTH"] == w.twilio.authCode
    ensures env["STARTUPMIN"] == w.startupMinutes && env["SHUTDOWNMIN"] == w.shutdownMinutes
  {
    map[
      "CLUSTER" := ClusterName,
      "SERVICE" := w.serviceName,
      "DNSZONE" := RefText(w.dnsZone),
      "SERVERNAME" := w.serverName,
      "SNSTOPIC" := if w.snsTopic.Some? then RefText(w.snsTopic.value) else "",
      "TWILIOFROM" := w.twilio.phoneFrom,
      "TWILIOTO" := w.twilio.phoneTo,
      "TWILIOAID" := w.twilio.accountId,
      "TWILIOAUTH" := w.twilio.authCode,
      "STARTUPMIN" := w.startupMinutes,
      "SHUTDOWNMIN" := w.shutdownMinutes]
  }

  /** An inline IAM policy of one server. */
  datatype NamedPolicy = NamedPolicy(id: ConstructId, statements: seq<PolicyStatement>)

  /** Read-write access to this server's own file system, and only through its own access point. */
  function DataPolicy(prefix: string): (policy: NamedPolicy)
    ensures policy.id == ConstructId(prefix, DataRWPolicy)
    ensures |policy.statements| == 1
    ensures policy.statements[0].actions == [ClientMount, ClientWrite, DescribeFileSystems]
    ensures policy.statements[0].resources == [Arn(RefText(Ref(ConstructId(prefix, FileSystem), FileSystemArn)))]
    ensures policy.statements[0].conditions ==
      map["elasticfilesystem:AccessPointArn" := RefText(Ref(ConstructId(prefix, AccessPoint), AccessPointArn))]
  {
    NamedPolicy(ConstructId(prefix, DataRWPolicy), [
      PolicyStatement(
        "AllowReadWriteOnEFS",
        [ClientMount, ClientWrite, DescribeFileSystems],
        [Arn(RefText(Ref(ConstructId(prefix, FileSystem), FileSystemArn)))],
        map["elasticfilesystem:AccessPointArn" := RefText(Ref(ConstructId(prefix, AccessPoint), AccessPointArn))])])
  }

  /** Control of this server's service and of the cluster's tasks, plus network-interface discovery. */
  function ServiceControlPolicyFor(prefix: string): (policy: NamedPolicy)
    ensures policy.id == ConstructId(prefix, ServiceControlPolicy)
    ensures |policy.statements| == 2
    ensures policy.statements[0].actions == [EcsAll]
    ensures policy.statements[0].resources ==
      [Arn(RefText(Ref(ConstructId(prefix, FargateService), ServiceArn))),
       Arn(FormatArn("ecs", StackRegion, StackAccount, "task", ClusterName + "/*"))]
    // the one unscoped statement is network-interface discovery
    ensures forall st :: st in policy.statements && AnyResource in st.resources ==> st.actions == [DescribeNetworkInterfaces]
  {
    NamedPolicy(ConstructId(prefix, ServiceControlPolicy), [
      PolicyStatement(
        "AllowAllOnServiceAndTask", [EcsAll],
        [Arn(RefText(Ref(ConstructId(prefix, FargateService), ServiceArn))),
         Arn(FormatArn("ecs", StackRegion, StackAccount, "task", ClusterName + "/*"))],
        map[]),
      PolicyStatement("", [DescribeNetworkInterfaces], [AnyResource], map[])])
  }

  /** Record-set editing in exactly the hosted zone whose id was read for this server. */
  function Route53PolicyFor(prefix: string): (policy: NamedPolicy)
    ensures policy.id == ConstructId(prefix, IamRoute53Policy)
    ensures |policy.statements| == 1
    ensures policy.statements[0].actions == [GetHostedZone, ChangeResourceRecordSets, ListResourceRecordSets]
    ensures policy.statements[0].resources == [Arn(HostedZoneArnPrefix + RefText(ReadValue(HostedZoneRead(prefix))))]
  {
    NamedPolicy(ConstructId(prefix, IamRoute53Policy), [
      PolicyStatement(
        "AllowEditRecordSets",
        [GetHostedZone, ChangeResourceRecordSets, ListResourceRecordSets],
        [Arn(HostedZoneArnPrefix + RefText(ReadValue(HostedZoneRead(prefix))))],
        map[])])
  }

  /** The DNS policy grants exactly the zone whose id the watchdog is given. */
  lemma Route53PolicyMatchesWatchdogZone(c: ContainerConfig, domainName: string, dockerInstalled: bool)
    ensures var p := ServerPlanFor(c, domainName, dockerInstalled);
      Route53PolicyFor(p.prefix).statements[0].resources
        == [Arn(HostedZoneArnPrefix + WatchdogEnvironment(p.watchdog)["DNSZONE"])]
  {
  }

  /** The launcher function may control this server's own service, and its tasks, through the policy attached to its role. */
  lemma LauncherControlsOwnService(c: ContainerConfig, domainName: string, dockerInstalled: bool)
    ensures var p := ServerPlanFor(c, domainName, dockerInstalled);
      && |p.launcherRole.policies| == 1
      && var policy := ServiceControlPolicyFor(p.launcherRole.policies[0].prefix);
      && policy.id == p.launcherRole.policies[0]
      && EcsAll in policy.statements[0].actions
      && Arn(RefText(Ref(ConstructId(c.prefix, FargateService), ServiceArn))) in policy.statements[0].resources
  {
  }

  /** The watchdog is told a topic, and it is the one created for this server, exactly when an email address was given. */
  lemma WatchdogTopicIffEmail(c: ContainerConfig, domainName: string, dockerInstalled: bool)
    ensures var env := WatchdogEnvironment(ServerPlanFor(c, domainName, dockerInstalled).watchdog);
      && (env["SNSTOPIC"] != "" <==> c.snsEmailAddress != "")
      && (c.snsEmailAddress != "" ==> env["SNSTOPIC"] == RefText(Ref(ConstructId(c.prefix, ServerSnsTopic), TopicArn)))
  {
  }

  /** The shared resources the loop mutates. */
  datatype SharedState = SharedState(
    ingressRules: seq<PortRule>,
    taskRolePolicies: seq<ConstructId>,
    ec2RolePolicies: seq<ConstructId>,
    publishGrants: seq<ConstructId>)

  const NoSharedResources := SharedState([], [], [], [])

  /** What one iteration of the loop does to the shared resources. */
  function Step(s: SharedState, c: ContainerConfig): SharedState
  {
    SharedState(
      s.ingressRules + [GetMinecraftServerConfig(c.minecraftEdition).ingressRulePort],
      s.taskRolePolicies
        + [ConstructId(c.prefix, DataRWPolicy), ConstructId(c.prefix, ServiceControlPolicy), ConstructId(c.prefix, IamRoute53Policy)],
      s.ec2RolePolicies + [ConstructId(c.prefix, DataRWPolicy)],
      s.publishGrants + (if c.snsEmailAddress != "" then [ConstructId(c.prefix, ServerSnsTopic)] else []))
  }

  /** The ingress rules the whole loop adds, one per iteration. */
  function IngressRulesOf(cs: seq<ContainerConfig>): seq<PortRule>
  {
    if cs == [] then []
    else IngressRulesOf(cs[..|cs| - 1]) + [GetMinecraftServerConfig(cs[|cs| - 1].minecraftEdition).ingressRulePort]
  }

  /** The policies the whole loop attaches to the task role, three per iteration. */
  function TaskRolePoliciesOf(cs: seq<ContainerConfig>): seq<ConstructId>
  {
    if cs == [] then []
    else
      var p := cs[|cs| - 1].prefix;
      TaskRolePoliciesOf(cs[..|cs| - 1])
        + [ConstructId(p, DataRWPolicy), ConstructId(p, ServiceControlPolicy), ConstructId(p, IamRoute53Policy)]
  }

  /** The policies the whole loop attaches to the EC2 role, one per iteration. */
  function Ec2RolePoliciesOf(cs: seq<ContainerConfig>): seq<ConstructId>
  {
    if cs == [] then []
    else Ec2RolePoliciesOf(cs[..|cs| - 1]) + [ConstructId(cs[|cs| - 1].prefix, DataRWPolicy)]
  }

  /** The topics whose publishing the whole loop grants the task role. */
  function PublishGrantsOf(cs: seq<ContainerConfig>): seq<ConstructId>
  {
    if cs == [] then []
    else
      var c := cs[|cs| - 1];
      PublishGrantsOf(cs[..|cs| - 1]) + (if c.snsEmailAddress != "" then [ConstructId(c.prefix, ServerSnsTopic)] else [])
  }

  /** What the whole loop does to the shared resources, starting from none. */
  function Replay(cs: seq<ContainerConfig>): SharedState
  {
    SharedState(IngressRulesOf(cs), TaskRolePoliciesOf(cs), Ec2RolePoliciesOf(cs), PublishGrantsOf(cs))
  }

  /** The per-server resources the whole loop declares. */
  function Plans(cs: seq<ContainerConfig>, domainName: string, dockerInstalled: bool): (plans: seq<ServerPlan>)
    ensures |plans| == |cs|
  {
    Map((c: ContainerConfig) => ServerPlanFor(c, domainName, dockerInstalled), cs)
  }

  /** The loop declares exactly one server per configuration, in list order: the i-th for the i-th. */
  lemma PlansOnePerConfig(cs: seq<ContainerConfig>, domainName: string, dockerInstalled: bool, i: nat)
    requires i < |cs|
    ensures Plans(cs, domainName, dockerInstalled)[i] == ServerPlanFor(cs[i], domainName, dockerInstalled)
  {
    MapIndex((c: ContainerConfig) => ServerPlanFor(c, domainName, dockerInstalled), cs, i);
  }

  lemma ReplaySnoc(cs: seq<ContainerConfig>, i: nat)
    requires i < |cs|
    ensures Replay(cs[..i + 1]) == Step(Replay(cs[..i]), cs[i])
  {
    assert cs[..i + 1][..i] == cs[..i];
    assert cs[..i + 1][i] == cs[i];
  }

  lemma PlansSnoc(cs: seq<ContainerConfig>, domainName: string, dockerInstalled: bool, i: nat)
    requires i < |cs|
    ensures Plans(cs[..i + 1], domainName, dockerInstalled)
      == Plans(cs[..i], domainName, dockerInstalled) + [ServerPlanFor(cs[i], domainName, dockerInstalled)]
  {
    MapSnoc((c: ContainerConfig) => ServerPlanFor(c, domainName, dockerInstalled), cs, i);
  }

  /** Each iteration adds its own edition's ingress rule to the one security group. */
  lemma {:induction false} ReplayIngressRules(cs: seq<ContainerConfig>)
    ensures var rules := Replay(cs).ingressRules;
      && |rules| == |cs|
      && forall i :: 0 <= i < |cs| ==> rules[i] == GetMinecraftServerConfig(cs[i].minecraftEdition).ingressRulePort
  {
    if cs != [] {
      var n := |cs| - 1;
      ReplayIngressRules(cs[..n]);
      forall i | 0 <= i < n
        ensures IngressRulesOf(cs)[i] == GetMinecraftServerConfig(cs[i].minecraftEdition).ingressRulePort
      {
        assert cs[..n][i] == cs[i];
      }
    }
  }

  /** Every server's data policy is attached to the EC2 role, in list order. */
  lemma {:induction false} ReplayEc2RolePolicies(cs: seq<ContainerConfig>)
    ensures var policies := Replay(cs).ec2RolePolicies;
      && |policies| == |cs|
      && forall i :: 0 <= i < |cs| ==> policies[i] == ConstructId(cs[i].prefix, DataRWPolicy)
  {
    if cs != [] {
      var n := |cs| - 1;
      ReplayEc2RolePolicies(cs[..n]);
      forall i | 0 <= i < n
        ensures Ec2RolePoliciesOf(cs)[i] == ConstructId(cs[i].prefix, DataRWPolicy)
      {
        assert cs[..n][i] == cs[i];
      }
    }
  }

  /** Every server's data, service-control and DNS policies are attached to the one task role, in that order. */
  lemma {:induction false} ReplayTaskRolePolicies(cs: seq<ContainerConfig>)
    ensures var policies := Replay(cs).taskRolePolicies;
      && |policies| == 3 * |cs|
      && forall i :: 0 <= i < |cs| ==>
           policies[3 * i..3 * i + 3] ==
             [ConstructId(cs[i].prefix, DataRWPolicy), ConstructId(cs[i].prefix, ServiceControlPolicy),
              ConstructId(cs[i].prefix, IamRoute53Policy)]
  {
    if cs != [] {
      var n := |cs| - 1;
      ReplayTaskRolePolicies(cs[..n]);
      var front, all := TaskRolePoliciesOf(cs[..n]), TaskRolePoliciesOf(cs);
      forall i | 0 <= i < n
        ensures all[3 * i..3 * i + 3] == front[3 * i..3 * i + 3]
      {
      }
      forall i | 0 <= i < n
        ensures cs[..n][i] == cs[i]
      {
      }
    }
  }

  /** The task role may publish on exactly the topics created for servers with an email address. */
  lemma {:induction false} ReplayPublishGrants(cs: seq<ContainerConfig>)
    ensures var grants := Replay(cs).publishGrants;
      && (forall t :: t in grants ==>
            exists i :: 0 <= i < |cs| && cs[i].snsEmailAddress != "" && t == ConstructId(cs[i].prefix, ServerSnsTopic))
      && (forall i :: 0 <= i < |cs| && cs[i].snsEmailAddress != "" ==>
            ConstructId(cs[i].prefix, ServerSnsTopic) in grants)
  {
    if cs != [] {
      var n := |cs| - 1;
      var front := cs[..n];
      ReplayPublishGrants(front);
      var before, after := PublishGrantsOf(front), PublishGrantsOf(cs);
      forall t | t in after
        ensures exists i :: 0 <= i < |cs| && cs[i].snsEmailAddress != "" && t == ConstructId(cs[i].prefix, ServerSnsTopic)
      {
        if t in before {
          var i :| 0 <= i < n && front[i].snsEmailAddress != "" && t == ConstructId(front[i].prefix, ServerSnsTopic);
          assert cs[i] == front[i];
        } else {
          assert cs[n].snsEmailAddress != "" && t == ConstructId(cs[n].prefix, ServerSnsTopic);
        }
      }
      forall i | 0 <= i < n && cs[i].snsEmailAddress != ""
        ensures ConstructId(cs[i].prefix, ServerSnsTopic) in after
      {
        assert cs[i] == front[i];
      }
    }
  }

  /** A topic named after prefix `p` may be published on exactly when some server with that prefix was given an email address. */
  lemma PublishGrantIffSomeEmail(cs: seq<ContainerConfig>, p: string)
    ensures ConstructId(p, ServerSnsTopic) in Replay(cs).publishGrants <==>
      exists c :: c in cs && c.prefix == p && c.snsEmailAddress != ""
  {
    ReplayPublishGrants(cs);
    var t := ConstructId(p, ServerSnsTopic);
    if t in Replay(cs).publishGrants {
      var i :| 0 <= i < |cs| && cs[i].snsEmailAddress != "" && t == ConstructId(cs[i].prefix, ServerSnsTopic);
      assert cs[i] in cs;
    }
    if exists c :: c in cs && c.prefix == p && c.snsEmailAddress != "" {
      var c :| c in cs && c.prefix == p && c.snsEmailAddress != "";
      var i :| 0 <= i < |cs| && cs[i] == c;
    }
  }

  /**
   * What the loop leaves in the shared resources for the configurations
   * `cs`: one ingress rule and one EC2-role policy per server, three
   * task-role policies per server, in list order, and publishing on a
   * prefix's topic exactly when a server with that prefix has an email
   * address.
   */
  ghost predicate SharesPerServer(cs: seq<ContainerConfig>, s: SharedState)
  {
    && |s.ingressRules| == |cs| && |s.ec2RolePolicies| == |cs| && |s.taskRolePolicies| == 3 * |cs|
    && (forall i :: 0 <= i < |cs| ==> s.ingressRules[i] == GetMinecraftServerConfig(cs[i].minecraftEdition).ingressRulePort)
    && (forall i :: 0 <= i < |cs| ==> s.ec2RolePolicies[i] == ConstructId(cs[i].prefix, DataRWPolicy))
    && (forall i :: 0 <= i < |cs| ==> s.taskRolePolicies[3 * i] == ConstructId(cs[i].prefix, DataRWPolicy))
    && (forall i :: 0 <= i < |cs| ==> s.taskRolePolicies[3 * i + 1] == ConstructId(cs[i].prefix, ServiceControlPolicy))
    && (forall i :: 0 <= i < |cs| ==> s.taskRolePolicies[3 * i + 2] == ConstructId(cs[i].prefix, IamRoute53Policy))
    && (forall p: string :: ConstructId(p, ServerSnsTopic) in s.publishGrants <==>
          exists c :: c in cs && c.prefix == p && c.snsEmailAddress != "")
  }

  /** The whole loop, replayed, leaves exactly that. */
  lemma ReplaySharesPerServer(cs: seq<ContainerConfig>, s: SharedState)
    requires s == Replay(cs)
    ensures SharesPerServer(cs, s)
  {
    ReplayIngressRules(cs);
    ReplayEc2RolePolicies(cs);
    ReplayTaskRolePolicies(cs);
    forall i | 0 <= i < |cs|
      ensures s.taskRolePolicies[3 * i] == ConstructId(cs[i].prefix, DataRWPolicy)
      ensures s.taskRolePolicies[3 * i + 1] == ConstructId(cs[i].prefix, ServiceControlPolicy)
      ensures s.taskRolePolicies[3 * i + 2] == ConstructId(cs[i].prefix, IamRoute53Policy)
    {
      assert s.taskRolePolicies[3 * i..3 * i + 3][0] == s.taskRolePolicies[3 * i];
      assert s.taskRolePolicies[3 * i..3 * i + 3][1] == s.taskRolePolicies[3 * i + 1];
      assert s.taskRolePolicies[3 * i..3 * i + 3][2] == s.taskRolePolicies[3 * i + 2];
    }
    forall p: string
      ensures ConstructId(p, ServerSnsTopic) in s.publishGrants <==>
        exists c :: c in cs && c.prefix == p && c.snsEmailAddress != ""
    {
      PublishGrantIffSomeEmail(cs, p);
    }
  }

  /** No two configurations share a prefix; the construct library refuses a repeated construct id. */
  predicate DistinctPrefixes(cs: seq<ContainerConfig>)
  {
    forall i, j :: 0 <= i < j < |cs| ==> cs[i].prefix != cs[j].prefix
  }

  /** With distinct prefixes, the task role may publish on server i's topic exactly when that server was given an email address. */
  lemma PublishGrantIffEmail(cs: seq<ContainerConfig>, i: nat)
    requires DistinctPrefixes(cs) && i < |cs|
    ensures ConstructId(cs[i].prefix, ServerSnsTopic) in Replay(cs).publishGrants <==> cs[i].snsEmailAddress != ""
  {
    var t := ConstructId(cs[i].prefix, ServerSnsTopic);
    ReplayPublishGrants(cs);
    if t in Replay(cs).publishGrants {
      var j :| 0 <= j < |cs| && cs[j].snsEmailAddress != "" && t == ConstructId(cs[j].prefix, ServerSnsTopic);
      if i < j || j < i {
        assert false;
      }
    }
  }

  /** `MinecraftStack`: the shared resources and the servers declared so far. */
  class MinecraftStack {
    const vpc: VpcPlan
    /** Managed policies of the EC2 work-server role. */
    const ec2ManagedPolicies: seq<string>
    /** Ingress rules added to the one service security group. */
    var ingressRules: seq<PortRule>
    /** Policies attached to the one ECS task role. */
    var taskRolePolicies: seq<ConstructId>
    /** Policies attached to the one EC2 work-server role. */
    var ec2RolePolicies: seq<ConstructId>
    /** Topics that granted the task role publishing (`grantPublish`). */
    var publishGrants: seq<ConstructId>
    /** The per-server resources, one entry per iteration. */
    var servers: seq<ServerPlan>

    function State(): SharedState
      reads this
    {
      SharedState(ingressRules, taskRolePolicies, ec2RolePolicies, publishGrants)
    }

    constructor (config: StackConfig, dockerInstalled: bool)
      ensures vpc == VpcFor(config.vpcId)
      ensures ec2ManagedPolicies == [Ec2ManagedPolicy]
      ensures State() == Replay(config.containerConfigs)
      ensures servers == Plans(config.containerConfigs, config.domainName, dockerInstalled)
      ensures SharesPerServer(config.containerConfigs, State())
    {
      vpc := VpcFor(config.vpcId);
      ec2ManagedPolicies := [Ec2ManagedPolicy];
      ingressRules, taskRolePolicies, ec2RolePolicies, publishGrants, servers := [], [], [], [], [];
      new;
      AddServers(config.containerConfigs, config.domainName, dockerInstalled);
      ReplaySharesPerServer(config.containerConfigs, State());
    }

    /** The constructor's loop over the container configurations, from no servers yet. */
    method AddServers(cs: seq<ContainerConfig>, domainName: string, dockerInstalled: bool)
      requires State() == NoSharedResources && servers == []
      modifies this
      ensures State() == Replay(cs)
      ensures servers == Plans(cs, domainName, dockerInstalled)
    {
      for i := 0 to |cs|
        invariant State() == Replay(cs[..i])
        invariant servers == Plans(cs[..i], domainName, dockerInstalled)
      {
        ReplaySnoc(cs, i);
        PlansSnoc(cs, domainName, dockerInstalled, i);
        AddServer(cs[i], domainName, dockerInstalled);
      }
      assert cs[..|cs|] == cs;
    }

    /** One iteration of the loop, in the order the source declares things. */
    method AddServer(c: ContainerConfig, domainName: string, dockerInstalled: bool)
      modifies this
      ensures State() == Step(old(State()), c)
      ensures servers == old(servers) + [ServerPlanFor(c, domainName, dockerInstalled)]
    {
      var plan := ServerPlanFor(c, domainName, dockerInstalled);
      var dataPolicy := ConstructId(c.prefix, DataRWPolicy);
      ec2RolePolicies := ec2RolePolicies + [dataPolicy];
      taskRolePolicies := taskRolePolicies + [dataPolicy];
      ingressRules := ingressRules + [GetMinecraftServerConfig(c.minecraftEdition).ingressRulePort];
      if plan.watchdog.snsTopic.Some? {
        publishGrants := publishGrants + [plan.watchdog.snsTopic.value.of];
      }
      taskRolePolicies := taskRolePolicies + [ConstructId(c.prefix, ServiceControlPolicy)];
      taskRolePolicies := taskRolePolicies + [ConstructId(c.prefix, IamRoute53Policy)];
      servers := servers + [plan];
    }
  }
}
