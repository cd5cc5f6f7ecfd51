/**
 * The single-server stack (cdk/lib/minecraft-server-stack.ts): one Fargate
 * service with a game-server container and a watchdog sidecar, its task
 * role's policy statements, the Fargate Spot escape hatch on the low-level
 * service resource, and the optional data-sync between the file system and
 * a bucket.
 */
module MinecraftServerStack {
  import opened Wrappers
  import opened Js
  import opened Cdk

  const MinecraftPort: nat := 25565
  const AccessPointPath := "/minecraft"
  const ServerImage := "itzg/minecraft-server"
  const WatchdogImage := "doctorray/minecraft-ecsfargate-watchdog"
  const NoPublicSubnetError := "VPC needs at least one public subnet to create the data sync tasks."

  /**
   * The stack's properties. Numbers are integers here; `notificationEmail`,
   * `fargateSpotPercentage` and `enableFileSync` may be undefined.
   */
  datatype Props = Props(
    clusterName: string,
    serviceName: string,
    vpcId: string,
    domainHostedZoneId: string,
    domainName: string,
    startupMin: int,
    shutdownMin: int,
    notificationEmail: Option<string>,
    serverEnvironment: map<string, string>,
    fargateSpotPercentage: Option<int>,
    enableFileSync: Option<bool>)

  /** The notification topic's ARN, known at deployment. */
  const TopicArn := Token("MinecraftTopic", "TopicArn")
  const ServiceArn := Token("MinecraftService", "ServiceArn")
  const FileSystemArn := Token("MinecraftFileSystem", "FileSystemArn")
  const AccessPointArn := Token("MinecraftAccessPoint", "AccessPointArn")
  const ServiceSecurityGroupId := Token("MinecraftServiceSecurityGroup", "GroupId")

  /**
   * The watchdog's environment as the source assembles it: the fixed
   * variables, then the spread of the extra variables (only SNSTOPIC, and
   * only when a notification email is set).
   */
  function WatchdogEnvironment(props: Props): (env: map<string, string>)
    ensures {"CLUSTER", "SERVICE", "DNSZONE", "SERVERNAME", "STARTUPMIN", "SHUTDOWNMIN"} <= env.Keys
    ensures "SNSTOPIC" in env <==> Truthy(props.notificationEmail)
    ensures "SNSTOPIC" in env ==> env["SNSTOPIC"] == TopicArn
    ensures env.Keys <= {"CLUSTER", "SERVICE", "DNSZONE", "SERVERNAME", "STARTUPMIN", "SHUTDOWNMIN", "SNSTOPIC"}
    ensures env["CLUSTER"] == props.clusterName && env["SERVICE"] == props.serviceName
    ensures env["DNSZONE"] == props.domainHostedZoneId
    // the whole domain name, not a subdomain of it
    ensures env["SERVERNAME"] == props.domainName
    // the minutes as `toString` prints them
    ensures env["STARTUPMIN"] == IntToString(props.startupMin) && env["SHUTDOWNMIN"] == IntToString(props.shutdownMin)
  {
    var base := map[
      "CLUSTER" := props.clusterName,
      "SERVICE" := props.serviceName,
      "DNSZONE" := props.domainHostedZoneId,
      "SERVERNAME" := props.domainName,
      "STARTUPMIN" := IntToString(props.startupMin),
      "SHUTDOWNMIN" := IntToString(props.shutdownMin)];
    base + (if Truthy(props.notificationEmail) then map["SNSTOPIC" := TopicArn] else map[])
  }

  /** The watchdog reads its minute settings back as the integers the stack was given. */
  lemma WatchdogMinutesRoundTrip(props: Props)
    ensures ToNumber(WatchdogEnvironment(props)["STARTUPMIN"]) == Some(props.startupMin)
    ensures ToNumber(WatchdogEnvironment(props)["SHUTDOWNMIN"]) == Some(props.shutdownMin)
  {
    ToNumberOfIntToString(props.startupMin);
    ToNumberOfIntToString(props.shutdownMin);
  }

  const ServerDefaults: map<string, string> := map["EULA" := "TRUE", "OVERRIDE_SERVER_PROPERTIES" := "TRUE"]

  /** The game server's environment: the two defaults, overridden by the configured variables. */
  function ServerEnvironment(serverEnvironment: map<string, string>): (env: map<string, string>)
    ensures env.Keys == serverEnvironment.Keys + {"EULA", "OVERRIDE_SERVER_PROPERTIES"}
    ensures forall k :: k in serverEnvironment ==> env[k] == serverEnvironment[k]
    ensures "EULA" !in serverEnvironment ==> env["EULA"] == "TRUE"
    ensures "OVERRIDE_SERVER_PROPERTIES" !in serverEnvironment ==> env["OVERRIDE_SERVER_PROPERTIES"] == "TRUE"
  {
    ServerDefaults + serverEnvironment
  }

  /** Publishing on a topic. */
  function SnsPublishStatement(topicArn: string): PolicyStatement
  {
    PolicyStatement("", [SnsPublish], [Arn(topicArn)], map[])
  }

  /** The statements added whatever the properties, in the order the source adds them. */
  function ServiceStatements(props: Props): (statements: seq<PolicyStatement>)
    ensures |statements| == 5
    // none of them publishes
    ensures forall st :: st in statements ==> SnsPublish !in st.actions
    // a wildcard resource only for the two read-only discovery actions
    ensures forall st :: st in statements && AnyResource in st.resources ==>
      st.actions == [DescribeNetworkInterfaces] || st.actions == [ListHostedZones]
    // record-set edits are allowed, by the third statement (RecordSetEditsConfined: only in the configured hosted zone)
    ensures ChangeResourceRecordSets in statements[2].actions
  {
    [
      PolicyStatement("", [EcsAll], [Arn(ServiceArn), Arn(FormatArn("ecs", StackRegion, StackAccount, "task", "minecraft/*"))], map[]),
      PolicyStatement("", [DescribeNetworkInterfaces], [AnyResource], map[]),
      PolicyStatement(
        "", [GetHostedZone, ChangeResourceRecordSets, ListResourceRecordSets],
        [Arn(FormatArn("route53", "", "", "hostedzone", props.domainHostedZoneId))], map[]),
      PolicyStatement("", [ListHostedZones], [AnyResource], map[]),
      PolicyStatement(
        "", [ClientMount, ClientWrite, DescribeFileSystems],
        [Arn(FileSystemArn)], map["elasticfilesystem:AccessPointArn" := AccessPointArn])]
  }

  /** Record sets are edited only in the configured hosted zone. */
  lemma RecordSetEditsConfined(props: Props)
    ensures forall st :: st in ServiceStatements(props) && ChangeResourceRecordSets in st.actions ==>
      st.resources == [Arn(FormatArn("route53", "", "", "hostedzone", props.domainHostedZoneId))]
  {
    var s := ServiceStatements(props);
    forall st | st in s && ChangeResourceRecordSets in st.actions
      ensures st.resources == [Arn(FormatArn("route53", "", "", "hostedzone", props.domainHostedZoneId))]
    {
      assert st == s[2];
    }
  }

  /** The task may control only this service and the tasks of the `minecraft` cluster. */
  lemma ServiceControlConfined(props: Props)
    ensures exists st :: st in ServiceStatements(props) && st.actions == [EcsAll]
    ensures forall st :: st in ServiceStatements(props) && EcsAll in st.actions ==>
      st.resources == [Arn(ServiceArn), Arn(FormatArn("ecs", StackRegion, StackAccount, "task", "minecraft/*"))]
  {
    var s := ServiceStatements(props);
    assert s[0] in s;
    forall st | st in s && EcsAll in st.actions
      ensures st.resources == [Arn(ServiceArn), Arn(FormatArn("ecs", StackRegion, StackAccount, "task", "minecraft/*"))]
    {
      assert st == s[0];
    }
  }

  /** The task writes to the file system only through this server's access point. */
  lemma FileSystemWritesConfined(props: Props)
    ensures exists st :: st in ServiceStatements(props) && ClientWrite in st.actions
    ensures forall st :: st in ServiceStatements(props) && ClientWrite in st.actions ==>
      && st.resources == [Arn(FileSystemArn)]
      && st.conditions == map["elasticfilesystem:AccessPointArn" := AccessPointArn]
  {
    var s := ServiceStatements(props);
    assert s[4] in s;
    forall st | st in s && ClientWrite in st.actions
      ensures st.resources == [Arn(FileSystemArn)]
      ensures st.conditions == map["elasticfilesystem:AccessPointArn" := AccessPointArn]
    {
      assert st == s[4];
    }
  }

  /** The statements the source adds to the task role: the publish grant when there is a topic, then the rest. */
  function TaskRoleStatements(props: Props): (statements: seq<PolicyStatement>)
    // publishing is granted, on the stack's topic, exactly when there is a topic
    ensures (exists st :: st in statements && SnsPublish in st.actions) <==> Truthy(props.notificationEmail)
    ensures forall st :: st in statements && SnsPublish in st.actions ==> st.resources == [Arn(TopicArn)]
    ensures forall st :: st in statements && AnyResource in st.resources ==>
      st.actions == [DescribeNetworkInterfaces] || st.actions == [ListHostedZones]
  {
    var fixed := ServiceStatements(props);
    if Truthy(props.notificationEmail) then
      [SnsPublishStatement(TopicArn)] + fixed
    else
      fixed
  }

  /** `props.fargateSpotPercentage && p > 0 && p <= 100`; any other value is ignored, not rejected. */
  predicate SpotPercentageApplies(p: Option<int>)
  {
    p.Some? && p.value != 0 && p.value > 0 && p.value <= 100
  }

  datatype WeightedProvider = WeightedProvider(capacityProvider: CapacityProvider, weight: int)

  /** The escape hatch's strategy: spot for p percent of the weight, on-demand Fargate for the rest. */
  function SpotSplit(p: int): (strategy: seq<WeightedProvider>)
    requires 0 < p <= 100
    ensures |strategy| == 2
    ensures strategy[0].capacityProvider == FargateSpot && strategy[1].capacityProvider == Fargate
    ensures strategy[0].weight + strategy[1].weight == 100
    ensures 0 < strategy[0].weight <= 100 && 0 <= strategy[1].weight < 100
    ensures strategy[0].weight == p
  {
    [WeightedProvider(FargateSpot, p), WeightedProvider(Fargate, 100 - p)]
  }

  /** Spot at 100 percent leaves no weight at all to on-demand Fargate. */
  lemma FullSpotLeavesNoOnDemand()
    ensures SpotSplit(100)[1].weight == 0
  {
  }

  /** The low-level service resource behind the Fargate service, whose fields the escape hatch overwrites. */
  class CfnService {
    var serviceName: string
    var launchType: Option<string>
    var capacityProviderStrategy: seq<WeightedProvider>
    var desiredCount: nat

    /** As the Fargate service construct leaves it: launch type FARGATE, no strategy, no running task. */
    constructor (serviceName: string)
      ensures this.serviceName == serviceName
      ensures launchType == Some("FARGATE") && capacityProviderStrategy == [] && desiredCount == 0
    {
      this.serviceName := serviceName;
      launchType := Some("FARGATE");
      capacityProviderStrategy := [];
      desiredCount := 0;
    }

    /** The escape hatch: switch to a spot/on-demand split when the percentage is in (0, 100]. */
    method ApplySpotPercentage(p: Option<int>)
      modifies this
      ensures SpotPercentageApplies(p) ==> launchType == None && capacityProviderStrategy == SpotSplit(p.value)
      ensures !SpotPercentageApplies(p) ==>
        launchType == old(launchType) && capacityProviderStrategy == old(capacityProviderStrategy)
      ensures serviceName == old(serviceName) && desiredCount == old(desiredCount)
    {
      if p.Some? && p.value != 0 && p.value > 0 && p.value <= 100 {
        launchType := None;
        capacityProviderStrategy := [
          WeightedProvider(FargateSpot, p.value),
          WeightedProvider(Fargate, 100 - p.value)];
      }
    }
  }

  datatype PortMapping = PortMapping(containerPort: nat, hostPort: nat)

  /** What `createEcs` declares besides the service resource itself. */
  datatype EcsPlan = EcsPlan(
    topic: Option<string>,
    watchdogEnvironment: map<string, string>,
    serverEnvironment: map<string, string>,
    portMappings: seq<PortMapping>,
    taskRoleStatements: seq<PolicyStatement>,
    ingressRules: seq<PortRule>,
    securityGroups: seq<string>)

  /**
   * The watchdog's variables: the notification topic is created, and its
   * ARN added to the extra variables in place, only for a notification email.
   */
  method BuildWatchdogEnvironment(props: Props) returns (snsTopicArn: Option<string>, env: map<string, string>)
    ensures snsTopicArn.Some? <==> Truthy(props.notificationEmail)
    ensures snsTopicArn.Some? ==> snsTopicArn.value == TopicArn
    ensures env == WatchdogEnvironment(props)
  {
    snsTopicArn := None;
    var additionalWatchdogEnvironment: map<string, string> := map[];
    if Truthy(props.notificationEmail) {
      snsTopicArn := Some(TopicArn);
      additionalWatchdogEnvironment := additionalWatchdogEnvironment["SNSTOPIC" := TopicArn];
    }
    env := map[
      "CLUSTER" := props.clusterName,
      "SERVICE" := props.serviceName,
      "DNSZONE" := props.domainHostedZoneId,
      "SERVERNAME" := props.domainName,
      "STARTUPMIN" := IntToString(props.startupMin),
      "SHUTDOWNMIN" := IntToString(props.shutdownMin)] + additionalWatchdogEnvironment;
  }

  /** `addToTaskRolePolicy`, call after call: the publish grant only when a topic ARN exists. */
  method BuildTaskRoleStatements(props: Props, snsTopicArn: Option<string>) returns (statements: seq<PolicyStatement>)
    ensures statements == (if snsTopicArn.Some? then [SnsPublishStatement(snsTopicArn.value)] else []) + ServiceStatements(props)
  {
    statements := [];
    if snsTopicArn.Some? {
      statements := statements + [SnsPublishStatement(snsTopicArn.value)];
    }
    var fixed := ServiceStatements(props);
    statements := statements + [fixed[0]];
    statements := statements + [fixed[1]];
    statements := statements + [fixed[2]];
    statements := statements + [fixed[3]];
    statements := statements + [fixed[4]];
  }

  /**
   * `createEcs`: the watchdog and server environments, the task role's
   * statements, and the escape hatch applied to the service resource.
   */
  method CreateEcs(props: Props) returns (plan: EcsPlan, service: CfnService)
    ensures fresh(service)
    ensures plan.topic.Some? <==> Truthy(props.notificationEmail)
    ensures plan.watchdogEnvironment == WatchdogEnvironment(props)
    ensures plan.serverEnvironment == ServerEnvironment(props.serverEnvironment)
    ensures plan.taskRoleStatements == TaskRoleStatements(props)
    // the game port, unchanged from container to host to the security group
    ensures plan.portMappings == [PortMapping(MinecraftPort, MinecraftPort)]
    ensures plan.ingressRules == [PortRule(Tcp, MinecraftPort)]
    ensures service.serviceName == props.serviceName && service.desiredCount == 0
    ensures SpotPercentageApplies(props.fargateSpotPercentage) ==>
      service.launchType == None && service.capacityProviderStrategy == SpotSplit(props.fargateSpotPercentage.value)
    ensures !SpotPercentageApplies(props.fargateSpotPercentage) ==>
      service.launchType == Some("FARGATE") && service.capacityProviderStrategy == []
  {
    var snsTopicArn, watchdogEnvironment := BuildWatchdogEnvironment(props);
    var serverEnvironment := ServerDefaults + props.serverEnvironment;
    service := new CfnService(props.serviceName);
    var statements := BuildTaskRoleStatements(props, snsTopicArn);
    service.ApplySpotPercentage(props.fargateSpotPercentage);
    plan := EcsPlan(
      snsTopicArn, watchdogEnvironment, serverEnvironment, [PortMapping(MinecraftPort, MinecraftPort)],
      statements, [PortRule(Tcp, MinecraftPort)], [ServiceSecurityGroupId]);
  }

  /** A data-sync location and the two sync tasks between the file system and the bucket. */
  datatype SyncTask = SyncTask(name: string, source: string, destination: string)

  datatype FileSyncPlan = FileSyncPlan(
    bucketName: string,
    subnetArn: string,
    securityGroupArns: seq<string>,
    efsToS3: SyncTask,
    s3ToEfs: SyncTask)

  const EfsLocationArn := Token("MinecraftEfsLocation", "LocationArn")
  const S3LocationArn := Token("MinecraftS3Location", "LocationArn")

  function SecurityGroupArn(groupId: string): string
  {
    FormatArn("ec2", StackRegion, StackAccount, "security-group", groupId)
  }

  /**
   * `createFileSync`: fails when the looked-up VPC has no public subnet,
   * otherwise places the file-system location in the first one.
   */
  function CreateFileSync(props: Props, publicSubnets: seq<string>, securityGroupIds: seq<string>): (r: Result<FileSyncPlan, string>)
    ensures r.Err? <==> |publicSubnets| < 1
    ensures r.Err? ==> r.error == NoPublicSubnetError
    ensures r.Ok? ==> r.value.subnetArn == FormatArn("ec2", StackRegion, StackAccount, "subnet", publicSubnets[0])
    ensures r.Ok? ==> r.value.bucketName == props.domainName + "-minecraft-files"
    // one security-group ARN per security group of the service, in order
    ensures r.Ok? ==> |r.value.securityGroupArns| == |securityGroupIds|
    ensures r.Ok? ==> forall i :: 0 <= i < |securityGroupIds| ==> r.value.securityGroupArns[i] == SecurityGroupArn(securityGroupIds[i])
    // the two tasks copy in opposite directions between the same two locations
    ensures r.Ok? ==> r.value.efsToS3.source == r.value.s3ToEfs.destination == EfsLocationArn
    ensures r.Ok? ==> r.value.efsToS3.destination == r.value.s3ToEfs.source == S3LocationArn
  {
    if |publicSubnets| < 1 then
      Err(NoPublicSubnetError)
    else
      Ok(FileSyncPlan(
        props.domainName + "-minecraft-files",
        FormatArn("ec2", StackRegion, StackAccount, "subnet", publicSubnets[0]),
        seq(|securityGroupIds|, i requires 0 <= i < |securityGroupIds| => SecurityGroupArn(securityGroupIds[i])),
        SyncTask("minecraft-efs-to-s3", EfsLocationArn, S3LocationArn),
        SyncTask("minecraft-s3-to-efs", S3LocationArn, EfsLocationArn)))
  }

  /** `props.enableFileSync` is truthy only when it is defined and true. */
  predicate FileSyncEnabled(props: Props)
  {
    props.enableFileSync == Some(true)
  }

  datatype StackPlan = StackPlan(ecs: EcsPlan, fileSync: Option<FileSyncPlan>)

  /**
   * The stack's constructor: the file system, then the service, then file
   * sync when enabled; `publicSubnets` are the subnets the VPC lookup found.
   * Err stands for the exception that aborts synthesis.
   */
  method Synthesize(props: Props, publicSubnets: seq<string>) returns (r: Result<StackPlan, string>, service: CfnService)
    ensures r.Err? <==> FileSyncEnabled(props) && |publicSubnets| == 0
    ensures r.Err? ==> r.error == NoPublicSubnetError
    ensures r.Ok? ==> (r.value.fileSync.Some? <==> FileSyncEnabled(props))
    ensures r.Ok? ==> r.value.ecs.taskRoleStatements == TaskRoleStatements(props)
    ensures r.Ok? && r.value.fileSync.Some? ==>
      r.value.fileSync.value.subnetArn == FormatArn("ec2", StackRegion, StackAccount, "subnet", publicSubnets[0])
    ensures service.desiredCount == 0
  {
    var ecs;
    ecs, service := CreateEcs(props);
    if props.enableFileSync == Some(true) {
      var sync := CreateFileSync(props, publicSubnets, ecs.securityGroups);
      if sync.Err? {
        return Err(sync.error), service;
      }
      r := Ok(StackPlan(ecs, Some(sync.value)));
    } else {
      r := Ok(StackPlan(ecs, None));
    }
  }
}
