# minecraft-ondemand, modelled in Dafny

minecraft-ondemand runs a Minecraft server on AWS Fargate. The server starts
only when someone looks up its DNS name, and it stops again once nobody has
played for a while. This project models the parts of the repository that
decide what gets deployed, and the function that starts a server:

- **Configuration resolution.** The multi-server deployment reads a `.env`
  file and one `.ini` file per server (`cdk/lib/config.ts`). The module is
  `CdkConfig`, and `ResolveConfig` is a loop that pushes one
  `ContainerConfig` per file. The older single-server deployment has a fixed
  settings object (`lib/config.ts`), modelled in `LegacyConfig`.
- **Edition settings and flag parsing** (`cdk/lib/util.ts`), in the module
  `CdkUtil`.
- **The multi-server compute stack** (`cdk/lib/minecraft-stack.ts`), in the
  module `MinecraftStack`. The stack is a class whose fields are the
  resources its constructor's loop mutates: the ingress rules of the one
  service security group, the policies attached to the one task role and
  the one EC2 role, and the topics whose publishing is granted to the task
  role. Every server a loop iteration declares is a `ServerPlan` value. Its
  construct ids are typed `ConstructId(prefix, construct)` values, and the
  deploy-time values read from the parameter store are typed `Ref` values.
  `Step` describes one iteration's effect on the shared resources, and
  `Replay` the whole loop's. Lemmas prove what `Replay` holds. The
  predicate `SharesPerServer` gathers these facts, and the constructor
  ensures it.
- **The single-server stack** (`cdk/lib/minecraft-server-stack.ts`), in the
  module `MinecraftServerStack`. It models:
  - the watchdog and game-server environments
  - the task role's policy statements
  - the Fargate Spot escape hatch, with `CfnService` as a class whose fields
    the hatch overwrites
  - the optional data sync between the file system and an S3 bucket,
    including its missing-subnet error
- **The launcher function** (`lambda/lambda_function.py`), in the module
  `Launcher`. It reads three settings from the environment, then raises the
  service's desired count from 0 to 1. `Ecs` is a class holding a desired
  count per service and a log of update calls.

Some JavaScript value rules are modelled separately in `Js`: truthiness of a
possibly-undefined string, the `||` default, unary `+` on decimal integer
text, and `Number#toString`. The round trip `ToNumber(IntToString(n)) ==
Some(n)` is proved there. `Cdk` holds plain-value stand-ins for
construct-library values:
- a deploy-time token is the symbolic text `${LogicalId.Attribute}`
- `Arn.format` assembles the ARN's colon-separated parts
- ports, capacity providers, IAM actions and policy statements are plain data

A policy statement's resource is either the wildcard or one ARN. `Seqs`
holds an element-wise `Map` over sequences and its index law.

Checks the code does not make:
- **Out-of-range Spot percentage.** A percentage outside (0, 100] is
  silently ignored, and the service keeps its FARGATE launch type. Nothing
  rejects it (`SpotPercentageApplies`, `CfnService.ApplySpotPercentage`).
- **Duplicate prefixes.** The configuration code never rejects two servers
  that share a prefix. The model instead proves that two servers' construct
  ids collide exactly when their prefixes are equal
  (`IdTextDistinctIffPrefixesDistinct`). With distinct prefixes, the task
  role may publish on a server's topic exactly when that server has an email
  address (`PublishGrantIffEmail`).

The watchdog's minute settings take two forms. In the multi-server stack they
are passed through as the configured text. In the single-server stack they
are integers printed with `toString`, and they read back unchanged
(`WatchdogMinutesRoundTrip`).

## Model

| member | source | states |
|---|---|---|
| Js.Get | cdk/lib/config.ts:35-53 | `m[key] \|\| fallback` is the value when the key is present and non-empty, otherwise the fallback |
| Js.GetEmptyIsMissing | cdk/lib/config.ts:35-37 | through `\|\|`, a key set to the empty string reads exactly like a missing key |
| Js.IntToString | cdk/lib/minecraft-server-stack.ts:137-138 | `toString` of an integer is non-empty and all digits exactly when the integer is not negative |
| Js.DigitsRoundTrip | cdk/lib/minecraft-server-stack.ts:137-138 | the decimal digits printed for a natural number read back as that number (by induction) |
| Js.ToNumberOfIntToString | cdk/lib/config.ts:43-44 | unary `+` on the text an integer prints as gives back that integer, negatives included |
| Cdk.Token | cdk/lib/minecraft-server-stack.ts:93 | a deploy-time attribute reference has the `${…}` token shape |
| Cdk.FormatArn | cdk/lib/minecraft-server-stack.ts:320-324 | a formatted ARN starts with `arn:` |
| Cdk.FormatArnLayout | cdk/lib/minecraft-server-stack.ts:320-324 | the service follows the partition, and the ARN ends with `:<resource>/<resourceName>` |
| Cdk.FormatArnInjective | cdk/lib/minecraft-server-stack.ts:211-220 | with the other parts fixed, two ARNs are equal exactly when their resource names are, so a hosted-zone ARN names one zone |
| Cdk.CapacityProviderName | cdk/lib/minecraft-stack.ts:203-205 | a capacity provider is on-demand exactly when its name is `FARGATE`, and Spot exactly when it is `FARGATE_SPOT` |
| Cdk.ActionNamesDistinct | cdk/lib/minecraft-server-stack.ts:195-240 | two IAM actions are written the same exactly when they are the same action |
| CdkConfig.ResolveMinecraftEnvVars | cdk/lib/config.ts:9-23 | the image environment always has EULA. A JSON text that fails to parse, or is absent, gives exactly `{EULA: 'TRUE'}`. A parsed object's keys all win over the default |
| CdkConfig.ResolveContainerConfig | cdk/lib/config.ts:34-56 | each field is its INI key with its default in the code (PREFIX '', SERVICE_NAME 'minecraft-server', SUBDOMAIN_PART 'minecraft', minutes '20'/'10', CPU 1024, memory 2048). The edition is bedrock only for the exact text `bedrock`. A CPU or memory setting that is set is unary `+` of its text. USE_FARGATE_SPOT and DEBUG are passed through raw |
| CdkConfig.IntegerSizesReadBack | cdk/lib/config.ts:43-44 | a CPU or memory setting spelt as an integer, negatives included, reads back as that integer |
| CdkConfig.ResolveConfig | cdk/lib/config.ts:25-66 | one container configuration per INI file, in file order, each resolved by ResolveContainerConfig. The domain name, VPC id and region come from the environment with defaults '', '' and 'us-east-1' |
| CdkConfig.CheckDomainName | cdk/bin/cdk.ts:13-16 | synthesis stops with the entry point's message (four spaces after "rename", from the continued string literal) exactly when the resolved domain name is empty, and otherwise passes the configuration through unchanged |
| CdkConfig.EmptyFileGivesDefaults | cdk/lib/config.ts:34-56 | an INI file with no keys gives every default the code sets |
| CdkConfig.PassThroughKeepsEmptyValue | cdk/lib/config.ts:42-55 | USE_FARGATE_SPOT and DEBUG keep an empty value as `''`, distinct from an absent key |
| CdkUtil.StringAsBoolean | cdk/lib/util.ts:7-8 | true exactly for the text `true`. `TRUE`, `True`, `1` and undefined are false |
| CdkUtil.GetMinecraftServerConfig | cdk/lib/util.ts:19-37 | Java is TCP 25565 with the Java image and Bedrock is UDP 19132 with the Bedrock image. The ingress rule opens the edition's own port and protocol |
| CdkUtil.EditionConfigsDiffer | cdk/lib/util.ts:22-34 | the two editions never share a port, a protocol or an image |
| MinecraftStack.VpcFor | cdk/lib/minecraft-stack.ts:33-38 | a configured VPC id is looked up. Without one, a new VPC with 3 availability zones and no NAT gateway is created |
| MinecraftStack.IdTextDistinctIffPrefixesDistinct | cdk/lib/minecraft-stack.ts:91-110 | two servers' ids for the same construct differ exactly when their prefixes differ |
| MinecraftStack.HostedZoneRead | cdk/lib/minecraft-stack.ts:248-255 | the hosted-zone id is read from the prefixed parameter `<prefix>MinecraftHostedZoneID` in us-east-1 |
| MinecraftStack.LauncherRoleRead | cdk/lib/minecraft-stack.ts:330-337 | the launcher role ARN is read from the prefixed parameter `<prefix>LauncherLambdaRoleArn` in us-east-1 |
| MinecraftStack.SnsTopic | cdk/lib/minecraft-stack.ts:227-246 | a topic exists exactly when the server has an email address, and it is that server's own topic |
| MinecraftStack.DeclaredConstructs | cdk/lib/minecraft-stack.ts:88-366 | one iteration declares the topic and the email subscription exactly when an email address is given: 14 constructs with one, 12 without |
| MinecraftStack.ServerPlanFor | cdk/lib/minecraft-stack.ts:132-294 | The task size, the server's environment and the service name are the configuration's own. The server runs its edition's image and maps its edition's port on container and host. The service starts with desired count 0, with one capacity-provider strategy of weight 1 and base 1, on FARGATE_SPOT exactly when USE_FARGATE_SPOT is truthy. The email subscription's endpoint is the configured address. The watchdog gets a topic exactly when an email subscription exists, which is exactly when an email address is set. It watches the configured service with the configured Twilio and minute settings. Its DNS zone is the value read from this prefix's parameter, and its server name is `<subdomain>.<domain>`. The watchdog image is built locally exactly when Docker is available. The launcher role imported from this prefix's parameter gets this server's service-control policy. Logging is on exactly when DEBUG is truthy |
| MinecraftStack.WatchdogEnvironment | cdk/lib/minecraft-stack.ts:274-286 | exactly the eleven watchdog variables. SNSTOPIC is empty exactly when there is no topic, and otherwise holds the topic's ARN |
| MinecraftStack.DataPolicy | cdk/lib/minecraft-stack.ts:110-128 | one statement allowing ClientMount, ClientWrite and DescribeFileSystems on this server's file system, conditioned on this server's access point |
| MinecraftStack.ServiceControlPolicyFor | cdk/lib/minecraft-stack.ts:297-323 | two statements: `ecs:*` on this server's service and the cluster's tasks, and the wildcard only with `ec2:DescribeNetworkInterfaces` |
| MinecraftStack.Route53PolicyFor | cdk/lib/minecraft-stack.ts:351-364 | one statement allowing GetHostedZone, ChangeResourceRecordSets and ListResourceRecordSets on the hosted zone whose id was read for this prefix |
| MinecraftStack.LauncherControlsOwnService | cdk/lib/minecraft-stack.ts:297-345 | the launcher function's role may run `ecs:*` on this server's own service |
| MinecraftStack.Route53PolicyMatchesWatchdogZone | cdk/lib/minecraft-stack.ts:248-361 | the zone the DNS policy allows editing is the zone the watchdog is told to update |
| MinecraftStack.WatchdogTopicIffEmail | cdk/lib/minecraft-stack.ts:227-286 | the watchdog is told a topic, its own server's, exactly when an email address was given |
| MinecraftStack.Plans | cdk/lib/minecraft-stack.ts:88-366 | the loop declares as many servers as there are configurations |
| MinecraftStack.PlansOnePerConfig | cdk/lib/minecraft-stack.ts:88-366 | the i-th server declared is the one for the i-th configuration |
| MinecraftStack.ReplayIngressRules | cdk/lib/minecraft-stack.ts:191-194 | the security group gets one ingress rule per server, in order, each the server's edition's port (by induction) |
| MinecraftStack.ReplayEc2RolePolicies | cdk/lib/minecraft-stack.ts:129 | the EC2 role gets every server's data policy, one per server, in order (by induction) |
| MinecraftStack.ReplayTaskRolePolicies | cdk/lib/minecraft-stack.ts:130-365 | the task role gets three policies per server, in order: data, service control, DNS (by induction) |
| MinecraftStack.ReplayPublishGrants | cdk/lib/minecraft-stack.ts:229-234 | the task role may publish on exactly the topics of the servers that have an email address (both directions, by induction) |
| MinecraftStack.PublishGrantIffSomeEmail | cdk/lib/minecraft-stack.ts:229-234 | publishing on the topic of prefix p is granted exactly when some server with prefix p has an email address |
| MinecraftStack.PublishGrantIffEmail | cdk/lib/minecraft-stack.ts:229-234 | with distinct prefixes, publishing on server i's topic is granted exactly when server i has an email address |
| MinecraftStack.ReplaySharesPerServer | cdk/lib/minecraft-stack.ts:88-366 | the replayed loop leaves one ingress rule (the edition's port) and one EC2-role data policy per server, and the data, service-control and DNS policies on the task role, all in list order. Publishing is granted on a prefix's topic exactly when a server with that prefix has an email address |
| MinecraftStack.MinecraftStack.constructor | cdk/lib/minecraft-stack.ts:28-366 | the VPC per VpcFor and the EC2 role's managed SSM policy. The shared resources equal Replay of the configurations and satisfy SharesPerServer. There is one server per configuration |
| MinecraftStack.MinecraftStack.AddServers | cdk/lib/minecraft-stack.ts:88-366 | the loop, from no servers: the shared resources end as Replay of the configurations and the servers as their plans (loop invariant) |
| MinecraftStack.MinecraftStack.AddServer | cdk/lib/minecraft-stack.ts:88-366 | one iteration: the shared resources advance by exactly one Step and one server plan is appended |
| MinecraftServerStack.WatchdogEnvironment | cdk/lib/minecraft-server-stack.ts:114-140 | the six fixed variables, plus SNSTOPIC only when a notification email is set, holding the topic's ARN. SERVERNAME is the whole domain name, and STARTUPMIN and SHUTDOWNMIN are the minutes as `toString` prints them |
| MinecraftServerStack.WatchdogMinutesRoundTrip | cdk/lib/minecraft-server-stack.ts:137-138 | the minute settings read back as the integers the stack was given |
| MinecraftServerStack.ServerEnvironment | cdk/lib/minecraft-server-stack.ts:147-151 | the configured variables win over the EULA and OVERRIDE_SERVER_PROPERTIES defaults, which are TRUE when not overridden |
| MinecraftServerStack.ServiceStatements | cdk/lib/minecraft-server-stack.ts:195-240 | five statements, none of which includes `sns:Publish` among its actions. The wildcard appears only with the two discovery actions, and record-set edits are allowed by the third statement |
| MinecraftServerStack.RecordSetEditsConfined | cdk/lib/minecraft-server-stack.ts:211-220 | every statement that allows record-set edits is on the configured hosted zone alone |
| MinecraftServerStack.ServiceControlConfined | cdk/lib/minecraft-server-stack.ts:196-202 | `ecs:*` is allowed, and only on this service and the tasks of the `minecraft` cluster |
| MinecraftServerStack.FileSystemWritesConfined | cdk/lib/minecraft-server-stack.ts:229-240 | file-system writes are allowed, and only on this file system under this server's access-point condition |
| MinecraftServerStack.TaskRoleStatements | cdk/lib/minecraft-server-stack.ts:186-240 | some statement includes `sns:Publish` exactly when a notification email is set, and every such statement is on the stack's topic alone. The wildcard appears only with the discovery actions |
| MinecraftServerStack.SpotSplit | cdk/lib/minecraft-server-stack.ts:255-264 | FARGATE_SPOT then FARGATE, with weights summing to 100 and the spot weight equal to the percentage |
| MinecraftServerStack.FullSpotLeavesNoOnDemand | cdk/lib/minecraft-server-stack.ts:258-262 | at 100 percent the on-demand weight is 0 |
| MinecraftServerStack.CfnService.constructor | cdk/lib/minecraft-server-stack.ts:158-164 | the service as the construct leaves it: launch type FARGATE, no strategy, desired count 0 |
| MinecraftServerStack.CfnService.ApplySpotPercentage | cdk/lib/minecraft-server-stack.ts:249-265 | a percentage in (0, 100] clears the launch type and installs the Spot split. Any other value leaves the service unchanged |
| MinecraftServerStack.BuildWatchdogEnvironment | cdk/lib/minecraft-server-stack.ts:114-141 | a topic is created exactly when a notification email is set, and the environment built equals WatchdogEnvironment |
| MinecraftServerStack.BuildTaskRoleStatements | cdk/lib/minecraft-server-stack.ts:186-240 | the statements added one by one are the publish grant, if there is a topic, followed by the fixed statements |
| MinecraftServerStack.CreateEcs | cdk/lib/minecraft-server-stack.ts:96-268 | the service's environments, statements, port mapping and ingress rule per the functions above; desired count 0; the Spot escape hatch applied |
| MinecraftServerStack.CreateFileSync | cdk/lib/minecraft-server-stack.ts:270-365 | fails with the code's message exactly when the VPC has no public subnet. Otherwise it uses the first public subnet, the bucket `<domain>-minecraft-files`, one security-group ARN per group in order, and two tasks copying in opposite directions between the same two locations |
| MinecraftServerStack.Synthesize | cdk/lib/minecraft-server-stack.ts:37-51 | synthesis fails exactly when file sync is enabled and the VPC has no public subnet. File sync is declared exactly when enabled, and the service always starts at desired count 0 |
| LegacyConfig.ConfigFor | lib/config.ts:3-82 | domain name, subdomain and region come from the environment, with defaults '', 'minecraft' and 'us-east-1'. The minute, memory and CPU settings are the texts '10', '20', '2048' and '1024', and Spot is `'false'` |
| LegacyConfig.FixedSettingsIgnoreEnvironment | lib/config.ts:27-81 | the five fixed settings do not depend on the environment |
| LegacyConfig.EmptyVariableIsUnset | lib/config.ts:7-21 | an environment variable set to '' gives the same settings as an unset one |
| Launcher.LoadSettings | lambda/lambda_function.py:4-6 | loading succeeds exactly when REGION_NAME, CLUSTER_NAME and SERVICE_NAME are all set, with their values. Otherwise the error names the first missing one, in reading order |
| Launcher.OutcomeMessage | lambda/lambda_function.py:26-28 | the update message is printed exactly when the count was raised |
| Launcher.NextDesiredCount | lambda/lambda_function.py:18-25 | the count left behind is at least 1, unchanged unless it was 0, and 1 when it was 0 |
| Launcher.HandlerEffect | lambda/lambda_function.py:18-25 | only the configured service's count can change, and it becomes NextDesiredCount of its old value: at least 1, and unchanged if it was not 0 |
| Launcher.HandlerUpdates | lambda/lambda_function.py:20-25 | at most one update call, made exactly when the service exists with count 0, and it asks for count 1 |
| Launcher.HandlerOutcome | lambda/lambda_function.py:18-28 | the invocation fails exactly when the service is not found, and reports an update exactly when an update call is made |
| Launcher.HandlerIdempotent | lambda/lambda_function.py:18-25 | a second invocation changes nothing and makes no update call |
| Launcher.HandlerStartsServer | lambda/lambda_function.py:18-25 | after an invocation for an existing service, it wants at least one task |
| Launcher.Ecs.DescribeDesiredCount | lambda/lambda_function.py:13-18 | the service's desired count, or nothing when the service does not exist |
| Launcher.Ecs.UpdateService | lambda/lambda_function.py:21-25 | sets the service's desired count and logs the call, changing nothing else |
| Launcher.LambdaHandler | lambda/lambda_function.py:9-28 | the new desired counts, the call log and the outcome are exactly HandlerEffect, HandlerUpdates and HandlerOutcome of the counts before the call |

## Left out

- Reading files is not modelled: the `.env` file, the glob of `container/*.ini` and the INI parser arrive as string maps, one per file, in glob order. The INI library's own conversion of `true`, `false` and `null` words into non-string values is not modelled: every INI value is a string. So `USE_FARGATE_SPOT=false` and `DEBUG=false`, which the program reads as boolean false (on-demand FARGATE, no logging), are the truthy text `'false'` in the model (FARGATE_SPOT, logging on).
- `JSON.parse` is a parameter (text to an optional string map). JSON values that are not strings, and the warning printed on a parse failure, are not modelled.
- Unary `+` (`Js.ToNumber`) covers the empty text, decimal digits and a minus sign before digits. Fractions, exponents, a leading `+`, `Infinity`, hexadecimal, binary and octal literals, surrounding blanks and NaN arithmetic are not modelled: they give None.
- `MinecraftServerStack.Props`: startupMin, shutdownMin and fargateSpotPercentage are integers. A fractional Spot percentage is not modelled.
- Construct-library internals are not modelled. Deploy-time attributes and parameter-store reads are symbolic token strings or typed references. CloudFormation output, logical-id hashing and the library's rejection of a repeated construct id are not modelled.
- Js.IntToString: JavaScript numbers are doubles. `toString` prints integers from 1e21 upward in exponent notation, and unary `+` rounds integers above 2^53. The model prints and reads every integer exactly, as decimal digits.
- Cdk.FormatArn: the construct library's ARN layout (`arn:<partition>:<service>:<region>:<account>:<resource>/<resourceName>`) is assumed, not derived. The library's source is not part of this model.
- `isDockerInstalled` runs `docker version`. It becomes the boolean parameter `dockerInstalled`.
- The multi-server stack's cluster, work-server EC2 instance and security groups are not modelled: only the ingress rules added to the service security group are. Also left out are the EFS connections (`allowDefaultPortFrom`), access-point POSIX settings, log retention, the EFS volume and mount points, and task CPU/memory beyond passing through the configured numbers.
- The single-server stack's file system, volume, mount point and NFS connections are left out, and so are the cluster's container insights and the task definition's fixed CPU and memory. The data-sync bucket's policies and the sync tasks' options and exclude filter are also left out.
- The domain stacks, the launcher stack, the parameter-reader custom resource and the entry points are not part of this model, except the entry point's empty-domain check (`CdkConfig.CheckDomainName`).
- `MinecraftStack.PublishGrantIffEmail` assumes distinct prefixes. The code does not check this; with a repeated prefix, the construct library itself refuses the duplicate construct id at synthesis.
- Launcher: the boto3 client and network calls become the `Ecs` class. `print` output is the `Outcome` value, and the event and context arguments are not read. A missing variable at module load (KeyError) and a missing service (IndexError on the empty `services` list) are the error outcomes. Other API errors (throttling, permissions) are not modelled.
- `Launcher.OutcomeMessage`: the text "desiredCount already at 1" is printed for any count other than 0, as in the code. The model does not claim the count is 1 then.
