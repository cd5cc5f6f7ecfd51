/**
 * Configuration resolution of the multi-server stack (cdk/lib/config.ts).
 *
 * Reading the `.env` file, globbing the `.ini` files of the `container` directory and parsing each INI
 * file happen outside the model: their results arrive as string maps, one
 * per file in the order the glob lists them. `JSON.parse` arrives as a
 * function from text to the parsed object, None standing for a throw.
 */
module CdkConfig {
  import opened Wrappers
  import opened Js
  import opened Seqs

  /** The two server editions (`MinecraftEdition`). */
  datatype Edition = Java | Bedrock

  /** The top-level keys of one parsed `.ini` file of the `container` directory. */
  type IniMap = map<string, string>

  /** Extra environment for the game-server image (`MinecraftImageEnv`). */
  type ImageEnv = map<string, string>

  /** `process.env` after the `.env` file has been loaded. */
  type Environment = map<string, string>

  /** What `JSON.parse` makes of a text: the parsed object, or None when it throws. */
  type JsonParser = string -> Option<ImageEnv>

  datatype TwilioConfig = TwilioConfig(phoneFrom: string, phoneTo: string, accountId: string, authCode: string)

  /**
   * One server definition. `useFargateSpot` and `debug` keep the raw INI
   * value (possibly absent); `taskCpu` and `taskMemory` hold the result of
   * unary `+`, None when that is not an integer.
   */
  datatype ContainerConfig = ContainerConfig(
    prefix: string,
    serviceName: string,
    subdomainPart: string,
    minecraftEdition: Edition,
    shutdownMinutes: string,
    startupMinutes: string,
    useFargateSpot: Option<string>,
    taskCpu: Option<int>,
    taskMemory: Option<int>,
    minecraftImageEnv: ImageEnv,
    snsEmailAddress: string,
    twilio: TwilioConfig,
    debug: Option<string>)

  datatype StackConfig = StackConfig(
    domainName: string,
    vpcId: string,
    serverRegion: string,
    containerConfigs: seq<ContainerConfig>)

  const DefaultImageEnv: ImageEnv := map["EULA" := "TRUE"]

  /** `JSON.parse(text)`: the empty text is not a JSON value, so parsing it always throws. */
  function ParseJson(parse: JsonParser, text: string): Option<ImageEnv>
  {
    if text == "" then None else parse(text)
  }

  /** The text handed to `JSON.parse`: the argument, or its default `''` when it is undefined. */
  function JsonText(json: Option<string>): string
  {
    if json.Some? then json.value else ""
  }

  /**
   * `resolveMinecraftEnvVars`: the parsed JSON spread over `{EULA: 'TRUE'}`;
   * when parsing throws, the defaults alone.
   */
  function ResolveMinecraftEnvVars(json: Option<string>, parse: JsonParser): (env: ImageEnv)
    ensures "EULA" in env
    ensures json.None? ==> env == DefaultImageEnv
    ensures ParseJson(parse, JsonText(json)).None? ==> env == DefaultImageEnv
    ensures ParseJson(parse, JsonText(json)).Some? ==>
      var user := ParseJson(parse, JsonText(json)).value;
      && env.Keys == user.Keys + {"EULA"}
      && (forall k :: k in user ==> env[k] == user[k])
      && ("EULA" !in user ==> env["EULA"] == "TRUE")
  {
    match ParseJson(parse, JsonText(json))
    case Some(user) => DefaultImageEnv + user
    case None => DefaultImageEnv
  }

  /** `+(m[key] || fallback)`: a numeric default, or unary `+` on the configured text. */
  function NumberOr(m: IniMap, key: string, fallback: nat): Option<int>
  {
    if Truthy(Lookup(m, key)) then ToNumber(m[key]) else Some(fallback)
  }

  /** The body of the `for` loop of `resolveConfig`: one file's keys to a ContainerConfig. */
  function ResolveContainerConfig(m: IniMap, parse: JsonParser): (c: ContainerConfig)
    ensures c.prefix == Get(m, "PREFIX", "")
    ensures c.serviceName == Get(m, "SERVICE_NAME", "minecraft-server")
    ensures c.subdomainPart == Get(m, "SUBDOMAIN_PART", "minecraft")
    ensures c.minecraftEdition == Bedrock <==> Lookup(m, "MINECRAFT_EDITION") == Some("bedrock")
    ensures c.shutdownMinutes == Get(m, "SHUTDOWN_MINUTES", "20")
    ensures c.startupMinutes == Get(m, "STARTUP_MINUTES", "10")
    ensures c.useFargateSpot == Lookup(m, "USE_FARGATE_SPOT")
    ensures !Truthy(Lookup(m, "TASK_CPU")) ==> c.taskCpu == Some(1024)
    ensures !Truthy(Lookup(m, "TASK_MEMORY")) ==> c.taskMemory == Some(2048)
    ensures Truthy(Lookup(m, "TASK_CPU")) ==> c.taskCpu == ToNumber(m["TASK_CPU"])
    ensures Truthy(Lookup(m, "TASK_MEMORY")) ==> c.taskMemory == ToNumber(m["TASK_MEMORY"])
    ensures c.minecraftImageEnv == ResolveMinecraftEnvVars(Lookup(m, "MINECRAFT_IMAGE_ENV_VARS_JSON"), parse)
    ensures c.snsEmailAddress == Get(m, "SNS_EMAIL_ADDRESS", "")
    ensures c.twilio == TwilioConfig(
      Get(m, "TWILIO_PHONE_FROM", ""), Get(m, "TWILIO_PHONE_TO", ""),
      Get(m, "TWILIO_ACCOUNT_ID", ""), Get(m, "TWILIO_AUTH_CODE", ""))
    ensures c.debug == Lookup(m, "DEBUG")
  {
    ContainerConfig(
      prefix := Get(m, "PREFIX", ""),
      serviceName := Get(m, "SERVICE_NAME", "minecraft-server"),
      subdomainPart := Get(m, "SUBDOMAIN_PART", "minecraft"),
      minecraftEdition := if Lookup(m, "MINECRAFT_EDITION") == Some("bedrock") then Bedrock else Java,
      shutdownMinutes := Get(m, "SHUTDOWN_MINUTES", "20"),
      startupMinutes := Get(m, "STARTUP_MINUTES", "10"),
      useFargateSpot := Lookup(m, "USE_FARGATE_SPOT"),
      taskCpu := NumberOr(m, "TASK_CPU", 1024),
      taskMemory := NumberOr(m, "TASK_MEMORY", 2048),
      minecraftImageEnv := ResolveMinecraftEnvVars(Lookup(m, "MINECRAFT_IMAGE_ENV_VARS_JSON"), parse),
      snsEmailAddress := Get(m, "SNS_EMAIL_ADDRESS", ""),
      twilio := TwilioConfig(
        phoneFrom := Get(m, "TWILIO_PHONE_FROM", ""),
        phoneTo := Get(m, "TWILIO_PHONE_TO", ""),
        accountId := Get(m, "TWILIO_ACCOUNT_ID", ""),
        authCode := Get(m, "TWILIO_AUTH_CODE", "")),
      debug := Lookup(m, "DEBUG"))
  }

  /** A CPU or memory setting spelt as an integer, negatives included, reads back as that integer. */
  lemma IntegerSizesReadBack(m: IniMap, parse: JsonParser, n: int)
    ensures Lookup(m, "TASK_CPU") == Some(IntToString(n)) ==> ResolveContainerConfig(m, parse).taskCpu == Some(n)
    ensures Lookup(m, "TASK_MEMORY") == Some(IntToString(n)) ==> ResolveContainerConfig(m, parse).taskMemory == Some(n)
  {
    ToNumberOfIntToString(n);
  }

  /**
   * `resolveConfig`: one ContainerConfig per file, pushed in file order,
   * and the global fields from the environment with their defaults.
   */
  method ResolveConfig(env: Environment, files: seq<IniMap>, parse: JsonParser) returns (config: StackConfig)
    ensures |config.containerConfigs| == |files|
    ensures forall i :: 0 <= i < |files| ==> config.containerConfigs[i] == ResolveContainerConfig(files[i], parse)
    ensures config.domainName == Get(env, "DOMAIN_NAME", "")
    ensures config.vpcId == Get(env, "VPC_ID", "")
    ensures config.serverRegion == Get(env, "SERVER_REGION", "us-east-1")
  {
    var resolve := (m: IniMap) => ResolveContainerConfig(m, parse);
    var containers: seq<ContainerConfig> := [];
    for i := 0 to |files|
      invariant containers == Map(resolve, files[..i])
    {
      var containerConfig := ResolveContainerConfig(files[i], parse);
      MapSnoc(resolve, files, i);
      containers := containers + [containerConfig];
    }
    assert files[..|files|] == files;
    forall i | 0 <= i < |files|
      ensures containers[i] == ResolveContainerConfig(files[i], parse)
    {
      MapIndex(resolve, files, i);
    }
    config := StackConfig(
      domainName := Get(env, "DOMAIN_NAME", ""),
      vpcId := Get(env, "VPC_ID", ""),
      serverRegion := Get(env, "SERVER_REGION", "us-east-1"),
      containerConfigs := containers);
  }

  /**
   * The entry point's message. The literal continues onto a second line with
   * a backslash, which drops the line break but keeps the second line's
   * four-space indentation: "rename" is followed by four spaces.
   */
  const MissingDomainNameError :=
    "Missing required `DOMAIN_NAME` in .env file, please rename    `.env.sample` to `.env` and add your domain name."

  /** The entry point's guard: synthesis stops when the resolved domain name is empty. */
  function CheckDomainName(config: StackConfig): (r: Result<StackConfig, string>)
    ensures r.Ok? <==> config.domainName != ""
    ensures r.Ok? ==> r.value == config
    ensures r.Err? ==> r.error == MissingDomainNameError
  {
    if config.domainName == "" then Err(MissingDomainNameError) else Ok(config)
  }

  /** A file with no keys resolves to every default the code sets. */
  lemma EmptyFileGivesDefaults(parse: JsonParser)
    ensures ResolveContainerConfig(map[], parse) == ContainerConfig(
      "", "minecraft-server", "minecraft", Java, "20", "10", None, Some(1024), Some(2048),
      DefaultImageEnv, "", TwilioConfig("", "", "", ""), None)
  {
  }

  /** The pass-through keys keep an empty value: `''` is not turned into undefined or false. */
  lemma PassThroughKeepsEmptyValue(m: IniMap, parse: JsonParser)
    ensures ResolveContainerConfig(m["USE_FARGATE_SPOT" := ""], parse).useFargateSpot == Some("")
    ensures ResolveContainerConfig(m - {"USE_FARGATE_SPOT"}, parse).useFargateSpot == None
    ensures ResolveContainerConfig(m["DEBUG" := ""], parse).debug == Some("")
    ensures ResolveContainerConfig(m - {"DEBUG"}, parse).debug == None
  {
  }
}
