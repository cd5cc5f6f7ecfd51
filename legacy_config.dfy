/**
 * The single-server stack's settings (lib/config.ts): three values read
 * from the environment with a default, and five fixed values that the
 * environment cannot change.
 */
module LegacyConfig {
  import opened Wrappers
  import opened Js

  datatype Config = Config(
    domainName: string,
    subdomainPart: string,
    serverRegion: string,
    startupMinutes: string,
    shutdownMinutes: string,
    useFargateSpot: string,
    taskMemory: string,
    taskCpu: string)

  /** The exported `config` object, as a function of `process.env`. */
  function ConfigFor(env: map<string, string>): (c: Config)
    ensures Truthy(Lookup(env, "DOMAIN_NAME")) ==> c.domainName == env["DOMAIN_NAME"]
    ensures !Truthy(Lookup(env, "DOMAIN_NAME")) ==> c.domainName == ""
    ensures Truthy(Lookup(env, "SUBDOMAIN_PART")) ==> c.subdomainPart == env["SUBDOMAIN_PART"]
    ensures !Truthy(Lookup(env, "SUBDOMAIN_PART")) ==> c.subdomainPart == "minecraft"
    ensures Truthy(Lookup(env, "SERVER_REGION")) ==> c.serverRegion == env["SERVER_REGION"]
    ensures !Truthy(Lookup(env, "SERVER_REGION")) ==> c.serverRegion == "us-east-1"
    // the remaining settings are constants: ten minutes to first connection, twenty after the last,
    // on-demand Fargate, 2 GB of memory and one vCPU
    ensures c.startupMinutes == "10" && c.shutdownMinutes == "20"
    ensures c.useFargateSpot == "false"
    ensures c.taskMemory == "2048" && c.taskCpu == "1024"
    // and they read as the numbers they spell
    ensures ToNumber(c.startupMinutes) == Some(10) && ToNumber(c.shutdownMinutes) == Some(20)
    ensures ToNumber(c.taskMemory) == Some(2048) && ToNumber(c.taskCpu) == Some(1024)
  {
    SettingNumbers();
    Config(
      domainName := Get(env, "DOMAIN_NAME", ""),
      subdomainPart := Get(env, "SUBDOMAIN_PART", "minecraft"),
      serverRegion := Get(env, "SERVER_REGION", "us-east-1"),
      startupMinutes := "10",
      shutdownMinutes := "20",
      useFargateSpot := "false",
      taskMemory := "2048",
      taskCpu := "1024")
  }

  /** The fixed numeric settings read back as the numbers they spell. */
  lemma SettingNumbers()
    ensures ToNumber("10") == Some(10) && ToNumber("20") == Some(20)
    ensures ToNumber("2048") == Some(2048) && ToNumber("1024") == Some(1024)
  {
    ToNumberOfIntToString(10);
    ToNumberOfIntToString(20);
    ToNumberOfIntToString(2048);
    ToNumberOfIntToString(1024);
    assert IntToString(10) == "10";
    assert IntToString(20) == "20";
    assert IntToString(2048) == "2048";
    assert IntToString(1024) == "1024";
  }

  /** Only the three environment-backed settings depend on the environment. */
  lemma FixedSettingsIgnoreEnvironment(env1: map<string, string>, env2: map<string, string>)
    ensures var c1, c2 := ConfigFor(env1), ConfigFor(env2);
      && c1.startupMinutes == c2.startupMinutes && c1.shutdownMinutes == c2.shutdownMinutes
      && c1.useFargateSpot == c2.useFargateSpot && c1.taskMemory == c2.taskMemory && c1.taskCpu == c2.taskCpu
  {
  }

  /** A variable set to the empty string reads as if it were not set at all. */
  lemma EmptyVariableIsUnset(env: map<string, string>, name: string)
    ensures ConfigFor(env[name := ""]) == ConfigFor(env - {name})
  {
    GetEmptyIsMissing(env, name, "DOMAIN_NAME", "");
    GetEmptyIsMissing(env, name, "SUBDOMAIN_PART", "minecraft");
    GetEmptyIsMissing(env, name, "SERVER_REGION", "us-east-1");
  }
}
