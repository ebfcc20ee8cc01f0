/** The deployment script's configuration record and the `gcloud run deploy`
    command line it builds from it. Running the command is not modelled. */
module DeployCloudRun {
  import opened Strings

  /** A dictionary of strings, as its entries in insertion order. */
  type StringDict = seq<(string, string)>

  datatype CloudRunConfig = CloudRunConfig(
    serviceName: string,
    imageUri: string,
    region: string,
    projectId: string,
    maxInstances: int,
    minInstances: int,
    cpu: int,
    memory: string,
    vpcConnector: string,
    envVars: StringDict,
    secrets: StringDict)

  /** `CloudRunConfig(service_name, image_uri, region, project_id)` with
      every other field at its declared default. */
  function NewCloudRunConfig(serviceName: string, imageUri: string, region: string, projectId: string)
    : (c: CloudRunConfig)
    ensures c.maxInstances == 4 && c.minInstances == 0 && c.cpu == 1 && c.memory == "512Mi"
    ensures c.vpcConnector == "" && c.envVars == [] && c.secrets == []
    ensures c.serviceName == serviceName && c.imageUri == imageUri
    ensures c.region == region && c.projectId == projectId
  {
    CloudRunConfig(serviceName, imageUri, region, projectId, 4, 0, 1, "512Mi", "", [], [])
  }

  /** `f"{key}={value}"` */
  function EnvEntry(key: string, value: string): string {
    key + "=" + value
  }

  /** `f"{env_var}={name}:latest"` for a secret entry `name: env_var`. */
  function SecretEntry(name: string, envVar: string): string {
    envVar + "=" + name + ":latest"
  }

  function EnvEntries(env: StringDict): (entries: seq<string>)
    ensures |entries| == |env|
    ensures forall i :: 0 <= i < |env| ==> entries[i] == EnvEntry(env[i].0, env[i].1)
  {
    seq(|env|, i requires 0 <= i < |env| => EnvEntry(env[i].0, env[i].1))
  }

  function SecretEntries(secrets: StringDict): (entries: seq<string>)
    ensures |entries| == |secrets|
    ensures forall i :: 0 <= i < |secrets| ==> entries[i] == SecretEntry(secrets[i].0, secrets[i].1)
  {
    seq(|secrets|, i requires 0 <= i < |secrets| => SecretEntry(secrets[i].0, secrets[i].1))
  }

  /** The value of `--set-env-vars`. */
  function EnvVarsArg(env: StringDict): string {
    Join(EnvEntries(env), ",")
  }

  /** The value of `--update-secrets`. */
  function SecretsArg(secrets: StringDict): string {
    Join(SecretEntries(secrets), ",")
  }

  /** No key or value of the dictionary contains `c`. */
  predicate FreeOf(d: StringDict, c: char) {
    forall i :: 0 <= i < |d| ==> c !in d[i].0 && c !in d[i].1
  }

  /** Splitting the `--set-env-vars` value at commas gives back one
      "key=value" entry per variable, in dictionary order, when no key or
      value contains a comma. */
  lemma EnvVarsArgSplits(env: StringDict)
    requires env != [] && FreeOf(env, ',')
    ensures Split(EnvVarsArg(env), ',') == EnvEntries(env)
  {
    var entries := EnvEntries(env);
    forall k | 0 <= k < |entries| ensures ',' !in entries[k] {
      assert entries[k] == env[k].0 + "=" + env[k].1;
    }
    SplitJoin(entries, ',');
  }

  /** The same for `--update-secrets`, whose entries read "env_var=name:latest". */
  lemma SecretsArgSplits(secrets: StringDict)
    requires secrets != [] && FreeOf(secrets, ',')
    ensures Split(SecretsArg(secrets), ',') == SecretEntries(secrets)
  {
    var entries := SecretEntries(secrets);
    forall k | 0 <= k < |entries| ensures ',' !in entries[k] {
      assert entries[k] == secrets[k].1 + "=" + secrets[k].0 + ":latest";
    }
    SplitJoin(entries, ',');
  }

  /** Number of words the base command has before the optional flags. */
  const BaseLength: nat := 21

  /** The command list `deploy_to_cloud_run` passes to `run_command`: the
      fixed prefix and base flags, then `--vpc-connector`, `--set-env-vars`
      and `--update-secrets`, each only when its setting is non-empty. */
  method DeployCommand(config: CloudRunConfig) returns (command: seq<string>)
    ensures |command| >= BaseLength
    ensures command[..BaseLength] == [
      "gcloud", "run", "deploy", config.serviceName,
      "--image", config.imageUri,
      "--region", config.region,
      "--project", config.projectId,
      "--platform", "managed",
      "--allow-unauthenticated",
      "--min-instances", IntToString(config.minInstances),
      "--max-instances", IntToString(config.maxInstances),
      "--cpu", IntToString(config.cpu),
      "--memory", config.memory]
    ensures var v := if config.vpcConnector != "" then 2 else 0;
            var e := if config.envVars != [] then 2 else 0;
            var s := if config.secrets != [] then 2 else 0;
            |command| == BaseLength + v + e + s
            && (v == 2 ==> command[BaseLength..BaseLength + 2] == ["--vpc-connector", config.vpcConnector])
            && (e == 2 ==> command[BaseLength + v..BaseLength + v + 2]
                             == ["--set-env-vars", EnvVarsArg(config.envVars)])
            && (s == 2 ==> command[BaseLength + v + e..] == ["--update-secrets", SecretsArg(config.secrets)])
  {
    command := [
      "gcloud", "run", "deploy", config.serviceName,
      "--image", config.imageUri,
      "--region", config.region,
      "--project", config.projectId,
      "--platform", "managed",
      "--allow-unauthenticated",
      "--min-instances", IntToString(config.minInstances),
      "--max-instances", IntToString(config.maxInstances),
      "--cpu", IntToString(config.cpu),
      "--memory", config.memory
    ];
    ghost var base := command;
    assert |base| == BaseLength;
    if config.vpcConnector != "" {
      command := command + ["--vpc-connector", config.vpcConnector];
    }
    ghost var withVpc := command;
    assert withVpc[..BaseLength] == base;
    if config.envVars != [] {
      command := command + ["--set-env-vars", EnvVarsArg(config.envVars)];
    }
    ghost var withEnv := command;
    assert withEnv[..|withVpc|] == withVpc;
    if config.secrets != [] {
      command := command + ["--update-secrets", SecretsArg(config.secrets)];
    }
    assert command[..|withEnv|] == withEnv;
    assert command[..BaseLength] == withEnv[..BaseLength] == withVpc[..BaseLength];
  }

  /** The instance counts and CPU on the command line read back as the
      configured numbers. */
  lemma CommandNumbersReadBack(config: CloudRunConfig)
    requires config.minInstances >= 0 && config.maxInstances >= 0 && config.cpu >= 0
    ensures ParseDigits(IntToString(config.minInstances)) == config.minInstances
    ensures ParseDigits(IntToString(config.maxInstances)) == config.maxInstances
    ensures ParseDigits(IntToString(config.cpu)) == config.cpu
  {
    ParseNatToString(config.minInstances);
    ParseNatToString(config.maxInstances);
    ParseNatToString(config.cpu);
  }
}
