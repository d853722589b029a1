/** The API's environment configuration: the secret manager with its fallback chain
    (Key Vault, then environment variable, then mock value), the per-environment
    configuration cache, feature flags and log level, and configuration validation.
    The process environment and the Key Vault are inputs. */
module Environment {
  import opened Wrappers
  import opened Text
  import opened ProcessEnv

  // ---------------------------------------------------------------------------
  // Key Vault and the secret manager
  // ---------------------------------------------------------------------------

  /** What one Key Vault `getSecret` call yields: a secret with a value, a secret whose
      value is undefined, or a thrown error. */
  datatype VaultOutcome = Value(value: string) | Absent | Failure

  /** The vault's answer for each secret name during one configuration load. */
  type KeyVault = string -> VaultOutcome

  /** The state a `SecretManager` fixes at construction. `vaultUrl` is `Some(url)`
      exactly when a Key Vault client was created for that URL. */
  datatype SecretManager = SecretManager(
    environment: string,
    keyVaultName: Option<string>,
    vaultUrl: Option<string>)

  /** The `SecretManager` constructor: a Key Vault client exists only in production
      and only when `KEY_VAULT_NAME` is set and non-empty. */
  function NewSecretManager(environment: string, env: Env): (m: SecretManager)
    ensures m.environment == environment
    ensures m.keyVaultName.Some? <==> "KEY_VAULT_NAME" in env
    ensures m.keyVaultName.Some? ==> m.keyVaultName.value == env["KEY_VAULT_NAME"]
    ensures m.vaultUrl.Some? <==> environment == Production && IsSet(env, "KEY_VAULT_NAME")
    ensures m.vaultUrl.Some? ==> m.vaultUrl.value == "https://" + env["KEY_VAULT_NAME"] + ".vault.azure.net"
  {
    var name := if "KEY_VAULT_NAME" in env then Some(env["KEY_VAULT_NAME"]) else None;
    var url :=
      if environment == Production && name.Some? && name.value != ""
      then Some("https://" + name.value + ".vault.azure.net")
      else None;
    SecretManager(environment, name, url)
  }

  /** The environment variable consulted for a secret: the name upper-cased with
      every `-` replaced by `_`. */
  function EnvVarName(name: string): string {
    ReplaceDashes(ToUpper(name))
  }

  /** A normalised name has no lower-case letter and no dash, and normalising it
      again changes nothing. */
  lemma {:induction false} EnvVarNameIsCanonical(name: string)
    ensures forall i :: 0 <= i < |EnvVarName(name)| ==>
      !IsLowerAscii(EnvVarName(name)[i]) && EnvVarName(name)[i] != '-'
    ensures EnvVarName(EnvVarName(name)) == EnvVarName(name)
  {
  }

  /** The fixed mock secrets used when neither Key Vault nor the environment has one. */
  const MockSecrets: map<string, string> := map[
    "AZURE_DEVOPS_PAT_TOKEN" := "mock-devops-pat",
    "OPENAI_API_KEY" := "mock-openai-key",
    "FORM_RECOGNIZER_KEY" := "mock-fr-key",
    "STORAGE_CONNECTION_STRING" := "UseDevelopmentStorage=true",
    "BOT_APP_PASSWORD" := "mock-bot-password"
  ]

  /** `getMockValue`: the table entry for the name as given (not normalised), or
      `mock-<name>`. It is never empty. */
  function MockValue(name: string): (r: string)
    ensures r != ""
    ensures name in MockSecrets ==> r == MockSecrets[name]
    ensures name !in MockSecrets ==> r == "mock-" + name
  {
    if name in MockSecrets then MockSecrets[name] else "mock-" + name
  }

  /** `getSecret`: Key Vault when a client exists and the call does not fail (an
      undefined value reads as ''); otherwise a non-empty environment variable under
      the normalised name; otherwise the mock value. */
  function GetSecret(m: SecretManager, name: string, env: Env, vault: KeyVault): (r: string)
    ensures m.vaultUrl.Some? && vault(name).Value? ==> r == vault(name).value
    ensures m.vaultUrl.Some? && vault(name).Absent? ==> r == ""
    ensures (m.vaultUrl.None? || vault(name).Failure?) && IsSet(env, EnvVarName(name)) ==>
      r == env[EnvVarName(name)]
    ensures (m.vaultUrl.None? || vault(name).Failure?) && !IsSet(env, EnvVarName(name)) ==>
      r == MockValue(name)
  {
    var answered :=
      if m.vaultUrl.Some? then
        match vault(name)
        case Value(v) => Some(v)
        case Absent => Some("")
        case Failure => None
      else None;
    if answered.Some? then answered.value
    else if IsSet(env, EnvVarName(name)) then env[EnvVarName(name)]
    else MockValue(name)
  }

  /** Without a Key Vault client the vault is never consulted, and the secret is
      never empty. */
  lemma GetSecretWithoutClient(m: SecretManager, name: string, env: Env, vault1: KeyVault, vault2: KeyVault)
    requires m.vaultUrl.None?
    ensures GetSecret(m, name, env, vault1) == GetSecret(m, name, env, vault2)
    ensures GetSecret(m, name, env, vault1) != ""
  {
  }

  /** Only a failure moves past Key Vault: whenever the vault answers, the rest of the
      environment is irrelevant. */
  lemma GetSecretVaultAnswerIsFinal(m: SecretManager, name: string, env1: Env, env2: Env, vault: KeyVault)
    requires m.vaultUrl.Some? && !vault(name).Failure?
    ensures GetSecret(m, name, env1, vault) == GetSecret(m, name, env2, vault)
  {
  }

  /** Normalisation applies to the environment variable only: a dashed lower-case name
      reads `OPENAI_API_KEY` from the environment, but its mock is built from the name
      as given. */
  lemma DashedSecretName(m: SecretManager, vault: KeyVault)
    requires m.vaultUrl.None?
    ensures GetSecret(m, "openai-api-key", map["OPENAI_API_KEY" := "key-1"], vault) == "key-1"
    ensures GetSecret(m, "openai-api-key", map[], vault) == "mock-openai-api-key"
  {
    DashedNameNormalises();
    assert "openai-api-key" !in MockSecrets;
  }

  lemma DashedNameNormalises()
    ensures EnvVarName("openai-api-key") == "OPENAI_API_KEY"
  {
    assert ToUpper("openai-api-key") == "OPENAI-API-KEY";
  }

  /** The mock table is keyed by normalised names only, so a name that normalisation
      changes (one with a lower-case letter or a dash) always gets `mock-<name>`. */
  lemma NonCanonicalNameNeverGetsTableMock(name: string)
    requires EnvVarName(name) != name
    ensures name !in MockSecrets
    ensures MockValue(name) == "mock-" + name
  {
    SecretNamesAreCanonical();
  }

  // ---------------------------------------------------------------------------
  // The configuration object
  // ---------------------------------------------------------------------------

  datatype LogLevel = Debug | Information | Warning | Error

  datatype Azure = Azure(subscriptionId: string, tenantId: string, region: string)
  datatype Projects = Projects(general: string, critical: string, external: string)
  datatype AzureDevOps = AzureDevOps(organization: string, projects: Projects, patToken: string)
  datatype Ai = Ai(
    openAiEndpoint: string,
    openAiKey: string,
    formRecognizerEndpoint: string,
    formRecognizerKey: string)
  datatype Containers = Containers(attachments: string, processing: string, exports: string)
  datatype Storage = Storage(accountName: string, connectionString: string, containers: Containers)
  datatype Teams = Teams(appId: string, appPassword: string)
  datatype Monitoring = Monitoring(applicationInsightsKey: string, logLevel: LogLevel, enableTelemetry: bool)
  datatype Features = Features(
    enableAiProcessing: bool,
    enableTeamsBot: bool,
    enableAdvancedAnalytics: bool,
    maxFileUploadSize: nat,
    approvalThresholdHours: nat)

  /** `EnvironmentConfig`. */
  datatype Config = Config(
    environment: string,
    azure: Azure,
    azureDevOps: AzureDevOps,
    ai: Ai,
    storage: Storage,
    teams: Teams,
    monitoring: Monitoring,
    features: Features)

  /** `getFeatureFlags`: production raises limits and enables the Teams bot and
      analytics; AI processing is on everywhere. */
  function FeatureFlagsFor(environment: string): (f: Features)
    ensures f.enableAiProcessing
    ensures f.enableTeamsBot <==> environment == Production
    ensures f.enableAdvancedAnalytics <==> environment == Production
    ensures f.maxFileUploadSize == if environment == Production then 26214400 else 10485760
    ensures f.approvalThresholdHours == if environment == Production then 40 else 8
  {
    if environment == Production then
      Features(true, true, true, 25 * 1024 * 1024, 40)
    else
      Features(true, false, false, 10 * 1024 * 1024, 8)
  }

  /** The `logLevel` chosen by `loadConfig`. */
  function LogLevelFor(environment: string): (l: LogLevel)
    ensures l == Information <==> environment == Production
    ensures l == Debug <==> environment != Production
  {
    if environment == Production then Information else Debug
  }

  /** The configuration `loadConfig` builds for `environment`, reading secrets through
      a freshly constructed secret manager. */
  function LoadedConfig(environment: string, env: Env, vault: KeyVault): Config {
    var m := NewSecretManager(environment, env);
    Config(
      environment,
      Azure(Get(env, "AZURE_SUBSCRIPTION_ID"), Get(env, "AZURE_TENANT_ID"), GetOr(env, "AZURE_REGION", "uksouth")),
      AzureDevOps(
        GetOr(env, "DEVOPS_ORGANIZATION", "your-org"),
        Projects("SDR-General", "SDR-Critical", "SDR-External"),
        GetSecret(m, "AZURE_DEVOPS_PAT_TOKEN", env, vault)),
      Ai(
        Get(env, "OPENAI_ENDPOINT"),
        GetSecret(m, "OPENAI_API_KEY", env, vault),
        Get(env, "FORM_RECOGNIZER_ENDPOINT"),
        GetSecret(m, "FORM_RECOGNIZER_KEY", env, vault)),
      Storage(
        Get(env, "STORAGE_ACCOUNT_NAME"),
        GetSecret(m, "STORAGE_CONNECTION_STRING", env, vault),
        Containers("sdr-attachments", "ai-processing", "exports")),
      Teams(Get(env, "TEAMS_APP_ID"), GetSecret(m, "BOT_APP_PASSWORD", env, vault)),
      Monitoring(Get(env, "APPLICATIONINSIGHTS_KEY"), LogLevelFor(environment), true),
      FeatureFlagsFor(environment))
  }

  /** A loaded configuration carries its environment name, log level and feature flags,
      and its organization and region are never empty thanks to their defaults. */
  lemma LoadedConfigShape(environment: string, env: Env, vault: KeyVault)
    ensures var c := LoadedConfig(environment, env, vault);
      && c.environment == environment
      && (c.monitoring.logLevel == Information <==> environment == Production)
      && c.features == FeatureFlagsFor(environment)
      && c.azureDevOps.organization != ""
      && c.azure.region != ""
      && c.monitoring.enableTelemetry
  {
  }

  /** Outside production the loaded configuration does not depend on Key Vault at all. */
  lemma LoadedConfigIgnoresVaultOutsideProduction(environment: string, env: Env, vault1: KeyVault, vault2: KeyVault)
    requires environment != Production
    ensures LoadedConfig(environment, env, vault1) == LoadedConfig(environment, env, vault2)
  {
  }

  /** With none of the secret variables set and no Key Vault client, every secret of
      the loaded configuration is the fixed mock value. */
  lemma LoadedConfigUsesMocks(environment: string, env: Env, vault: KeyVault)
    requires environment != Production || !IsSet(env, "KEY_VAULT_NAME")
    requires !IsSet(env, "AZURE_DEVOPS_PAT_TOKEN") && !IsSet(env, "OPENAI_API_KEY")
    requires !IsSet(env, "FORM_RECOGNIZER_KEY") && !IsSet(env, "STORAGE_CONNECTION_STRING")
    requires !IsSet(env, "BOT_APP_PASSWORD")
    ensures var c := LoadedConfig(environment, env, vault);
      && c.azureDevOps.patToken == "mock-devops-pat"
      && c.ai.openAiKey == "mock-openai-key"
      && c.ai.formRecognizerKey == "mock-fr-key"
      && c.storage.connectionString == "UseDevelopmentStorage=true"
      && c.teams.appPassword == "mock-bot-password"
  {
    SecretNamesAreCanonical();
  }

  /** The five secrets `loadConfig` reads are looked up under their own names. */
  lemma SecretNamesAreCanonical()
    ensures EnvVarName("AZURE_DEVOPS_PAT_TOKEN") == "AZURE_DEVOPS_PAT_TOKEN"
    ensures EnvVarName("OPENAI_API_KEY") == "OPENAI_API_KEY"
    ensures EnvVarName("FORM_RECOGNIZER_KEY") == "FORM_RECOGNIZER_KEY"
    ensures EnvVarName("STORAGE_CONNECTION_STRING") == "STORAGE_CONNECTION_STRING"
    ensures EnvVarName("BOT_APP_PASSWORD") == "BOT_APP_PASSWORD"
  {
    DevOpsPatNameIsCanonical();
    OpenAiKeyNameIsCanonical();
    FormRecognizerKeyNameIsCanonical();
    StorageConnectionNameIsCanonical();
    BotPasswordNameIsCanonical();
  }

  // One lemma per name keeps each proof about a string literal small.

  lemma DevOpsPatNameIsCanonical()
    ensures EnvVarName("AZURE_DEVOPS_PAT_TOKEN") == "AZURE_DEVOPS_PAT_TOKEN"
  {
  }
  lemma OpenAiKeyNameIsCanonical()
    ensures EnvVarName("OPENAI_API_KEY") == "OPENAI_API_KEY"
  {
  }
  lemma FormRecognizerKeyNameIsCanonical()
    ensures EnvVarName("FORM_RECOGNIZER_KEY") == "FORM_RECOGNIZER_KEY"
  {
  }
  lemma StorageConnectionNameIsCanonical()
    ensures EnvVarName("STORAGE_CONNECTION_STRING") == "STORAGE_CONNECTION_STRING"
  {
  }
  lemma BotPasswordNameIsCanonical()
    ensures EnvVarName("BOT_APP_PASSWORD") == "BOT_APP_PASSWORD"
  {
  }

  // ---------------------------------------------------------------------------
  // The configuration cache
  // ---------------------------------------------------------------------------

  /** The cache key `getConfig` uses: the argument if given and non-empty, else
      `NODE_ENV` if non-empty, else `'development'`. */
  function ResolveEnvironment(requested: Option<string>, env: Env): (key: string)
    ensures key != ""
    ensures requested.Some? && requested.value != "" ==> key == requested.value
    ensures (requested.None? || requested.value == "") && IsSet(env, "NODE_ENV") ==> key == env["NODE_ENV"]
    ensures (requested.None? || requested.value == "") && !IsSet(env, "NODE_ENV") ==> key == "development"
  {
    if requested.Some? && requested.value != "" then requested.value
    else GetOr(env, "NODE_ENV", "development")
  }

  /** `ConfigurationService`: its static cache and last secret manager, held as the
      fields of one object. */
  class ConfigurationService {
    var cache: map<string, Config>
    var secretManager: Option<SecretManager>

    /** Every cached configuration was loaded for the environment it is filed under. */
    ghost predicate Valid()
      reads this
    {
      forall key :: key in cache ==> cache[key].environment == key
    }

    constructor ()
      ensures Valid()
      ensures cache == map[] && secretManager == None
    {
      cache := map[];
      secretManager := None;
    }

    /** `loadConfig`: replaces the secret manager with one for `environment` and
        builds the configuration through it. The cache is not touched. */
    method LoadConfig(environment: string, env: Env, vault: KeyVault) returns (config: Config)
      modifies this`secretManager
      ensures secretManager == Some(NewSecretManager(environment, env))
      ensures config == LoadedConfig(environment, env, vault)
      ensures config.environment == environment
    {
      secretManager := Some(NewSecretManager(environment, env));
      config := LoadedConfig(environment, env, vault);
    }

    /** `getConfig`: a memo table keyed by the resolved environment. A cached entry is
        returned as it is, without loading; a missing one is loaded and stored. No
        other entry changes. */
    method GetConfig(requested: Option<string>, env: Env, vault: KeyVault) returns (config: Config)
      requires Valid()
      modifies this
      ensures Valid()
      ensures var key := ResolveEnvironment(requested, env);
        && key in cache
        && config == cache[key]
        && config.environment == key
        && (key in old(cache) ==>
              cache == old(cache) && config == old(cache)[key] && secretManager == old(secretManager))
        && (key !in old(cache) ==>
              cache == old(cache)[key := LoadedConfig(key, env, vault)]
              && secretManager == Some(NewSecretManager(key, env)))
      ensures forall k :: k != ResolveEnvironment(requested, env) ==>
        (k in cache <==> k in old(cache)) && (k in cache ==> cache[k] == old(cache)[k])
    {
      var key := ResolveEnvironment(requested, env);
      if key !in cache {
        var loaded := LoadConfig(key, env, vault);
        cache := cache[key := loaded];
      }
      config := cache[key];
    }
  }

  /** Once an environment is cached, asking for it again returns the same configuration,
      whatever the environment variables and the vault say by then. */
  method RepeatedGetConfigIsCached(service: ConfigurationService, environment: string,
                                   env1: Env, vault1: KeyVault, env2: Env, vault2: KeyVault)
    returns (first: Config, second: Config)
    requires service.Valid() && environment != ""
    modifies service
    ensures first == second
    ensures service.cache == old(service.cache)[environment := first]
  {
    first := service.GetConfig(Some(environment), env1, vault1);
    second := service.GetConfig(Some(environment), env2, vault2);
  }

  // ---------------------------------------------------------------------------
  // Validation
  // ---------------------------------------------------------------------------

  const OrganizationRequired := "Azure DevOps organization is required"
  const OpenAiEndpointRequired := "OpenAI endpoint is required"
  const KeyVaultRequired := "Key Vault is required in production"
  const AppInsightsRequired := "Application Insights key is required in production"

  /** Every message `validateConfiguration` can emit, in the order it checks them. */
  const ConfigurationMessages := [OrganizationRequired, OpenAiEndpointRequired, KeyVaultRequired, AppInsightsRequired]

  /** `validateConfiguration` as written. The Key Vault check reads `config.keyVaultName`,
      a property `EnvironmentConfig` does not have, so it is always undefined and the
      check always fails in production. */
  function ConfigurationErrors(config: Config): seq<string> {
    var production := config.environment == Production;
    When(config.azureDevOps.organization == "", OrganizationRequired)
    + When(config.ai.openAiEndpoint == "", OpenAiEndpointRequired)
    + When(production, KeyVaultRequired)
    + When(production && config.monitoring.applicationInsightsKey == "", AppInsightsRequired)
  }

  /** `validateConfiguration`, building its list by successive pushes. */
  method ValidateConfiguration(config: Config) returns (errors: seq<string>)
    ensures errors == ConfigurationErrors(config)
  {
    errors := [];
    if config.azureDevOps.organization == "" {
      errors := errors + [OrganizationRequired];
    }
    if config.ai.openAiEndpoint == "" {
      errors := errors + [OpenAiEndpointRequired];
    }
    if config.environment == Production {
      // `config.keyVaultName` is never defined on the configuration object
      errors := errors + [KeyVaultRequired];
      if config.monitoring.applicationInsightsKey == "" {
        errors := errors + [AppInsightsRequired];
      }
    }
  }

  /** Each message appears exactly when its condition holds. */
  lemma ConfigurationErrorsExact(config: Config)
    ensures var errors := ConfigurationErrors(config);
      && (OrganizationRequired in errors <==> config.azureDevOps.organization == "")
      && (OpenAiEndpointRequired in errors <==> config.ai.openAiEndpoint == "")
      && (KeyVaultRequired in errors <==> config.environment == Production)
      && (AppInsightsRequired in errors <==>
            config.environment == Production && config.monitoring.applicationInsightsKey == "")
  {
  }

  /** The messages keep the order in which they are checked. */
  lemma ConfigurationErrorsOrdered(config: Config)
    ensures Subseq(ConfigurationErrors(config), ConfigurationMessages)
  {
    var production := config.environment == Production;
    FourChecksOrdered(config.azureDevOps.organization == "", config.ai.openAiEndpoint == "",
                      production, production && config.monitoring.applicationInsightsKey == "");
  }

  /** The four checks of `validateConfiguration`, in whatever combination they fail,
      report in check order. */
  lemma FourChecksOrdered(c1: bool, c2: bool, c3: bool, c4: bool)
    ensures Subseq(When(c1, OrganizationRequired) + When(c2, OpenAiEndpointRequired)
                   + When(c3, KeyVaultRequired) + When(c4, AppInsightsRequired),
                   ConfigurationMessages)
  {
    var w1, w2 := When(c1, OrganizationRequired), When(c2, OpenAiEndpointRequired);
    var w3, w4 := When(c3, KeyVaultRequired), When(c4, AppInsightsRequired);
    var m1, m2, m3, m4 := [OrganizationRequired], [OpenAiEndpointRequired], [KeyVaultRequired], [AppInsightsRequired];
    SubseqOfWhen(c1, OrganizationRequired);
    SubseqOfWhen(c2, OpenAiEndpointRequired);
    SubseqOfWhen(c3, KeyVaultRequired);
    SubseqOfWhen(c4, AppInsightsRequired);
    SubseqConcat(w1, m1, w2, m2);
    SubseqConcat(w1 + w2, m1 + m2, w3, m3);
    SubseqConcat(w1 + w2 + w3, m1 + m2 + m3, w4, m4);
    assert m1 + m2 + m3 + m4 == ConfigurationMessages;
  }

  /** As written, no production configuration passes validation. */
  lemma ProductionConfigurationAlwaysRejected(config: Config)
    requires config.environment == Production
    ensures KeyVaultRequired in ConfigurationErrors(config)
    ensures ConfigurationErrors(config) != []
  {
  }

  /** The evidently intended `validateConfiguration`: the Key Vault error only when no
      Key Vault name is configured. */
  function IntendedConfigurationErrors(config: Config, keyVaultName: string): seq<string> {
    var production := config.environment == Production;
    When(config.azureDevOps.organization == "", OrganizationRequired)
    + When(config.ai.openAiEndpoint == "", OpenAiEndpointRequired)
    + When(production && keyVaultName == "", KeyVaultRequired)
    + When(production && config.monitoring.applicationInsightsKey == "", AppInsightsRequired)
  }

  /** The intended validation emits each message exactly when its condition holds. */
  lemma IntendedConfigurationErrorsExact(config: Config, keyVaultName: string)
    ensures var errors := IntendedConfigurationErrors(config, keyVaultName);
      && (OrganizationRequired in errors <==> config.azureDevOps.organization == "")
      && (OpenAiEndpointRequired in errors <==> config.ai.openAiEndpoint == "")
      && (KeyVaultRequired in errors <==> config.environment == Production && keyVaultName == "")
      && (AppInsightsRequired in errors <==>
            config.environment == Production && config.monitoring.applicationInsightsKey == "")
  {
  }

  /** The intended validation keeps the check order. */
  lemma IntendedConfigurationErrorsOrdered(config: Config, keyVaultName: string)
    ensures Subseq(IntendedConfigurationErrors(config, keyVaultName), ConfigurationMessages)
  {
    var production := config.environment == Production;
    FourChecksOrdered(config.azureDevOps.organization == "", config.ai.openAiEndpoint == "",
                      production && keyVaultName == "",
                      production && config.monitoring.applicationInsightsKey == "");
  }

  /** Under the intended rule a configuration passes exactly when it names an organization
      and an OpenAI endpoint and, in production, a Key Vault and an Application Insights key. */
  lemma IntendedConfigurationAccepts(config: Config, keyVaultName: string)
    ensures IntendedConfigurationErrors(config, keyVaultName) == [] <==>
      && config.azureDevOps.organization != "" && config.ai.openAiEndpoint != ""
      && (config.environment == Production ==>
            keyVaultName != "" && config.monitoring.applicationInsightsKey != "")
  {
  }

  /** A loaded configuration never lacks an organization, whatever the environment. */
  lemma LoadedConfigHasOrganization(environment: string, env: Env, vault: KeyVault)
    ensures OrganizationRequired !in ConfigurationErrors(LoadedConfig(environment, env, vault))
  {
  }

  /** `loadEnvironmentConfig` as written: the configuration for the resolved environment
      (through the cache), or an error listing every message of `validateConfiguration`.
      Because of the Key Vault check, every production load fails. */
  method LoadEnvironmentConfigAsWritten(service: ConfigurationService, env: Env, vault: KeyVault)
    returns (r: Result<Config, string>)
    requires service.Valid()
    modifies service
    ensures service.Valid()
    ensures var key := ResolveEnvironment(None, env);
      && service.cache == (if key in old(service.cache) then old(service.cache)
                           else old(service.cache)[key := LoadedConfig(key, env, vault)])
      && service.secretManager == (if key in old(service.cache) then old(service.secretManager)
                                   else Some(NewSecretManager(key, env)))
      && var errors := ConfigurationErrors(service.cache[key]);
      && (r.Ok? <==> errors == [])
      && (r.Ok? ==> r.value == service.cache[key])
      && (r.Err? ==> r.error == "Configuration validation failed: " + Join(errors, ", "))
    ensures ResolveEnvironment(None, env) == Production ==> r.Err?
  {
    var config := service.GetConfig(None, env, vault);
    var errors := ValidateConfiguration(config);
    if |errors| > 0 {
      r := Err("Configuration validation failed: " + Join(errors, ", "));
    } else {
      r := Ok(config);
    }
  }

  /** `loadEnvironmentConfig` with the intended validation: the Key Vault check passes
      when `KEY_VAULT_NAME` is set. */
  method LoadEnvironmentConfig(service: ConfigurationService, env: Env, vault: KeyVault)
    returns (r: Result<Config, string>)
    requires service.Valid()
    modifies service
    ensures service.Valid()
    ensures var key := ResolveEnvironment(None, env);
      && service.cache == (if key in old(service.cache) then old(service.cache)
                           else old(service.cache)[key := LoadedConfig(key, env, vault)])
      && service.secretManager == (if key in old(service.cache) then old(service.secretManager)
                                   else Some(NewSecretManager(key, env)))
      && var errors := IntendedConfigurationErrors(service.cache[key], Get(env, "KEY_VAULT_NAME"));
      && (r.Ok? <==> errors == [])
      && (r.Ok? ==> r.value == service.cache[key])
      && (r.Err? ==> r.error == "Configuration validation failed: " + Join(errors, ", "))
  {
    var config := service.GetConfig(None, env, vault);
    var errors := IntendedConfigurationErrors(config, Get(env, "KEY_VAULT_NAME"));
    if |errors| > 0 {
      r := Err("Configuration validation failed: " + Join(errors, ", "));
    } else {
      r := Ok(config);
    }
  }
}
