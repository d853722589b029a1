/** Secret-handling helpers: recognising sensitive variable names, masking their
    values, sanitising an environment for display, and the environment-variable and
    Azure configuration validators. */
module SecretHelpers {
  import opened Text
  import opened ProcessEnv
  import Environment

  // ---------------------------------------------------------------------------
  // Sensitive keys and masking
  // ---------------------------------------------------------------------------

  const SensitiveKeys: seq<string> := [
    "AZURE_DEVOPS_PAT_TOKEN",
    "OPENAI_API_KEY",
    "FORM_RECOGNIZER_KEY",
    "STORAGE_CONNECTION_STRING",
    "BOT_APP_PASSWORD",
    "APPLICATIONINSIGHTS_KEY"
  ]

  /** `isSensitiveKey`: the upper-cased key is one of the listed names. */
  predicate IsSensitiveKey(key: string) {
    ToUpper(key) in SensitiveKeys
  }

  /** `a` and `b` agree character by character once both are upper-cased. */
  predicate EqualsIgnoringCase(a: string, b: string) {
    |a| == |b| && forall i :: 0 <= i < |a| ==> UpperChar(a[i]) == UpperChar(b[i])
  }

  predicate HasNoLowerAscii(s: string) {
    forall i :: 0 <= i < |s| ==> !IsLowerAscii(s[i])
  }

  lemma SensitiveKeysAreUpperCase()
    ensures forall s :: s in SensitiveKeys ==> HasNoLowerAscii(s)
  {
  }

  /** The sensitivity test is case-insensitive: a key is sensitive exactly when it
      equals one of the listed names up to ASCII case. Dashes are not rewritten. */
  lemma IsSensitiveKeyIgnoresCase(key: string)
    ensures IsSensitiveKey(key) <==> exists s :: s in SensitiveKeys && EqualsIgnoringCase(key, s)
  {
    SensitiveKeysAreUpperCase();
    if IsSensitiveKey(key) {
      var s := ToUpper(key);
      assert forall i :: 0 <= i < |s| ==> UpperChar(s[i]) == s[i];
      assert EqualsIgnoringCase(key, s);
    }
    if s :| s in SensitiveKeys && EqualsIgnoringCase(key, s) {
      assert forall i :: 0 <= i < |s| ==> UpperChar(s[i]) == s[i];
      assert ToUpper(key) == s;
    }
  }

  /** `maskSensitiveValue`: the same length; a value longer than 4 keeps its first
      4 characters, and every other position becomes `*`. */
  function MaskSensitiveValue(value: string): (masked: string)
    ensures |masked| == |value|
    ensures forall i :: 0 <= i < |value| ==>
      masked[i] == (if |value| > 4 && i < 4 then value[i] else '*')
  {
    if value == "" then ""
    else if |value| <= 4 then Stars(|value|)
    else value[..4] + Stars(|value| - 4)
  }

  /** Masking a masked value changes nothing. */
  lemma MaskIsIdempotent(value: string)
    ensures MaskSensitiveValue(MaskSensitiveValue(value)) == MaskSensitiveValue(value)
  {
  }

  /** The mask reveals nothing beyond the length and the first 4 characters of a value
      longer than 4: two values agreeing on those mask the same. */
  lemma MaskRevealsOnlyPrefix(v: string, w: string)
    requires |v| == |w|
    requires |v| > 4 ==> v[..4] == w[..4]
    ensures MaskSensitiveValue(v) == MaskSensitiveValue(w)
  {
  }

  // ---------------------------------------------------------------------------
  // Sanitising the environment
  // ---------------------------------------------------------------------------

  /** The displayed value of one variable: masked when its name is sensitive. */
  function SanitizedValue(key: string, value: string): string {
    if IsSensitiveKey(key) then MaskSensitiveValue(value) else value
  }

  /** `sanitized` has exactly the keys of `env`; sensitive values are masked and all
      others are copied unchanged. */
  ghost predicate IsSanitizationOf(sanitized: Env, env: Env) {
    && sanitized.Keys == env.Keys
    && forall key :: key in env ==> sanitized[key] == SanitizedValue(key, env[key])
  }

  /** `sanitizeEnvironmentVariables`, filling the result one key at a time. */
  method SanitizeEnvironmentVariables(env: Env) returns (sanitized: Env)
    ensures IsSanitizationOf(sanitized, env)
  {
    sanitized := map[];
    var pending := env.Keys;
    while pending != {}
      invariant pending <= env.Keys
      invariant sanitized.Keys == env.Keys - pending
      invariant forall key :: key in sanitized ==> sanitized[key] == SanitizedValue(key, env[key])
      decreases pending
    {
      var key :| key in pending;
      sanitized := sanitized[key := SanitizedValue(key, env[key])];
      pending := pending - {key};
    }
  }

  /** Sanitising an already sanitised environment gives it back unchanged. */
  lemma SanitizationIsIdempotent(env: Env, once: Env, twice: Env)
    requires IsSanitizationOf(once, env)
    requires IsSanitizationOf(twice, once)
    ensures twice == once
  {
  }

  /** In a sanitised environment no sensitive value shows a character past the 4th,
      and one of at most 4 characters shows none. */
  lemma SanitizationHidesSecrets(env: Env, sanitized: Env, key: string, i: nat)
    requires IsSanitizationOf(sanitized, env)
    requires key in env && IsSensitiveKey(key)
    requires i < |env[key]| && (i >= 4 || |env[key]| <= 4)
    ensures i < |sanitized[key]| && sanitized[key][i] == '*'
  {
  }

  // ---------------------------------------------------------------------------
  // Validating environment variables
  // ---------------------------------------------------------------------------

  const KeyVaultWarning := "KEY_VAULT_NAME is recommended for production"
  const AppInsightsWarning := "APPLICATIONINSIGHTS_KEY is recommended for production"

  /** The required variables that are unset or empty, in the order given. */
  function MissingVariables(requiredVars: seq<string>, env: Env): seq<string> {
    if requiredVars == [] then []
    else When(!IsSet(env, requiredVars[0]), requiredVars[0]) + MissingVariables(requiredVars[1..], env)
  }

  /** Checking a concatenation reports the missing variables of each part, in order. */
  lemma {:induction false} MissingVariablesAppend(a: seq<string>, b: seq<string>, env: Env)
    ensures MissingVariables(a + b, env) == MissingVariables(a, env) + MissingVariables(b, env)
  {
    if a == [] {
      assert a + b == b;
    } else {
      assert (a + b)[0] == a[0] && (a + b)[1..] == a[1..] + b;
      MissingVariablesAppend(a[1..], b, env);
    }
  }

  /** A name is reported exactly when it is required and unset or empty, and the report
      keeps the order of the required list. */
  lemma {:induction false} MissingVariablesExact(requiredVars: seq<string>, env: Env)
    ensures forall x :: x in MissingVariables(requiredVars, env) <==> x in requiredVars && !IsSet(env, x)
    ensures Subseq(MissingVariables(requiredVars, env), requiredVars)
  {
    if requiredVars != [] {
      MissingVariablesExact(requiredVars[1..], env);
      assert requiredVars == [requiredVars[0]] + requiredVars[1..];
      SubseqWhen(!IsSet(env, requiredVars[0]), requiredVars[0],
                 MissingVariables(requiredVars[1..], env), requiredVars[1..]);
    }
  }

  /** The warnings `validateEnvironmentVariables` appends: only when `NODE_ENV` is
      `production`, first for a missing Key Vault name, then for a missing Application
      Insights key. */
  function ProductionWarnings(env: Env): (warnings: seq<string>)
    ensures !IsProduction(env) ==> warnings == []
    ensures IsProduction(env) ==>
      && (KeyVaultWarning in warnings <==> !IsSet(env, "KEY_VAULT_NAME"))
      && (AppInsightsWarning in warnings <==> !IsSet(env, "APPLICATIONINSIGHTS_KEY"))
      && Subseq(warnings, [KeyVaultWarning, AppInsightsWarning])
  {
    if IsProduction(env) then
      SubseqWhen(!IsSet(env, "APPLICATIONINSIGHTS_KEY"), AppInsightsWarning, [], []);
      assert When(!IsSet(env, "APPLICATIONINSIGHTS_KEY"), AppInsightsWarning) + []
          == When(!IsSet(env, "APPLICATIONINSIGHTS_KEY"), AppInsightsWarning);
      SubseqWhen(!IsSet(env, "KEY_VAULT_NAME"), KeyVaultWarning,
                 When(!IsSet(env, "APPLICATIONINSIGHTS_KEY"), AppInsightsWarning), [AppInsightsWarning]);
      When(!IsSet(env, "KEY_VAULT_NAME"), KeyVaultWarning)
      + When(!IsSet(env, "APPLICATIONINSIGHTS_KEY"), AppInsightsWarning)
    else
      []
  }

  /** `validateEnvironmentVariables`: the missing required names in input order,
      followed by the production warnings. */
  method ValidateEnvironmentVariables(requiredVars: seq<string>, env: Env) returns (messages: seq<string>)
    ensures messages == MissingVariables(requiredVars, env) + ProductionWarnings(env)
  {
    var missing: seq<string> := [];
    var warnings: seq<string> := [];
    var i := 0;
    while i < |requiredVars|
      invariant 0 <= i <= |requiredVars|
      invariant missing == MissingVariables(requiredVars[..i], env)
    {
      var name := requiredVars[i];
      if !IsSet(env, name) {
        missing := missing + [name];
      }
      MissingVariablesAppend(requiredVars[..i], [name], env);
      assert requiredVars[..i + 1] == requiredVars[..i] + [name];
      i := i + 1;
    }
    assert requiredVars[..i] == requiredVars;
    if IsProduction(env) {
      if !IsSet(env, "KEY_VAULT_NAME") {
        warnings := warnings + [KeyVaultWarning];
      }
      if !IsSet(env, "APPLICATIONINSIGHTS_KEY") {
        warnings := warnings + [AppInsightsWarning];
      }
    }
    messages := missing + warnings;
  }

  // ---------------------------------------------------------------------------
  // Validating the Azure configuration
  // ---------------------------------------------------------------------------

  const PatTokenRequired := "Valid Azure DevOps PAT token is required in production"
  const StorageRequired := "Storage connection string is required"
  const OpenAiKeyRequired := "Valid OpenAI API key is required when AI processing is enabled"
  const TeamsAppIdRequired := "Teams app ID is required when Teams bot is enabled"
  const TeamsPasswordRequired := "Valid Teams app password is required in production"

  /** Every message `validateAzureConfiguration` can emit, in the order it checks them. */
  const AzureMessages := [
    Environment.OrganizationRequired, PatTokenRequired, StorageRequired,
    OpenAiKeyRequired, TeamsAppIdRequired, TeamsPasswordRequired
  ]

  /** No two of the messages are the same string. */
  lemma AzureMessagesDistinct()
    ensures forall i, j :: 0 <= i < j < |AzureMessages| ==> AzureMessages[i] != AzureMessages[j]
  {
    assert Environment.OrganizationRequired[0] != StorageRequired[0];
    assert TeamsAppIdRequired[|TeamsAppIdRequired| - 1] != TeamsPasswordRequired[|TeamsPasswordRequired| - 1];
  }

  /** A secret that is empty or still a mock value. */
  predicate IsPlaceholder(secret: string) {
    secret == "" || StartsWith(secret, "mock")
  }

  /** `validateAzureConfiguration`. Production is decided by `NODE_ENV`, not by the
      configuration's own environment name. */
  function AzureConfigurationErrors(config: Environment.Config, env: Env): seq<string> {
    var production := IsProduction(env);
    var teamsBot := config.features.enableTeamsBot;
    When(config.azureDevOps.organization == "", Environment.OrganizationRequired)
    + When(IsPlaceholder(config.azureDevOps.patToken) && production, PatTokenRequired)
    + When(config.storage.connectionString == "", StorageRequired)
    + When(config.features.enableAiProcessing && IsPlaceholder(config.ai.openAiKey), OpenAiKeyRequired)
    + When(teamsBot && config.teams.appId == "", TeamsAppIdRequired)
    + When(teamsBot && IsPlaceholder(config.teams.appPassword) && production, TeamsPasswordRequired)
  }

  /** `validateAzureConfiguration`, building its list by successive pushes. */
  method ValidateAzureConfiguration(config: Environment.Config, env: Env) returns (errors: seq<string>)
    ensures errors == AzureConfigurationErrors(config, env)
  {
    var production := IsProduction(env);
    var teamsBot := config.features.enableTeamsBot;
    // `reported` is the specification's list for the checks made so far
    ghost var reported := When(config.azureDevOps.organization == "", Environment.OrganizationRequired);
    errors := [];
    if config.azureDevOps.organization == "" {
      errors := errors + [Environment.OrganizationRequired];
    }
    assert errors == reported;
    AppendWhen(reported, IsPlaceholder(config.azureDevOps.patToken) && production, PatTokenRequired);
    reported := reported + When(IsPlaceholder(config.azureDevOps.patToken) && production, PatTokenRequired);
    if IsPlaceholder(config.azureDevOps.patToken) {
      if production {
        errors := errors + [PatTokenRequired];
      }
    }
    AppendWhen(reported, config.storage.connectionString == "", StorageRequired);
    reported := reported + When(config.storage.connectionString == "", StorageRequired);
    if config.storage.connectionString == "" {
      errors := errors + [StorageRequired];
    }
    AppendWhen(reported, config.features.enableAiProcessing && IsPlaceholder(config.ai.openAiKey), OpenAiKeyRequired);
    reported := reported + When(config.features.enableAiProcessing && IsPlaceholder(config.ai.openAiKey), OpenAiKeyRequired);
    if config.features.enableAiProcessing {
      if IsPlaceholder(config.ai.openAiKey) {
        errors := errors + [OpenAiKeyRequired];
      }
    }
    AppendWhen(reported, teamsBot && config.teams.appId == "", TeamsAppIdRequired);
    reported := reported + When(teamsBot && config.teams.appId == "", TeamsAppIdRequired);
    AppendWhen(reported, teamsBot && IsPlaceholder(config.teams.appPassword) && production, TeamsPasswordRequired);
    reported := reported + When(teamsBot && IsPlaceholder(config.teams.appPassword) && production, TeamsPasswordRequired);
    if teamsBot {
      if config.teams.appId == "" {
        errors := errors + [TeamsAppIdRequired];
      }
      if IsPlaceholder(config.teams.appPassword) {
        if production {
          errors := errors + [TeamsPasswordRequired];
        }
      }
    }
  }

  /** Each message appears exactly when its condition holds. */
  lemma AzureConfigurationErrorsExact(config: Environment.Config, env: Env)
    ensures var errors := AzureConfigurationErrors(config, env);
      var production := IsProduction(env);
      var teamsBot := config.features.enableTeamsBot;
      && (Environment.OrganizationRequired in errors <==> config.azureDevOps.organization == "")
      && (PatTokenRequired in errors <==> production && IsPlaceholder(config.azureDevOps.patToken))
      && (StorageRequired in errors <==> config.storage.connectionString == "")
      && (OpenAiKeyRequired in errors <==>
            config.features.enableAiProcessing && IsPlaceholder(config.ai.openAiKey))
      && (TeamsAppIdRequired in errors <==> teamsBot && config.teams.appId == "")
      && (TeamsPasswordRequired in errors <==>
            production && teamsBot && IsPlaceholder(config.teams.appPassword))
  {
    var production := IsProduction(env);
    var teamsBot := config.features.enableTeamsBot;
    var w1 := When(config.azureDevOps.organization == "", Environment.OrganizationRequired);
    var w2 := When(IsPlaceholder(config.azureDevOps.patToken) && production, PatTokenRequired);
    var w3 := When(config.storage.connectionString == "", StorageRequired);
    var w4 := When(config.features.enableAiProcessing && IsPlaceholder(config.ai.openAiKey), OpenAiKeyRequired);
    var w5 := When(teamsBot && config.teams.appId == "", TeamsAppIdRequired);
    var w6 := When(teamsBot && IsPlaceholder(config.teams.appPassword) && production, TeamsPasswordRequired);
    assert AzureConfigurationErrors(config, env) == w1 + w2 + w3 + w4 + w5 + w6;
    AzureMessagesDistinct();
  }

  /** The messages keep the order organization, PAT token, storage, OpenAI key, Teams
      app ID, Teams password. */
  lemma AzureConfigurationErrorsOrdered(config: Environment.Config, env: Env)
    ensures Subseq(AzureConfigurationErrors(config, env), AzureMessages)
  {
    var production := IsProduction(env);
    var teamsBot := config.features.enableTeamsBot;
    var c1 := config.azureDevOps.organization == "";
    var c2 := IsPlaceholder(config.azureDevOps.patToken) && production;
    var c3 := config.storage.connectionString == "";
    var c4 := config.features.enableAiProcessing && IsPlaceholder(config.ai.openAiKey);
    var c5 := teamsBot && config.teams.appId == "";
    var c6 := teamsBot && IsPlaceholder(config.teams.appPassword) && production;
    var w1 := When(c1, Environment.OrganizationRequired);
    var w2 := When(c2, PatTokenRequired);
    var w3 := When(c3, StorageRequired);
    var w4 := When(c4, OpenAiKeyRequired);
    var w5 := When(c5, TeamsAppIdRequired);
    var w6 := When(c6, TeamsPasswordRequired);
    var m1, m2, m3 := [Environment.OrganizationRequired], [PatTokenRequired], [StorageRequired];
    var m4, m5, m6 := [OpenAiKeyRequired], [TeamsAppIdRequired], [TeamsPasswordRequired];
    SubseqOfWhen(c1, Environment.OrganizationRequired);
    SubseqOfWhen(c2, PatTokenRequired);
    SubseqOfWhen(c3, StorageRequired);
    SubseqOfWhen(c4, OpenAiKeyRequired);
    SubseqOfWhen(c5, TeamsAppIdRequired);
    SubseqOfWhen(c6, TeamsPasswordRequired);
    SubseqConcat(w1, m1, w2, m2);
    SubseqConcat(w1 + w2, m1 + m2, w3, m3);
    SubseqConcat(w1 + w2 + w3, m1 + m2 + m3, w4, m4);
    SubseqConcat(w1 + w2 + w3 + w4, m1 + m2 + m3 + m4, w5, m5);
    SubseqConcat(w1 + w2 + w3 + w4 + w5, m1 + m2 + m3 + m4 + m5, w6, m6);
    assert m1 + m2 + m3 + m4 + m5 + m6 == AzureMessages;
    assert AzureConfigurationErrors(config, env) == w1 + w2 + w3 + w4 + w5 + w6;
  }

  /** Outside production (by `NODE_ENV`) a missing or mock PAT token or Teams password
      is never reported. */
  lemma AzureSecretsUncheckedOutsideProduction(config: Environment.Config, env: Env)
    requires !IsProduction(env)
    ensures PatTokenRequired !in AzureConfigurationErrors(config, env)
    ensures TeamsPasswordRequired !in AzureConfigurationErrors(config, env)
  {
  }

  /** A configuration loaded without an OpenAI key from Key Vault or the environment
      carries the mock key, which the Azure validator rejects in every environment. */
  lemma LoadedConfigWithMockOpenAiKeyIsRejected(environment: string, env: Env, vault: Environment.KeyVault)
    requires environment != Production || !IsSet(env, "KEY_VAULT_NAME")
    requires !IsSet(env, "OPENAI_API_KEY")
    ensures OpenAiKeyRequired in AzureConfigurationErrors(Environment.LoadedConfig(environment, env, vault), env)
  {
    var c := Environment.LoadedConfig(environment, env, vault);
    Environment.SecretNamesAreCanonical();
    assert c.ai.openAiKey == "mock-openai-key";
    assert StartsWith(c.ai.openAiKey, "mock");
    AzureConfigurationErrorsExact(c, env);
  }

  /** Outside production a loaded configuration always has a storage connection string:
      the environment's, or the development-storage mock. */
  lemma LoadedConfigHasStorageOutsideProduction(environment: string, env: Env, vault: Environment.KeyVault)
    requires environment != Production
    ensures StorageRequired !in AzureConfigurationErrors(Environment.LoadedConfig(environment, env, vault), env)
  {
  }
}
