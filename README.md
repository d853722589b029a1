# Configuration layer of the SDR Management System API, in Dafny

This project models the configuration layer of the SDR Management System's API
(`apps/api/src/config`):

- **Secret manager.** It looks a secret up in Azure Key Vault, then in the process
  environment under a normalised name, then in a table of mock values. Key Vault is
  consulted only in production, and only when a vault name is configured.
- **Configuration service.** It caches one configuration per environment name.
- **Feature flags and log level.** Both follow from the environment name.
- **Validators.** Three of them each build an ordered list of error or warning messages.
- **Masking.** Helpers hide sensitive environment values before they are displayed.

Two things are inputs rather than parts of the model:

- The process environment is a `map<string, string>`. A JavaScript lookup
  `process.env[name]` is `undefined` for a missing key. A value is "set" when it is
  present and not the empty string (`ProcessEnv.IsSet`).
- Key Vault is a function from secret name to an outcome: `Value(v)`, `Absent` (the
  secret has no value) or `Failure` (the SDK call threw).

Files:

- `wrappers.dfy`: `Option` and `Result`.
- `text.dfy`: ASCII upper-casing, the dash rewrite, prefixes, runs of `*`, joining,
  and the subsequence order (`Subseq`) used to state message order.
- `process_env.dfy`: lookups in the environment map.
- `environment.dfy`: the model of `environment.ts`.
- `secret_helpers.dfy`: the model of `secret-helpers.ts`.

Pure code becomes functions and lemmas. `ConfigurationService` updates its static
cache and secret manager in place, so it is a class with those two fields. Its methods
state the new state in terms of the old one. Each validator is a method that builds its
list by successive appends. The method is proved equal to a specification function,
and lemmas state what that function means: each message appears exactly when its
condition holds, and the list is a subsequence of the validator's full message list in
check order. `sanitizeEnvironmentVariables` is a loop over the environment's keys.

## Model

| member | source | states |
|---|---|---|
| `Environment.NewSecretManager` | apps/api/src/config/environment.ts:62-71 | A Key Vault client exists exactly when the environment is `production` and `KEY_VAULT_NAME` is set and non-empty. Its URL is `https://<name>.vault.azure.net`. The recorded vault name is the raw variable, if present. |
| `Environment.EnvVarNameIsCanonical` | apps/api/src/config/environment.ts:86 | The normalised variable name has no lower-case ASCII letter and no `-`, and normalising it again changes nothing. |
| `Environment.MockValue` | apps/api/src/config/environment.ts:95-105 | Each of the five listed names gets its fixed mock. Any other name gets `mock-<name>`. The result is never empty. |
| `Environment.GetSecret` | apps/api/src/config/environment.ts:73-93 | With a client, a vault value is returned as is and an absent value reads as `''`. Only a vault failure, or having no client, moves on. Next comes the normalised environment variable when it is non-empty, and otherwise the mock for the name as given. |
| `Environment.GetSecretWithoutClient` | apps/api/src/config/environment.ts:73-93 | Without a client the vault is never consulted: any two vaults give the same secret. The secret is never empty. |
| `Environment.GetSecretVaultAnswerIsFinal` | apps/api/src/config/environment.ts:76-78 | Once the vault answers (a value or an absent value), the environment cannot change the result. |
| `Environment.NonCanonicalNameNeverGetsTableMock` | apps/api/src/config/environment.ts:95-104 | A name that normalisation changes is not a key of the mock table, so its mock is `mock-<name>`. |
| `Environment.DashedSecretName` | apps/api/src/config/environment.ts:86-104 | `openai-api-key` reads the variable `OPENAI_API_KEY`. With that variable unset, its mock is `mock-openai-api-key`: the mock lookup does not normalise. |
| `Environment.FeatureFlagsFor` | apps/api/src/config/environment.ts:182-200 | AI processing is always on. The Teams bot and analytics are on exactly in production. The upload limit is 26214400 bytes in production and 10485760 otherwise. The approval threshold is 40 hours in production and 8 otherwise. |
| `Environment.LogLevelFor` | apps/api/src/config/environment.ts:173 | The log level is `Information` exactly in production and `Debug` exactly otherwise. |
| `Environment.LoadedConfigShape` | apps/api/src/config/environment.ts:133-180 | A loaded configuration has the requested environment name, the log level and flags for it, and telemetry on. Its organization and region are never empty, thanks to the defaults `your-org` and `uksouth`. |
| `Environment.LoadedConfigIgnoresVaultOutsideProduction` | apps/api/src/config/environment.ts:133-180 | Outside production the loaded configuration is the same whatever the vault holds. |
| `Environment.LoadedConfigUsesMocks` | apps/api/src/config/environment.ts:150-169 | Suppose there is no vault client and none of the five secret variables is set. Then the PAT token, OpenAI key, Form Recognizer key, storage connection string and bot password are exactly the mock table's values. |
| `Environment.SecretNamesAreCanonical` | apps/api/src/config/environment.ts:150-169 | The five secret names that `loadConfig` requests are their own environment variable names. |
| `Environment.ResolveEnvironment` | apps/api/src/config/environment.ts:123 | The cache key is the argument if it is given and non-empty. Otherwise it is `NODE_ENV` if that is non-empty, and otherwise `development`. The key is never empty. |
| `Environment.ConfigurationService.constructor` | apps/api/src/config/environment.ts:119-120 | The cache starts empty and there is no secret manager. |
| `Environment.ConfigurationService.LoadConfig` | apps/api/src/config/environment.ts:133-180 | It replaces the stored secret manager with one built for the environment, and returns the configuration built through it. The cache is untouched. |
| `Environment.ConfigurationService.GetConfig` | apps/api/src/config/environment.ts:122-131 | A cached key returns that entry and changes nothing, not even the secret manager. A missing key is loaded and stored under its key. No other key's entry changes. Every entry's environment equals its key (`Valid`). |
| `Environment.RepeatedGetConfigIsCached` | apps/api/src/config/environment.ts:122-131 | Two requests for the same environment return the same configuration, even if the environment variables and the vault changed in between. |
| `Environment.ValidateConfiguration` | apps/api/src/config/environment.ts:217-241 | Successive appends produce exactly the list for `validateConfiguration` as written. |
| `Environment.ConfigurationErrorsExact` | apps/api/src/config/environment.ts:217-241 | Organization missing and endpoint missing are each reported exactly when the field is empty. The Key Vault error appears exactly in production. The App Insights error appears exactly in production with an empty key. |
| `Environment.ConfigurationErrorsOrdered` | apps/api/src/config/environment.ts:217-241 | The list is a subsequence of organization, endpoint, Key Vault, App Insights: messages appear in check order. |
| `Environment.FourChecksOrdered` | apps/api/src/config/environment.ts:220-238 | Whichever of the four checks fail, their messages come out in check order. |
| `Environment.ProductionConfigurationAlwaysRejected` | apps/api/src/config/environment.ts:229-233 | As written, every production configuration gets the Key Vault error, so its list is never empty. |
| `Environment.IntendedConfigurationErrorsExact` | apps/api/src/config/environment.ts:229-238 | With the corrected rule, the Key Vault error appears exactly in production with an empty Key Vault name. The other messages are as written. |
| `Environment.IntendedConfigurationErrorsOrdered` | apps/api/src/config/environment.ts:217-241 | The corrected list keeps the check order. |
| `Environment.IntendedConfigurationAccepts` | apps/api/src/config/environment.ts:217-241 | With the corrected rule, a configuration passes exactly when its organization and endpoint are set and, in production, the Key Vault name and App Insights key are also set. |
| `Environment.LoadedConfigHasOrganization` | apps/api/src/config/environment.ts:221-223 | A loaded configuration never gets the organization error. |
| `Environment.LoadEnvironmentConfigAsWritten` | apps/api/src/config/environment.ts:244-253 | It takes the configuration through the cache, using `NODE_ENV` or `development`, and leaves the cache and secret manager as `getConfig` does. It succeeds exactly when `validateConfiguration`'s list, as written, is empty. On failure the message is `Configuration validation failed: ` followed by the errors joined with `, `. When the resolved environment is `production` it always fails. |
| `Environment.LoadEnvironmentConfig` | apps/api/src/config/environment.ts:244-253 | The same load through the cache, with the same new cache and secret manager. It succeeds exactly when the corrected validation list is empty, with the same failure message. |
| `SecretHelpers.SensitiveKeysAreUpperCase` | apps/api/src/config/secret-helpers.ts:8-15 | The six sensitive names contain no lower-case letter. |
| `SecretHelpers.IsSensitiveKeyIgnoresCase` | apps/api/src/config/secret-helpers.ts:17-19 | A key is sensitive exactly when it equals one of the six names up to ASCII case. |
| `SecretHelpers.MaskSensitiveValue` | apps/api/src/config/secret-helpers.ts:21-25 | Length is preserved. In a value longer than 4, positions 0 to 3 are kept. Every other position is `*`, so `''` gives `''` and a value of at most 4 characters becomes all stars. |
| `SecretHelpers.MaskIsIdempotent` | apps/api/src/config/secret-helpers.ts:21-25 | Masking twice equals masking once. |
| `SecretHelpers.MaskRevealsOnlyPrefix` | apps/api/src/config/secret-helpers.ts:21-25 | Two values of the same length mask the same when they agree on the first 4 characters (for values above 4). So nothing past the 4th character is revealed. |
| `SecretHelpers.SanitizeEnvironmentVariables` | apps/api/src/config/secret-helpers.ts:27-40 | The result has exactly the environment's keys. Sensitive keys have masked values, and every other value is copied unchanged. |
| `SecretHelpers.SanitizationIsIdempotent` | apps/api/src/config/secret-helpers.ts:27-40 | Sanitising a sanitised environment gives it back unchanged. |
| `SecretHelpers.SanitizationHidesSecrets` | apps/api/src/config/secret-helpers.ts:27-40 | In a sanitised environment, a sensitive value shows `*` at every position from the 5th on. If the value has at most 4 characters, it shows `*` everywhere. |
| `SecretHelpers.MissingVariablesAppend` | apps/api/src/config/secret-helpers.ts:46-50 | The missing names of a concatenation are the missing names of each part, in order. |
| `SecretHelpers.MissingVariablesExact` | apps/api/src/config/secret-helpers.ts:46-50 | A name is reported exactly when it is required and unset or empty. The report keeps the required list's order. |
| `SecretHelpers.ProductionWarnings` | apps/api/src/config/secret-helpers.ts:52-60 | Outside `NODE_ENV=production` there are no warnings. In production, the Key Vault warning appears exactly when `KEY_VAULT_NAME` is unset or empty, and the App Insights warning exactly when `APPLICATIONINSIGHTS_KEY` is. They appear in that order. |
| `SecretHelpers.ValidateEnvironmentVariables` | apps/api/src/config/secret-helpers.ts:42-63 | The loop returns the missing required names, followed by the production warnings. |
| `SecretHelpers.ValidateAzureConfiguration` | apps/api/src/config/secret-helpers.ts:121-159 | Successive appends produce exactly the list for `validateAzureConfiguration`. |
| `SecretHelpers.AzureConfigurationErrorsExact` | apps/api/src/config/secret-helpers.ts:121-159 | The organization and storage errors are unconditional on the environment. The PAT and Teams password errors (empty or `mock`-prefixed) need `NODE_ENV=production`. The OpenAI key error needs AI processing on. The Teams errors need the Teams bot on. Each appears exactly when its condition holds. |
| `SecretHelpers.AzureConfigurationErrorsOrdered` | apps/api/src/config/secret-helpers.ts:121-159 | Errors appear in the order organization, PAT, storage, OpenAI, Teams app ID, Teams password. |
| `SecretHelpers.AzureSecretsUncheckedOutsideProduction` | apps/api/src/config/secret-helpers.ts:129-156 | Outside `NODE_ENV=production` the PAT and Teams password errors never appear. |
| `SecretHelpers.LoadedConfigWithMockOpenAiKeyIsRejected` | apps/api/src/config/secret-helpers.ts:141-145 | A configuration loaded with no vault client and no `OPENAI_API_KEY` carries the mock key. The Azure validator rejects it in every environment. |
| `SecretHelpers.LoadedConfigHasStorageOutsideProduction` | apps/api/src/config/secret-helpers.ts:136-138 | Outside production a loaded configuration never gets the storage error. Its connection string is the variable or the development-storage mock. |

## Left out

- The Azure SDK calls (`DefaultAzureCredential`, `SecretClient`) are replaced by the `KeyVault` outcome function. One secret name gets one outcome during a single load.
- `SecretManager.setSecret` is left out: one branch is a foreign call and the other only logs.
- `SecretRotationManager` is left out: it runs on `setInterval`/`clearInterval` timers against a remote store.
- `ConfigurationValidator.generateConfigurationReport` is left out: it needs a wall-clock timestamp, JSON serialisation and console output.
- `DevelopmentHelpers` is left out: it uses a dynamic `dotenv` import, and `generateDevEnvironmentFile` only returns a constant text.
- `ConfigurationService.isProduction`, `isDevelopment` and `getSecretManager` are one-line accessors. `ProcessEnv.IsProduction` models the first; the other two return a field or compare a variable.
- All `console` logging, and `async`/`await`, are left out. Each call is modelled as completing before the next begins.
- Environment.ConfigurationService.GetConfig: does not model two concurrent calls. In the source, both can miss the cache before either stores its result, so both load. Here every call is atomic.
- Environment.ConfigurationService.GetConfig: the source returns the cached object itself, so a caller that changes the returned configuration changes what every later `getConfig` returns. Here `Config` is an immutable value, and that aliasing and mutation through it are not modelled.
- Environment.LoadEnvironmentConfig: validates with the corrected Key Vault rule (`Environment.IntendedConfigurationErrors`, with the vault name from `KEY_VAULT_NAME`), so it accepts production configurations the source rejects. `Environment.LoadEnvironmentConfigAsWritten` is the source's behaviour.
- SecretHelpers.MaskSensitiveValue: lengths and positions are counted in Unicode scalar values (Dafny `char`), not in the UTF-16 code units of JavaScript `length` and `substring`. The two differ for characters outside the Basic Multilingual Plane, for example `"\u{1F600}abc"`. The same holds for `SecretHelpers.SanitizeEnvironmentVariables`, which masks through it.
- `toUpperCase` is modelled over ASCII only. Unicode case mapping, which can change a string's length, is left out.
- Environment.MockValue: the source's mock table is a plain object, so names such as `toString` would find an inherited property. The model treats every name outside the five listed ones alike.
- SecretHelpers.ValidateAzureConfiguration: it takes a complete `Config`. The source accepts `any` and uses optional chaining, which treats a missing sub-object as an empty value. That case is not modelled.
- The frontend files (`msal.ts`, `msal-config.ts`, `App.tsx`, `main.tsx`) are MSAL and React wiring with no logic of their own. They are not part of this model.

## Findings

| source | as written | input that shows it | evidently intended | confidence | as-written member | corrected member |
|---|---|---|---|---|---|---|
| apps/api/src/config/environment.ts:229-233 | In production, the check reads `config.keyVaultName`, which `EnvironmentConfig` does not declare and `loadConfig` never sets. It is always undefined, so the Key Vault error is always pushed. A type checker would flag the property, but code transpiled without type checking behaves this way. | Any production configuration, for example one loaded with `NODE_ENV=production`, `KEY_VAULT_NAME=kv` and every other variable set. `loadEnvironmentConfig` then always throws (`Environment.LoadEnvironmentConfigAsWritten`). | Report the Key Vault error only when no Key Vault name (`KEY_VAULT_NAME`) is configured. | high; not executed | `Environment.ProductionConfigurationAlwaysRejected` | `Environment.IntendedConfigurationErrorsExact` |

`Environment.ValidateConfiguration` and `Environment.ConfigurationErrors` keep the
behaviour as written, and so does `Environment.LoadEnvironmentConfigAsWritten`, whose
contract states that every production load fails. `Environment.LoadEnvironmentConfig` validates with the corrected
rule, `Environment.IntendedConfigurationErrors`, taking the vault name from
`KEY_VAULT_NAME`.
