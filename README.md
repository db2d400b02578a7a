# Azure cloud resolution and credential selection

A Dafny model of the two decision procedures in terratest's Azure module.

- **Cloud resolution** (`getClientCloudConfig` in `modules/azure/cloud_config.go`).
  It upper-cases the cloud-environment name and dispatches on it:
  - `AZURECHINACLOUD`, `AZUREUSGOVERNMENTCLOUD` and `AZUREPUBLICCLOUD` select the SDK's static tables.
  - `AZURESTACKCLOUD` builds a configuration from a named-environment lookup.
  - Anything else is an error that quotes the name as given.

  Two projections sit on top of it:
  - `getArmClientOptions` returns ARM client options carrying the resolved configuration.
  - `getArmEndpoint` returns the resolved configuration's Resource Manager endpoint.
- **Credential selection** (`modules/azure/authorizer.go`).
  - `NewAuthorizer` picks one of three strategies from whether `AZURE_CLIENT_ID`, `AZURE_TENANT_ID` and `AZURE_AUTH_LOCATION` are set:
    environment first, then auth file, then the Azure CLI.
  - `NewAzureCredential` resolves the cloud first. It then hands the resolved configuration to the SDK's default-credential constructor.

Everything is pure, as in the source. The model takes these as explicit inputs:
- the process environment, as a snapshot map from variable name to value;
- the configured environment name, as an `Option<string>`;
- the SDK calls: the named-environment registry lookup and the credential constructors, passed as functions.

Files:
- `wrappers.dfy`: `Option` and `Result`.
- `cloud_config.dfy`: module `CloudConfig`.
- `authorizer.dfy`: module `Authorizer`.

## Model

| member | source | states |
|---|---|---|
| CloudConfig.Upper | modules/azure/cloud_config.go:15 | the upper-cased name has the same length as the name, and each rune is that rune's upper case |
| CloudConfig.CasingsFoldAlike | modules/azure/cloud_config.go:15 | two spellings of a word that differ only in ASCII letter case have the same upper-cased key |
| CloudConfig.EnvironmentName | modules/azure/cloud_config_test.go:15-27 | a set, non-empty name is used as it is; an unset or empty one means `AzurePublicCloud` |
| CloudConfig.StackConfiguration | modules/azure/cloud_config.go:27-35 | the Stack configuration has the record's AD endpoint as authority host, and exactly one service, Resource Manager, with the record's token audience and Resource Manager endpoint |
| CloudConfig.ClientCloudConfig | modules/azure/cloud_config.go:13-47 | every successful resolution has a Resource Manager entry; resolution never reports a missing entry itself; a no-match error carries the original name, whose upper case is none of the four recognised keys |
| CloudConfig.CanonicalNamesResolve | modules/azure/cloud_config_test.go:15-57 | unset and `AzurePublicCloud` give the public table; `AzureChinaCloud` gives the China table; `AzureUSGovernmentCloud` gives the Government table |
| CloudConfig.EmptyNameResolvesPublic | modules/azure/cloud_config.go:14-21 | a name that is set but empty gives the public table |
| CloudConfig.StaticKeysSelectTables | modules/azure/cloud_config.go:15-21 | any name whose upper case is a static key gives that key's table |
| CloudConfig.AnyCasingResolvesStatic | modules/azure/cloud_config.go:15-21 | every casing of a static cloud's canonical name resolves exactly as the canonical name does |
| CloudConfig.DotlessISelectsChina | modules/azure/cloud_config.go:15-17 | a spelling with a dotless i also selects the China table, because Go's case mapping folds it to `I` |
| CloudConfig.UnrecognisedNameRejected | modules/azure/cloud_config.go:37-45 | the result is the no-match error for a set name exactly when the name is non-empty and its upper case is none of the four recognised keys |
| CloudConfig.NoMatchMessageQuotesName | modules/azure/cloud_config.go:38-45 | the no-match message contains "no cloud environment matching the name" and the name as given |
| CloudConfig.InvalidCloudRejected | modules/azure/cloud_config_test.go:59-67 | `InvalidCloud` is rejected with a message containing "no cloud environment matching the name" |
| CloudConfig.StackLookupFailurePropagates | modules/azure/cloud_config.go:22-26 | for a Stack name whose lookup fails, the lookup's error comes back with its text unchanged and no configuration; the lookup gets the name as given |
| CloudConfig.StackLookupSuccessShape | modules/azure/cloud_config.go:27-36 | for a Stack name whose lookup succeeds, the configuration has the record's authority host and exactly one service, Resource Manager, with the record's audience and endpoint |
| CloudConfig.GetArmClientOptions | modules/azure/cloud_config.go:51-61 | fails exactly when resolution fails, with the same error; on success the embedded cloud equals the resolved configuration |
| CloudConfig.PublicArmClientOptions | modules/azure/cloud_config_test.go:69-78 | under `AzurePublicCloud` the options carry the public table |
| CloudConfig.GetArmEndpoint | modules/azure/cloud_config.go:64-74 | fails exactly when resolution fails, with the same error, so its missing-entry branch never fires; on success returns the Resource Manager entry's endpoint |
| CloudConfig.StaticArmEndpoints | modules/azure/cloud_config_test.go:80-108 | the endpoints are exactly `https://management.azure.com` (public, also when unset), `https://management.chinacloudapi.cn` and `https://management.usgovcloudapi.net` |
| CloudConfig.StackArmEndpoint | modules/azure/cloud_config.go:69-73 | for a successful Stack lookup the endpoint is the record's Resource Manager endpoint; the missing-entry error is unreachable |
| Authorizer.NewAuthorizer | modules/azure/authorizer.go:27-44 | with client and tenant id set, the environment strategy's outcome; else, with an auth file named, the file strategy's outcome for the public Resource Manager endpoint; else the CLI strategy's outcome |
| Authorizer.SelectionIsTotalAndExclusive | modules/azure/authorizer.go:33-43 | environment is chosen exactly when both ids are set; file exactly when the pair is incomplete and the auth location is set; CLI exactly when neither holds |
| Authorizer.PairTakesPriority | modules/azure/authorizer.go:34-36 | with both ids set, the environment strategy is chosen whether the auth location is set or not |
| Authorizer.HalfPairIsNotEnough | modules/azure/authorizer.go:34 | with only one of the two ids set, the environment strategy is not chosen |
| Authorizer.SelectionDependsOnPresenceOnly | modules/azure/authorizer.go:29-31 | two environments that set the same of the three variables, with any values (empty included), select the same strategy |
| Authorizer.FileStrategyIsPublicCloud | modules/azure/authorizer.go:37-39 | the file strategy is always scoped to the public cloud's Resource Manager endpoint |
| Authorizer.SelectionFollowsPriorityOrder | modules/azure/authorizer.go:33-43 | the chosen strategy is that of the first applicable rule in the order environment, file, CLI; the last rule always applies, so selection is total |
| Authorizer.NewAzureCredential | modules/azure/authorizer.go:47-58 | a resolution failure is returned unchanged; otherwise the constructor receives the resolved configuration unchanged, and its outcome is returned |
| Authorizer.FailedResolutionBuildsNothing | modules/azure/authorizer.go:48-51 | when resolution fails, the outcome is an error and does not depend on the credential constructor |
| Authorizer.PublicCredentialOptions | modules/azure/authorizer.go:53-57 | under the public cloud, named or by default, the credential is built exactly when the constructor accepts the public table |

## Left out

- The SDK calls themselves are left out: `auth.NewAuthorizerFromEnvironment`, `NewAuthorizerFromFile`, `NewAuthorizerFromCLI` and `azidentity.NewDefaultAzureCredential`. They do network, file and CLI I/O. They are function parameters, and their outcomes are opaque.
- `autorestAzure.EnvironmentFromName` is a function parameter. Its registry, and any case folding it does itself, are not modelled. Its `Environment` record is cut down to the three fields the code reads.
- Reading the process environment is left out. Inputs are a snapshot, so re-reading on every call is not modelled.
- `getDefaultEnvironmentName` and the name of its environment variable are not part of this model. The model takes its result as given: an unset or empty name means `AzurePublicCloud`, and any other value is used as it is. Only the unset case is pinned by a test (`modules/azure/cloud_config_test.go:15-27`).
- `NewAzureCredential` does no strategy selection of its own. It hands the resolved cloud to the SDK's default-credential chain, which picks its own credential source. That chain is not modelled.
- The static tables hold the SDK's authority hosts and Resource Manager audiences. No lemma depends on these. Only the Resource Manager endpoints are pinned by the tests, and only those are proved.
- Go's pointer results and the nil-versus-zero-value returns alongside errors are left out. A `Result` holds either a value or an error.
- Unicode case mapping: `UpperChar` upper-cases only the runes whose upper case is an ASCII letter. Every other rune keeps its own value, though Go would map some to other non-ASCII runes. Recognised names are ASCII, so the dispatch is the same either way. Invalid UTF-8 is not modelled, because names are sequences of runes.
- Error values are modelled as a datatype with a message function. A lookup or constructor error is modelled as its text, wrapped as `Foreign`. Go's wrapped error identity is not modelled.
