/** Choice of the credential strategy from the process environment, and
    construction of a default credential scoped to the resolved cloud. The
    process environment is passed in as a snapshot (variable name to
    value); the SDK's credential constructors are passed in as functions. */
module Authorizer {
  import opened Wrappers
  import opened CloudConfig

  /** Environment variables the SDK reads for its credentials. */
  const AuthFromEnvClient := "AZURE_CLIENT_ID"
  const AuthFromEnvTenant := "AZURE_TENANT_ID"
  const AuthFromFile := "AZURE_AUTH_LOCATION"

  /** A snapshot of the process environment. */
  type ProcessEnvironment = map<string, string>

  /** The go-autorest public cloud's Resource Manager endpoint, the
      resource that file-based credentials are issued for. */
  const PublicCloudResourceManagerEndpoint := "https://management.azure.com/"

  /** How the legacy authorizer obtains its credentials. */
  datatype Strategy =
    | FromEnvironment             // client id, tenant id and secret in environment variables
    | FromFile(resource: string)  // an auth file, for the given resource
    | FromCli                     // the Azure CLI's logged-in account

  /** The strategy NewAuthorizer follows: the client/tenant pair first,
      then an auth file, then the CLI. Only whether each variable is set
      matters, not its value. */
  function SelectStrategy(env: ProcessEnvironment): Strategy
  {
    var clientIdExists := AuthFromEnvClient in env;
    var tenantIdExists := AuthFromEnvTenant in env;
    var fileAuthSet := AuthFromFile in env;
    if clientIdExists && tenantIdExists then FromEnvironment
    else if fileAuthSet then FromFile(PublicCloudResourceManagerEndpoint)
    else FromCli
  }

  /** NewAuthorizer: the outcome of the chosen strategy's constructor,
      passed on as it is. */
  function NewAuthorizer<A>(env: ProcessEnvironment, acquire: Strategy -> Result<A, string>): (r: Result<A, string>)
    ensures AuthFromEnvClient in env && AuthFromEnvTenant in env ==> r == acquire(FromEnvironment)
    ensures !(AuthFromEnvClient in env && AuthFromEnvTenant in env) && AuthFromFile in env ==>
      r == acquire(FromFile(PublicCloudResourceManagerEndpoint))
    ensures !(AuthFromEnvClient in env && AuthFromEnvTenant in env) && AuthFromFile !in env ==>
      r == acquire(FromCli)
  {
    acquire(SelectStrategy(env))
  }

  /** Each strategy is chosen exactly under its own condition, and the
      three conditions cover every environment without overlap. */
  lemma SelectionIsTotalAndExclusive(env: ProcessEnvironment)
    ensures var pair := AuthFromEnvClient in env && AuthFromEnvTenant in env;
      var file := AuthFromFile in env;
      && (SelectStrategy(env).FromEnvironment? <==> pair)
      && (SelectStrategy(env).FromFile? <==> !pair && file)
      && (SelectStrategy(env).FromCli? <==> !pair && !file)
  {
  }

  /** With both the client id and the tenant id set, the environment
      strategy wins whether or not an auth file is named. */
  lemma PairTakesPriority(env: ProcessEnvironment, location: string)
    requires AuthFromEnvClient in env && AuthFromEnvTenant in env
    ensures SelectStrategy(env) == FromEnvironment
    ensures SelectStrategy(env[AuthFromFile := location]) == FromEnvironment
    ensures SelectStrategy(env - {AuthFromFile}) == FromEnvironment
  {
  }

  /** Only one of the client id and the tenant id is not enough. */
  lemma HalfPairIsNotEnough(env: ProcessEnvironment)
    requires (AuthFromEnvClient in env) != (AuthFromEnvTenant in env)
    ensures SelectStrategy(env) != FromEnvironment
  {
  }

  /** Selection reads presence only: two environments that set the same
      of the three variables, with any values (the empty string counts as
      set), select the same strategy. */
  lemma SelectionDependsOnPresenceOnly(env: ProcessEnvironment, other: ProcessEnvironment)
    requires AuthFromEnvClient in env <==> AuthFromEnvClient in other
    requires AuthFromEnvTenant in env <==> AuthFromEnvTenant in other
    requires AuthFromFile in env <==> AuthFromFile in other
    ensures SelectStrategy(env) == SelectStrategy(other)
  {
  }

  /** The file strategy is always scoped to the public cloud's Resource
      Manager endpoint. */
  lemma FileStrategyIsPublicCloud(env: ProcessEnvironment)
    requires SelectStrategy(env).FromFile?
    ensures SelectStrategy(env).resource == PublicCloudResourceManagerEndpoint
  {
  }

  // ---------------------------------------------------------------------
  // The priority order as a table
  // ---------------------------------------------------------------------

  /** A selection rule: the strategy it gives when all its variables are set. */
  datatype Rule = Rule(required: seq<string>, strategy: Strategy)

  /** The documented order, highest priority first. */
  const PriorityOrder: seq<Rule> := [
    Rule([AuthFromEnvClient, AuthFromEnvTenant], FromEnvironment),
    Rule([AuthFromFile], FromFile(PublicCloudResourceManagerEndpoint)),
    Rule([], FromCli)
  ]

  predicate Applies(rule: Rule, env: ProcessEnvironment)
  {
    forall v :: v in rule.required ==> v in env
  }

  /** The strategy of the first rule that applies. */
  function FirstApplicable(rules: seq<Rule>, env: ProcessEnvironment): (r: Option<Strategy>)
    ensures r.Some? <==> exists k :: 0 <= k < |rules| && Applies(rules[k], env)
    ensures r.Some? ==>
      exists k :: (0 <= k < |rules| && Applies(rules[k], env) && rules[k].strategy == r.value &&
                   forall j :: 0 <= j < k ==> !Applies(rules[j], env))
  {
    if rules == [] then None
    else if Applies(rules[0], env) then Some(rules[0].strategy)
    else
      var rest := FirstApplicable(rules[1..], env);
      assert forall k :: 1 <= k < |rules| ==> rules[k] == rules[1..][k - 1];
      rest
  }

  /** SelectStrategy is the first applicable rule of the priority order;
      the last rule always applies, so a strategy is always chosen. */
  lemma SelectionFollowsPriorityOrder(env: ProcessEnvironment)
    ensures FirstApplicable(PriorityOrder, env) == Some(SelectStrategy(env))
  {
    assert Applies(PriorityOrder[2], env);
  }

  // ---------------------------------------------------------------------
  // NewAzureCredential
  // ---------------------------------------------------------------------

  /** The options of a default Azure credential: the client options with
      the cloud set. */
  datatype CredentialOptions = CredentialOptions(cloud: Configuration)

  /** NewAzureCredential: resolve the cloud; on failure return that error
      and build nothing, otherwise hand the resolved configuration,
      unchanged, to the credential constructor and pass on its outcome. */
  function NewAzureCredential<C>(
    setting: Option<string>,
    lookup: EnvironmentLookup,
    construct: CredentialOptions -> Result<C, string>): (r: Result<C, Error>)
    ensures ClientCloudConfig(setting, lookup).Err? ==> r == Err(ClientCloudConfig(setting, lookup).error)
    ensures ClientCloudConfig(setting, lookup).Ok? ==>
      var built := construct(CredentialOptions(ClientCloudConfig(setting, lookup).value));
      (r.Ok? <==> built.Ok?) &&
      (r.Ok? ==> r.value == built.value) &&
      (r.Err? ==> r == Err(Foreign(built.error)))
  {
    match ClientCloudConfig(setting, lookup)
    case Err(e) => Err(e)
    case Ok(c) =>
      match construct(CredentialOptions(c))
      case Err(message) => Err(Foreign(message))
      case Ok(credential) => Ok(credential)
  }

  /** When resolution fails, the constructor plays no part in the outcome. */
  lemma FailedResolutionBuildsNothing<C>(
    setting: Option<string>,
    lookup: EnvironmentLookup,
    construct: CredentialOptions -> Result<C, string>,
    other: CredentialOptions -> Result<C, string>)
    requires ClientCloudConfig(setting, lookup).Err?
    ensures NewAzureCredential(setting, lookup, construct) == NewAzureCredential(setting, lookup, other)
    ensures NewAzureCredential(setting, lookup, construct).Err?
  {
  }

  /** Under the public cloud (named or by default) the constructor receives
      the public table. */
  lemma PublicCredentialOptions<C>(
    setting: Option<string>,
    lookup: EnvironmentLookup,
    construct: CredentialOptions -> Result<C, string>)
    requires setting == None || setting == Some(PublicCloudName)
    ensures NewAzureCredential(setting, lookup, construct).Ok?
      <==> construct(CredentialOptions(AzurePublic)).Ok?
  {
    CanonicalNamesResolve(lookup);
  }
}
