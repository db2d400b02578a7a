/** Resolution of the Azure cloud-environment name to a cloud configuration
    (authority host plus per-service audience and endpoint), and the two
    projections of it that callers use: ARM client options and the bare
    Resource Manager endpoint. */
module CloudConfig {
  import opened Wrappers

  // ---------------------------------------------------------------------
  // Case folding
  // ---------------------------------------------------------------------

  /** The upper case of one rune, as Go's strings.ToUpper maps it, for every
      rune whose upper case is an ASCII letter: the ASCII lower-case letters,
      LATIN SMALL LETTER DOTLESS I (to 'I') and LATIN SMALL LETTER LONG S (to
      'S'). Every other rune, the ASCII capitals included, is left as it is;
      no rune outside these has an ASCII letter as its upper case except the
      capitals themselves, so the other runes can never help match a
      recognised cloud name. */
  function UpperChar(c: char): char
  {
    if 'a' <= c <= 'z' then (c as int - 32) as char
    else if c == '\U{0131}' then 'I'
    else if c == '\U{017F}' then 'S'
    else c
  }

  /** The ASCII lower case of one rune; other runes are left as they are. */
  function LowerChar(c: char): char
  {
    if 'A' <= c <= 'Z' then (c as int + 32) as char else c
  }

  /** strings.ToUpper: the name with every rune upper-cased. */
  function Upper(s: string): (r: string)
    ensures |r| == |s|
    ensures forall i :: 0 <= i < |s| ==> r[i] == UpperChar(s[i])
  {
    if s == [] then [] else [UpperChar(s[0])] + Upper(s[1..])
  }

  /** `name` spells the ASCII word `canonical` with any mix of upper- and
      lower-case letters. */
  predicate IsCasingOf(name: string, canonical: string)
  {
    |name| == |canonical| &&
    forall i :: 0 <= i < |name| ==>
      name[i] == LowerChar(canonical[i]) || name[i] == UpperChar(canonical[i])
  }

  /** Two spellings of a word that differ only in letter case fold to the
      same upper-case key. */
  lemma CasingsFoldAlike(name: string, canonical: string)
    requires IsCasingOf(name, canonical)
    ensures Upper(name) == Upper(canonical)
  {
    forall i | 0 <= i < |name|
      ensures Upper(name)[i] == Upper(canonical)[i]
    {
      var c := canonical[i];
      assert UpperChar(LowerChar(c)) == UpperChar(c);
      assert UpperChar(UpperChar(c)) == UpperChar(c);
    }
  }

  // ---------------------------------------------------------------------
  // Cloud configurations
  // ---------------------------------------------------------------------

  type ServiceName = string

  /** The SDK's key for the Azure Resource Manager service. */
  const ResourceManager: ServiceName := "resourceManager"

  datatype ServiceConfiguration = ServiceConfiguration(audience: string, endpoint: string)

  datatype Configuration = Configuration(
    authorityHost: string,
    services: map<ServiceName, ServiceConfiguration>)

  /** The SDK's static table for the public cloud. */
  const AzurePublic := Configuration(
    "https://login.microsoftonline.com/",
    map[ResourceManager := ServiceConfiguration(
      "https://management.core.windows.net/", "https://management.azure.com")])

  /** The SDK's static table for the China cloud. */
  const AzureChina := Configuration(
    "https://login.chinacloudapi.cn/",
    map[ResourceManager := ServiceConfiguration(
      "https://management.core.chinacloudapi.cn", "https://management.chinacloudapi.cn")])

  /** The SDK's static table for the US Government cloud. */
  const AzureGovernment := Configuration(
    "https://login.microsoftonline.us/",
    map[ResourceManager := ServiceConfiguration(
      "https://management.core.usgovcloudapi.net", "https://management.usgovcloudapi.net")])

  /** The fields of a named environment record that an Azure Stack
      configuration is built from. */
  datatype StackEnvironment = StackEnvironment(
    activeDirectoryEndpoint: string,
    tokenAudience: string,
    resourceManagerEndpoint: string)

  /** The SDK's registry lookup of a named environment: a record, or the
      text of the error it failed with. */
  type EnvironmentLookup = string -> Result<StackEnvironment, string>

  // ---------------------------------------------------------------------
  // Errors
  // ---------------------------------------------------------------------

  datatype Error =
    | NoMatchingCloud(name: string)
    | NoResourceManager
    | Foreign(message: string)  // an SDK error, passed on as it came

  const NoMatchText := "no cloud environment matching the name"

  /** The text each error renders as. */
  function Message(e: Error): string
  {
    match e
    case NoMatchingCloud(name) =>
      NoMatchText + ": " + name + ". " +
      "Available values are: " +
      "AzurePublicCloud (default), " +
      "AzureUSGovernmentCloud, " +
      "AzureChinaCloud or " +
      "AzureStackCloud"
    case NoResourceManager =>
      "no Resource Manager service configuration found for the current cloud"
    case Foreign(message) => message
  }

  /** `part` occurs somewhere in `s`. */
  predicate Contains(s: string, part: string)
  {
    exists i :: 0 <= i <= |s| && part <= s[i..]
  }

  /** The no-match error names the problem and quotes the name exactly as
      it was given, not its upper-cased form. */
  lemma NoMatchMessageQuotesName(name: string)
    ensures Contains(Message(NoMatchingCloud(name)), NoMatchText)
    ensures Contains(Message(NoMatchingCloud(name)), name)
  {
    var m := Message(NoMatchingCloud(name));
    var k := |NoMatchText + ": "|;
    assert NoMatchText <= m[0..];
    assert name <= m[k..];
  }

  // ---------------------------------------------------------------------
  // Resolution
  // ---------------------------------------------------------------------

  const PublicCloudName := "AzurePublicCloud"
  const ChinaCloudName := "AzureChinaCloud"
  const GovernmentCloudName := "AzureUSGovernmentCloud"
  const StackCloudName := "AzureStackCloud"

  /** The upper-cased names the dispatch recognises. */
  const RecognisedKeys: set<string> :=
    {"AZURECHINACLOUD", "AZUREUSGOVERNMENTCLOUD", "AZUREPUBLICCLOUD", "AZURESTACKCLOUD"}

  /** The environment name in effect: the configured value, or the public
      cloud when the variable is unset or set to the empty string. */
  function EnvironmentName(setting: Option<string>): (name: string)
    ensures setting.Some? && setting.value != "" ==> name == setting.value
    ensures setting.None? || setting.value == "" ==> name == PublicCloudName
  {
    if setting.Some? && setting.value != "" then setting.value else PublicCloudName
  }

  /** The configuration built for an Azure Stack environment record. */
  function StackConfiguration(env: StackEnvironment): (c: Configuration)
    ensures c.authorityHost == env.activeDirectoryEndpoint
    ensures c.services.Keys == {ResourceManager}
    ensures c.services[ResourceManager].audience == env.tokenAudience
    ensures c.services[ResourceManager].endpoint == env.resourceManagerEndpoint
  {
    Configuration(
      env.activeDirectoryEndpoint,
      map[ResourceManager := ServiceConfiguration(env.tokenAudience, env.resourceManagerEndpoint)])
  }

  /** getClientCloudConfig: dispatch on the upper-cased environment name.
      Every configuration it yields has a Resource Manager entry, and it
      never reports a missing one itself. */
  function ClientCloudConfig(setting: Option<string>, lookup: EnvironmentLookup): (r: Result<Configuration, Error>)
    ensures r.Ok? ==> ResourceManager in r.value.services
    ensures r.Err? ==> !r.error.NoResourceManager?
    ensures r.Err? && r.error.NoMatchingCloud? ==>
      r.error.name == EnvironmentName(setting) && Upper(EnvironmentName(setting)) !in RecognisedKeys
  {
    var envName := EnvironmentName(setting);
    var key := Upper(envName);
    if key == "AZURECHINACLOUD" then Ok(AzureChina)
    else if key == "AZUREUSGOVERNMENTCLOUD" then Ok(AzureGovernment)
    else if key == "AZUREPUBLICCLOUD" then Ok(AzurePublic)
    else if key == "AZURESTACKCLOUD" then
      match lookup(envName)
      case Err(message) => Err(Foreign(message))
      case Ok(env) => Ok(StackConfiguration(env))
    else Err(NoMatchingCloud(envName))
  }

  /** Upper case computed rune by rune. */
  lemma UpperIs(s: string, t: string)
    requires |s| == |t|
    requires forall i :: 0 <= i < |s| ==> UpperChar(s[i]) == t[i]
    ensures Upper(s) == t
  {
  }

  lemma UpperOfPublicName()
    ensures Upper(PublicCloudName) == "AZUREPUBLICCLOUD"
  {
    UpperIs(PublicCloudName, "AZUREPUBLICCLOUD");
  }

  lemma UpperOfChinaName()
    ensures Upper(ChinaCloudName) == "AZURECHINACLOUD"
  {
    UpperIs(ChinaCloudName, "AZURECHINACLOUD");
  }

  lemma UpperOfGovernmentName()
    ensures Upper(GovernmentCloudName) == "AZUREUSGOVERNMENTCLOUD"
  {
    UpperIs(GovernmentCloudName, "AZUREUSGOVERNMENTCLOUD");
  }

  /** The canonical names select the public, China and Government tables,
      and an unset name selects the public table. */
  lemma CanonicalNamesResolve(lookup: EnvironmentLookup)
    ensures ClientCloudConfig(None, lookup) == Ok(AzurePublic)
    ensures ClientCloudConfig(Some(PublicCloudName), lookup) == Ok(AzurePublic)
    ensures ClientCloudConfig(Some(ChinaCloudName), lookup) == Ok(AzureChina)
    ensures ClientCloudConfig(Some(GovernmentCloudName), lookup) == Ok(AzureGovernment)
  {
    assert EnvironmentName(None) == PublicCloudName;
    assert EnvironmentName(Some(PublicCloudName)) == PublicCloudName;
    assert EnvironmentName(Some(ChinaCloudName)) == ChinaCloudName;
    assert EnvironmentName(Some(GovernmentCloudName)) == GovernmentCloudName;
    UpperOfPublicName();
    UpperOfChinaName();
    UpperOfGovernmentName();
  }

  /** A name that is set but empty also selects the public table. */
  lemma EmptyNameResolvesPublic(lookup: EnvironmentLookup)
    ensures ClientCloudConfig(Some(""), lookup) == Ok(AzurePublic)
  {
    assert EnvironmentName(Some("")) == PublicCloudName;
    UpperOfPublicName();
  }

  /** The three static keys select their tables, whatever the spelling
      that folded to them. */
  lemma StaticKeysSelectTables(name: string, lookup: EnvironmentLookup)
    ensures Upper(name) == "AZUREPUBLICCLOUD" ==> ClientCloudConfig(Some(name), lookup) == Ok(AzurePublic)
    ensures Upper(name) == "AZURECHINACLOUD" ==> ClientCloudConfig(Some(name), lookup) == Ok(AzureChina)
    ensures Upper(name) == "AZUREUSGOVERNMENTCLOUD" ==> ClientCloudConfig(Some(name), lookup) == Ok(AzureGovernment)
  {
  }

  /** Matching ignores case: every casing of a static cloud's name selects
      the same table as the canonical spelling. */
  lemma AnyCasingResolvesStatic(name: string, canonical: string, lookup: EnvironmentLookup)
    requires canonical in {PublicCloudName, ChinaCloudName, GovernmentCloudName}
    requires IsCasingOf(name, canonical)
    ensures ClientCloudConfig(Some(name), lookup) == ClientCloudConfig(Some(canonical), lookup)
  {
    CasingsFoldAlike(name, canonical);
    StaticKeysSelectTables(name, lookup);
    StaticKeysSelectTables(canonical, lookup);
    if canonical == PublicCloudName {
      UpperOfPublicName();
    } else if canonical == ChinaCloudName {
      UpperOfChinaName();
    } else {
      UpperOfGovernmentName();
    }
  }

  /** Go's case mapping also folds the dotless i onto 'I', so this
      spelling selects the China cloud too. */
  lemma DotlessISelectsChina(lookup: EnvironmentLookup)
    ensures ClientCloudConfig(Some("azurech\U{0131}nacloud"), lookup) == Ok(AzureChina)
  {
    UpperIs("azurech\U{0131}nacloud", "AZURECHINACLOUD");
  }

  /** A set, non-empty name is rejected, with an error quoting it, exactly
      when its upper case is none of the four recognised names. */
  lemma UnrecognisedNameRejected(name: string, lookup: EnvironmentLookup)
    ensures ClientCloudConfig(Some(name), lookup) == Err(NoMatchingCloud(name))
      <==> name != "" && Upper(name) !in RecognisedKeys
  {
  }

  lemma InvalidCloudRejected(lookup: EnvironmentLookup)
    ensures ClientCloudConfig(Some("InvalidCloud"), lookup) == Err(NoMatchingCloud("InvalidCloud"))
    ensures Contains(Message(NoMatchingCloud("InvalidCloud")), NoMatchText)
  {
    assert |Upper("InvalidCloud")| == 12;
    UnrecognisedNameRejected("InvalidCloud", lookup);
    NoMatchMessageQuotesName("InvalidCloud");
  }

  /** An Azure Stack name whose lookup fails yields that failure, with its
      text unchanged, and no configuration. The lookup is asked about the
      name as given, not its upper case. */
  lemma StackLookupFailurePropagates(name: string, lookup: EnvironmentLookup)
    requires Upper(name) == "AZURESTACKCLOUD"
    requires lookup(name).Err?
    ensures ClientCloudConfig(Some(name), lookup) == Err(Foreign(lookup(name).error))
    ensures Message(ClientCloudConfig(Some(name), lookup).error) == lookup(name).error
  {
  }

  /** An Azure Stack name whose lookup succeeds yields a configuration with
      the record's authority host and exactly one service, Resource
      Manager, carrying the record's audience and endpoint. */
  lemma StackLookupSuccessShape(name: string, lookup: EnvironmentLookup)
    requires Upper(name) == "AZURESTACKCLOUD"
    requires lookup(name).Ok?
    ensures var r := ClientCloudConfig(Some(name), lookup);
      var env := lookup(name).value;
      && r.Ok?
      && r.value.authorityHost == env.activeDirectoryEndpoint
      && r.value.services.Keys == {ResourceManager}
      && r.value.services[ResourceManager] == ServiceConfiguration(env.tokenAudience, env.resourceManagerEndpoint)
  {
  }

  // ---------------------------------------------------------------------
  // Projections
  // ---------------------------------------------------------------------

  /** ARM client options: the SDK client options with the cloud set. */
  datatype ArmClientOptions = ArmClientOptions(cloud: Configuration)

  /** getArmClientOptions: fails exactly when resolution fails, with the
      same error; otherwise embeds the resolved configuration unchanged. */
  function GetArmClientOptions(setting: Option<string>, lookup: EnvironmentLookup): (r: Result<ArmClientOptions, Error>)
    ensures r.Err? <==> ClientCloudConfig(setting, lookup).Err?
    ensures r.Err? ==> r.error == ClientCloudConfig(setting, lookup).error
    ensures r.Ok? ==> r.value.cloud == ClientCloudConfig(setting, lookup).value
  {
    match ClientCloudConfig(setting, lookup)
    case Err(e) => Err(e)
    case Ok(c) => Ok(ArmClientOptions(c))
  }

  /** getArmEndpoint: the Resource Manager entry's endpoint of the resolved
      configuration. Its check for a missing entry can never fire: it fails
      exactly when resolution fails, with the same error. */
  function GetArmEndpoint(setting: Option<string>, lookup: EnvironmentLookup): (r: Result<string, Error>)
    ensures r.Err? <==> ClientCloudConfig(setting, lookup).Err?
    ensures r.Err? ==> r.error == ClientCloudConfig(setting, lookup).error
    ensures r.Ok? ==> r.value == ClientCloudConfig(setting, lookup).value.services[ResourceManager].endpoint
  {
    match ClientCloudConfig(setting, lookup)
    case Err(e) => Err(e)
    case Ok(c) =>
      if ResourceManager !in c.services then Err(NoResourceManager)
      else Ok(c.services[ResourceManager].endpoint)
  }

  /** The ARM options under the public cloud carry the public table. */
  lemma PublicArmClientOptions(lookup: EnvironmentLookup)
    ensures GetArmClientOptions(Some(PublicCloudName), lookup) == Ok(ArmClientOptions(AzurePublic))
  {
    CanonicalNamesResolve(lookup);
  }

  /** The fixed Resource Manager endpoints of the three static clouds. */
  lemma StaticArmEndpoints(lookup: EnvironmentLookup)
    ensures GetArmEndpoint(None, lookup) == Ok("https://management.azure.com")
    ensures GetArmEndpoint(Some(PublicCloudName), lookup) == Ok("https://management.azure.com")
    ensures GetArmEndpoint(Some(ChinaCloudName), lookup) == Ok("https://management.chinacloudapi.cn")
    ensures GetArmEndpoint(Some(GovernmentCloudName), lookup) == Ok("https://management.usgovcloudapi.net")
  {
    CanonicalNamesResolve(lookup);
  }

  /** For a successfully looked-up Azure Stack environment the endpoint is
      the record's Resource Manager endpoint; the missing-entry error is
      unreachable there. */
  lemma StackArmEndpoint(name: string, lookup: EnvironmentLookup)
    requires Upper(name) == "AZURESTACKCLOUD"
    requires lookup(name).Ok?
    ensures GetArmEndpoint(Some(name), lookup) == Ok(lookup(name).value.resourceManagerEndpoint)
  {
  }
}
