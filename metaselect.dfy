/**
 * `NewMeta`: validates the platform and provider of a configuration, then picks the scope
 * strategy from the first scope field that is set: resource group, ARG predicate, mapping
 * file, resource ids. The strategy constructors themselves are not part of this model; the
 * result names the one `NewMeta` calls.
 */
module MetaSelect {
  import opened Wrappers

  /** The fields of `config.Config` that `NewMeta` reads. */
  datatype Config = Config(
    platform: string,
    providerName: string,
    resourceGroupName: string,
    argPredicate: string,
    mappingFile: string,
    resourceIds: seq<string>,
    tfResourceType: string)

  /** The scope strategies, by the constructor that builds them. */
  datatype Strategy =
    | ResourceGroupMeta // NewMetaResourceGroup
    | QueryMeta         // NewMetaQuery
    | MapMeta           // NewMetaMap
    | ResourceMeta      // NewMetaResource

  datatype ConfigError =
    | PlatformNotDefined
    | ProviderNotArm(provider: string)      // arm needs azurerm or azapi
    | ProviderNotMsGraph(provider: string)  // msgraph needs azuread
    | InvalidPlatform(platform: string)
    | ResourceGroupNeedsArm
    | PredicateNeedsArm
    | ResourceTypeRequired                  // resource ids on a platform other than arm
    | InvalidGroupConfig                    // no scope field set

  const PlatformArm: string := "arm"
  const PlatformMsGraph: string := "msgraph"
  const ProviderAzureRM: string := "azurerm"
  const ProviderAzAPI: string := "azapi"
  const ProviderAzureAD: string := "azuread"

  /** The platform switch: an error for a platform/provider pair it refuses. */
  function PlatformCheck(cfg: Config): Option<ConfigError> {
    if cfg.platform == PlatformArm then
      if cfg.providerName in [ProviderAzureRM, ProviderAzAPI] then None else Some(ProviderNotArm(cfg.providerName))
    else if cfg.platform == PlatformMsGraph then
      if cfg.providerName in [ProviderAzureAD] then None else Some(ProviderNotMsGraph(cfg.providerName))
    else Some(InvalidPlatform(cfg.platform))
  }

  /** The scope switch: first match wins, each case with its own platform guard. */
  function ScopeSelect(cfg: Config): Result<Strategy, ConfigError> {
    if cfg.resourceGroupName != "" then
      if cfg.platform != PlatformArm then Failure(ResourceGroupNeedsArm) else Success(ResourceGroupMeta)
    else if cfg.argPredicate != "" then
      if cfg.platform != PlatformArm then Failure(PredicateNeedsArm) else Success(QueryMeta)
    else if cfg.mappingFile != "" then
      Success(MapMeta)
    else if |cfg.resourceIds| != 0 then
      if cfg.platform != PlatformArm && cfg.tfResourceType == "" then Failure(ResourceTypeRequired)
      else Success(ResourceMeta)
    else Failure(InvalidGroupConfig)
  }

  /** `NewMeta`. */
  function NewMeta(cfg: Config): (r: Result<Strategy, ConfigError>)
    ensures cfg.platform == "" ==> r == Failure(PlatformNotDefined)
    ensures r.Success? ==> SupportedPair(cfg.platform, cfg.providerName) && FirstScope(cfg) == Some(r.value)
  {
    if cfg.platform == "" then Failure(PlatformNotDefined)
    else match PlatformCheck(cfg)
      case Some(e) => Failure(e)
      case None => ScopeSelect(cfg)
  }

  // ---- an independent statement of what NewMeta accepts and picks ----

  /** The supported platform/provider pairs. */
  predicate SupportedPair(platform: string, provider: string) {
    || (platform == PlatformArm && (provider == ProviderAzureRM || provider == ProviderAzAPI))
    || (platform == PlatformMsGraph && provider == ProviderAzureAD)
  }

  /** The scope field that decides the strategy: the first one set, in the fixed order. */
  function FirstScope(cfg: Config): Option<Strategy> {
    if cfg.resourceGroupName != "" then Some(ResourceGroupMeta)
    else if cfg.argPredicate != "" then Some(QueryMeta)
    else if cfg.mappingFile != "" then Some(MapMeta)
    else if |cfg.resourceIds| != 0 then Some(ResourceMeta)
    else None
  }

  /** Whether a strategy can serve a platform: group and predicate scopes need arm; ids elsewhere need a type. */
  predicate StrategyAllowed(s: Strategy, cfg: Config) {
    match s
    case ResourceGroupMeta => cfg.platform == PlatformArm
    case QueryMeta => cfg.platform == PlatformArm
    case MapMeta => true
    case ResourceMeta => cfg.platform == PlatformArm || cfg.tfResourceType != ""
  }

  /**
   * `NewMeta` succeeds exactly for a supported platform/provider pair with some scope set whose
   * strategy the platform allows, and then picks the first scope set.
   */
  lemma NewMetaAccepts(cfg: Config)
    ensures NewMeta(cfg).Success? <==>
            SupportedPair(cfg.platform, cfg.providerName) && FirstScope(cfg).Some? && StrategyAllowed(FirstScope(cfg).value, cfg)
    ensures NewMeta(cfg).Success? ==> NewMeta(cfg).value == FirstScope(cfg).value
  {
  }

  /** The empty platform is refused before anything else is looked at. */
  lemma EmptyPlatformFirst(cfg: Config)
    requires cfg.platform == ""
    ensures NewMeta(cfg) == Failure(PlatformNotDefined)
  {
  }

  /** The pairing check runs before the scope fields are looked at: its error does not depend on them. */
  lemma PairingBeforeScope(cfg: Config, other: Config)
    requires cfg.platform != "" && !SupportedPair(cfg.platform, cfg.providerName)
    requires other.platform == cfg.platform && other.providerName == cfg.providerName
    ensures NewMeta(cfg).Failure? && NewMeta(cfg) == NewMeta(other)
  {
  }

  /** The error for a refused pair names the offending field. */
  lemma PairingErrors(cfg: Config)
    requires cfg.platform != ""
    ensures (cfg.platform == PlatformArm && !SupportedPair(cfg.platform, cfg.providerName)) ==>
              NewMeta(cfg) == Failure(ProviderNotArm(cfg.providerName))
    ensures (cfg.platform == PlatformMsGraph && !SupportedPair(cfg.platform, cfg.providerName)) ==>
              NewMeta(cfg) == Failure(ProviderNotMsGraph(cfg.providerName))
    ensures (cfg.platform != PlatformArm && cfg.platform != PlatformMsGraph) ==>
              NewMeta(cfg) == Failure(InvalidPlatform(cfg.platform))
  {
  }

  /**
   * No mutual exclusion: once a scope field is set, the fields after it in the order do not
   * change the outcome.
   */
  lemma LaterScopesIgnored(cfg: Config, pred: string, mapping: string, ids: seq<string>, tfType: string)
    ensures cfg.resourceGroupName != "" ==>
              NewMeta(cfg) == NewMeta(cfg.(argPredicate := pred, mappingFile := mapping, resourceIds := ids, tfResourceType := tfType))
    ensures cfg.resourceGroupName == "" && cfg.argPredicate != "" ==>
              NewMeta(cfg) == NewMeta(cfg.(mappingFile := mapping, resourceIds := ids, tfResourceType := tfType))
    ensures cfg.resourceGroupName == "" && cfg.argPredicate == "" && cfg.mappingFile != "" ==>
              NewMeta(cfg) == NewMeta(cfg.(resourceIds := ids, tfResourceType := tfType))
  {
  }

  /** On the msgraph platform with azuread, the group and predicate scopes are refused and the others allowed. */
  lemma MsGraphScopes(cfg: Config)
    requires cfg.platform == PlatformMsGraph && cfg.providerName == ProviderAzureAD
    ensures cfg.resourceGroupName != "" ==> NewMeta(cfg) == Failure(ResourceGroupNeedsArm)
    ensures cfg.resourceGroupName == "" && cfg.argPredicate != "" ==> NewMeta(cfg) == Failure(PredicateNeedsArm)
    ensures cfg.resourceGroupName == "" && cfg.argPredicate == "" && cfg.mappingFile != "" ==> NewMeta(cfg) == Success(MapMeta)
    ensures FirstScope(cfg) == Some(ResourceMeta) ==>
              NewMeta(cfg) == (if cfg.tfResourceType == "" then Failure(ResourceTypeRequired) else Success(ResourceMeta))
  {
  }

  /** A configuration with no scope field set is refused once its platform and provider pass. */
  lemma NoScopeRefused(cfg: Config)
    requires SupportedPair(cfg.platform, cfg.providerName) && FirstScope(cfg).None?
    ensures NewMeta(cfg) == Failure(InvalidGroupConfig)
  {
  }
  /** A mapping file, when it is the first scope set, is accepted on every platform that passed validation. */
  lemma MappingFileAccepted(cfg: Config)
    requires SupportedPair(cfg.platform, cfg.providerName)
    requires cfg.resourceGroupName == "" && cfg.argPredicate == "" && cfg.mappingFile != ""
    ensures NewMeta(cfg) == Success(MapMeta)
  {
  }

  /**
   * Off the arm platform, a configuration whose first scope is a resource group or a predicate is
   * always refused, and so is a resource-id scope without a TF resource type.
   */
  lemma ArmOnlyScopes(cfg: Config)
    requires cfg.platform != PlatformArm
    ensures FirstScope(cfg) == Some(ResourceGroupMeta) ==> NewMeta(cfg).Failure?
    ensures FirstScope(cfg) == Some(QueryMeta) ==> NewMeta(cfg).Failure?
    ensures FirstScope(cfg) == Some(ResourceMeta) && cfg.tfResourceType == "" ==> NewMeta(cfg).Failure?
  {
  }
}
