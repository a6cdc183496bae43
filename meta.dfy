/**
 * `MetaResource`: the resource-id scope. `ScopeName` describes the scope, `tfResourceName`
 * gives each item its TF address name, and `ListResource` assembles the ordered import list,
 * for the azuread provider directly from the ids, for azurerm and azapi through the TF mapper.
 */
module Meta {
  import opened Wrappers
  import opened Strings
  import opened Armid
  import opened Resources
  import opened ResourceId
  import opened Populate

  /** The fields of `MetaResource` that the listing reads. */
  datatype MetaResource = MetaResource(
    providerName: string,
    resourceIds: seq<string>,
    resourceName: string,
    resourceType: string,
    namePrefix: string,
    nameSuffix: string)

  /** `tfaddr.TFAddr`: a TF resource address `<type>.<name>`. */
  datatype TFAddr = TFAddr(tfType: string, name: string)

  /** `ImportItem`, without the fields the listing leaves at their zero value. */
  datatype ImportItem = ImportItem(
    azureResourceId: AzureResourceId,
    tfResourceId: string,
    tfAddr: TFAddr,
    tfAddrCache: TFAddr,
    isRecommended: bool)

  /**
   * The collaborators `ListResource` calls: the azurerm and azapi mappers from Azure resources to
   * TF resources, and `aztft.QueryId` with API access, used for the override type.
   */
  datatype Services = Services(
    toAzureRM: seq<AzureResource> -> seq<TFResource>,
    toAzAPI: seq<AzureResource> -> seq<TFResource>,
    queryId: (string, string) -> Result<string, string>)

  datatype ListError =
    | ParseIdFailed(id: string, reason: string)                  // an input id is not an ARM id
    | QueryIdFailed(azureId: string, tfType: string, reason: string) // re-query for the override type failed
    | UnknownProvider(name: string)                              // provider is none of azuread, azurerm, azapi

  const AzureAD: string := "azuread"
  const AzureRM: string := "azurerm"
  const AzAPI: string := "azapi"
  const AndMore: string := " and more..."

  // ---- ScopeName ----

  /**
   * `ScopeName`: the sole id, or the first id followed by " and more...". The list is never
   * empty: the resource-id scope is only chosen for a non-empty id list.
   */
  function ScopeName(m: MetaResource): (r: string)
    requires |m.resourceIds| > 0
    ensures |r| >= |m.resourceIds[0]| && r[..|m.resourceIds[0]|] == m.resourceIds[0]
    ensures r == m.resourceIds[0] <==> |m.resourceIds| == 1
    ensures |m.resourceIds| != 1 ==> r[|m.resourceIds[0]|..] == AndMore
  {
    if |m.resourceIds| == 1 then m.resourceIds[0] else m.resourceIds[0] + AndMore
  }

  // ---- tfResourceName ----

  /** `tfResourceName`: the configured name for a single item, else `<prefix><idx><suffix>`. */
  function TfResourceName(m: MetaResource, idx: nat, single: bool): (r: string)
    ensures UsesResourceName(m, single) ==> r == m.resourceName
    ensures !UsesResourceName(m, single) ==>
              && |r| > |m.namePrefix| + |m.nameSuffix|
              && r[..|m.namePrefix|] == m.namePrefix
              && r[|r| - |m.nameSuffix|..] == m.nameSuffix
  {
    if single && m.resourceName != "" then m.resourceName
    else m.namePrefix + NatToString(idx) + m.nameSuffix
  }

  /** Whether the configured name is used, rather than the numbered pattern. */
  predicate UsesResourceName(m: MetaResource, single: bool) {
    single && m.resourceName != ""
  }

  /**
   * A numbered name is the prefix, the index in decimal (digits only, no leading zero) and the
   * suffix, and the index can be read back from it.
   */
  lemma TfResourceNameNumbered(m: MetaResource, idx: nat, single: bool)
    requires !UsesResourceName(m, single)
    ensures var r := TfResourceName(m, idx, single);
            && |r| > |m.namePrefix| + |m.nameSuffix|
            && r[..|m.namePrefix|] == m.namePrefix
            && r[|r| - |m.nameSuffix|..] == m.nameSuffix
            && (forall k :: |m.namePrefix| <= k < |r| - |m.nameSuffix| ==> IsDigit(r[k]))
            && (|r| == |m.namePrefix| + |m.nameSuffix| + 1 || r[|m.namePrefix|] != '0')
            && DecimalValue(r[|m.namePrefix|..|r| - |m.nameSuffix|]) == idx
  {
    var d := NatToString(idx);
    var r := m.namePrefix + d + m.nameSuffix;
    assert r[|m.namePrefix|..|r| - |m.nameSuffix|] == d;
    assert forall k :: |m.namePrefix| <= k < |r| - |m.nameSuffix| ==> r[k] == d[k - |m.namePrefix|];
    DecimalRoundTrip(idx);
  }

  /**
   * The name is the configured one exactly when that name is used (`single` and not empty), or
   * when the configured name happens to spell the numbered one.
   */
  lemma TfResourceNameConfigured(m: MetaResource, idx: nat, single: bool)
    ensures TfResourceName(m, idx, single) == m.resourceName <==>
            UsesResourceName(m, single) || m.resourceName == m.namePrefix + NatToString(idx) + m.nameSuffix
  {
  }

  /** Numbered names of distinct indexes are distinct. */
  lemma TfResourceNameInjective(m: MetaResource, i: nat, j: nat, single: bool)
    requires i != j && !UsesResourceName(m, single)
    ensures TfResourceName(m, i, single) != TfResourceName(m, j, single)
  {
    NatToStringInjective(i, j);
    if TfResourceName(m, i, single) == TfResourceName(m, j, single) {
      InfixCancel(m.namePrefix, NatToString(i), NatToString(j), m.nameSuffix);
    }
  }

  /** Among `n` items, every item's name differs from every other's. */
  lemma NamesDistinct(m: MetaResource, n: nat, i: nat, j: nat)
    requires i < n && j < n && i != j
    ensures TfResourceName(m, i, n == 1) != TfResourceName(m, j, n == 1)
  {
    TfResourceNameInjective(m, i, j, n == 1);
  }

  // ---- the azuread branch ----

  /** The azuread item for the `i`-th of `n` ids: addressed by the configured type, never recommended. */
  function AzureAdItem(m: MetaResource, i: nat, n: nat, id: string): ImportItem {
    var addr := TFAddr(m.resourceType, TfResourceName(m, i, n == 1));
    ImportItem(MsGraph(id), id, addr, addr, false)
  }

  function AzureAdItems(m: MetaResource): seq<ImportItem> {
    seq(|m.resourceIds|, i requires 0 <= i < |m.resourceIds| => AzureAdItem(m, i, |m.resourceIds|, m.resourceIds[i]))
  }

  // ---- the azurerm / azapi branch ----

  /** Parses every id as an ARM id, in order, with the resource-set parser; a failure names the id. */
  function ParseIds(lib: Library, ids: seq<string>): Result<seq<AzureResource>, ListError> {
    match ParseAll(lib, ids)
    case Success(resources) => Success(resources)
    case Failure(e) => Failure(ParseIdFailed(e.value, e.reason))
  }

  /** Whether the configured type replaces the mapped type `tfType`. */
  predicate Overrides(m: MetaResource, tfType: string) {
    m.resourceType != "" && m.resourceType != tfType
  }

  /**
   * The item for the `i`-th of `n` mapped resources. With an overriding configured type the TF id
   * is re-queried for that type, both addresses take that type and the item is not recommended.
   */
  function ArmItem(m: MetaResource, lib: Library, svc: Services, i: nat, n: nat, res: TFResource)
    : Result<ImportItem, ListError>
  {
    var addr := TFAddr(res.tfType, TfResourceName(m, i, n == 1));
    if !Overrides(m, res.tfType) then
      Success(ImportItem(Arm(res.azureId), res.tfId, addr, addr, m.resourceType == ""))
    else
      match svc.queryId(lib.str(res.azureId), m.resourceType)
      case Failure(reason) => Failure(QueryIdFailed(lib.str(res.azureId), m.resourceType, reason))
      case Success(tfId) =>
        var typed := addr.(tfType := m.resourceType);
        Success(ImportItem(Arm(res.azureId), tfId, typed, typed, false))
  }

  /** The items for the first `k` mapped resources; the first failing item is the error. */
  function ArmItems(m: MetaResource, lib: Library, svc: Services, rl: seq<TFResource>, k: nat)
    : Result<seq<ImportItem>, ListError>
    requires k <= |rl|
  {
    if k == 0 then Success([])
    else match ArmItems(m, lib, svc, rl, k - 1)
      case Failure(e) => Failure(e)
      case Success(items) =>
        match ArmItem(m, lib, svc, k - 1, |rl|, rl[k - 1])
        case Failure(e) => Failure(e)
        case Success(item) => Success(items + [item])
  }

  /** The mapper the provider selects: azapi's for azapi, azurerm's otherwise. */
  function MapResources(m: MetaResource, svc: Services, resources: seq<AzureResource>): seq<TFResource> {
    if m.providerName == AzAPI then svc.toAzAPI(resources) else svc.toAzureRM(resources)
  }

  /** What `ListResource` returns. */
  function ListSpec(m: MetaResource, lib: Library, svc: Services): Result<seq<ImportItem>, ListError> {
    if m.providerName == AzureAD then Success(AzureAdItems(m))
    else if m.providerName == AzureRM || m.providerName == AzAPI then
      match ParseIds(lib, m.resourceIds)
      case Failure(e) => Failure(e)
      case Success(resources) =>
        var rl := MapResources(m, svc, resources);
        ArmItems(m, lib, svc, rl, |rl|)
    else Failure(UnknownProvider(m.providerName))
  }

  // ---- ListResource ----

  /** `ListResource`, loop by loop. */
  method ListResource(m: MetaResource, lib: Library, svc: Services) returns (r: Result<seq<ImportItem>, ListError>)
    ensures r == ListSpec(m, lib, svc)
  {
    if m.providerName == AzureAD {
      var l: seq<ImportItem> := [];
      for i := 0 to |m.resourceIds|
        invariant l == AzureAdItems(m)[..i]
      {
        var id := m.resourceIds[i];
        var tfAddr := TFAddr(m.resourceType, TfResourceName(m, i, |m.resourceIds| == 1));
        var item := ImportItem(MsGraph(id), id, tfAddr, tfAddr, false);
        assert AzureAdItems(m)[..i + 1] == AzureAdItems(m)[..i] + [item];
        l := l + [item];
      }
      assert AzureAdItems(m)[..|m.resourceIds|] == AzureAdItems(m);
      return Success(l);
    } else if m.providerName == AzureRM || m.providerName == AzAPI {
      var resources := ParseResourceIds(lib, m.resourceIds);
      if resources.Failure? {
        return Failure(resources.error);
      }
      var rl := MapResources(m, svc, resources.value);
      r := AssembleItems(m, lib, svc, rl);
    } else {
      return Failure(UnknownProvider(m.providerName));
    }
  }

  /** The parse loop of the azurerm/azapi branch. */
  method ParseResourceIds(lib: Library, ids: seq<string>) returns (r: Result<seq<AzureResource>, ListError>)
    ensures r == ParseIds(lib, ids)
  {
    var resources: seq<AzureResource> := [];
    for i := 0 to |ids|
      invariant ParseAll(lib, ids[..i]) == Success(resources)
    {
      assert ids[..i + 1][..i] == ids[..i];
      var rid := lib.parse(ids[i]);
      if rid.Failure? {
        ParseAllFailurePersists(lib, ids, i + 1);
        return Failure(ParseIdFailed(ids[i], rid.error));
      }
      resources := resources + [Plain(rid.value)];
    }
    assert ids[..|ids|] == ids;
    return Success(resources);
  }

  /** The item loop of the azurerm/azapi branch, with the override re-query. */
  method AssembleItems(m: MetaResource, lib: Library, svc: Services, rl: seq<TFResource>)
    returns (r: Result<seq<ImportItem>, ListError>)
    ensures r == ArmItems(m, lib, svc, rl, |rl|)
  {
    var l: seq<ImportItem> := [];
    for i := 0 to |rl|
      invariant ArmItems(m, lib, svc, rl, i) == Success(l)
    {
      var res := rl[i];
      var tfAddr := TFAddr(res.tfType, TfResourceName(m, i, |rl| == 1));
      var item := ImportItem(Arm(res.azureId), res.tfId, tfAddr, tfAddr, m.resourceType == "");
      if m.resourceType != "" && m.resourceType != res.tfType {
        var tfid := svc.queryId(lib.str(res.azureId), m.resourceType);
        if tfid.Failure? {
          ArmItemsFailurePersists(m, lib, svc, rl, i + 1, |rl|);
          return Failure(QueryIdFailed(lib.str(res.azureId), m.resourceType, tfid.error));
        }
        item := item.(tfResourceId := tfid.value,
                      tfAddr := item.tfAddr.(tfType := m.resourceType),
                      tfAddrCache := item.tfAddrCache.(tfType := m.resourceType),
                      isRecommended := false);
      }
      l := l + [item];
    }
    return Success(l);
  }

  lemma {:induction false} ArmItemsFailurePersists(m: MetaResource, lib: Library, svc: Services,
                                                   rl: seq<TFResource>, i: nat, k: nat)
    requires i <= k <= |rl| && ArmItems(m, lib, svc, rl, i).Failure?
    ensures ArmItems(m, lib, svc, rl, k) == ArmItems(m, lib, svc, rl, i)
    decreases k - i
  {
    if i < k {
      ArmItemsFailurePersists(m, lib, svc, rl, i, k - 1);
    }
  }

  // ---- what the listing promises ----

  /**
   * Parsing succeeds exactly when every id parses, giving one plain resource per id in order;
   * otherwise the error names the first id that does not parse.
   */
  lemma ParseIdsSpec(lib: Library, ids: seq<string>)
    ensures ParseIds(lib, ids).Success? <==> forall i :: 0 <= i < |ids| ==> lib.parse(ids[i]).Success?
    ensures ParseIds(lib, ids).Success? ==>
              |ParseIds(lib, ids).value| == |ids| &&
              forall i :: 0 <= i < |ids| ==> ParseIds(lib, ids).value[i] == Plain(lib.parse(ids[i]).value)
    ensures ParseIds(lib, ids).Failure? ==>
              exists k :: 0 <= k < |ids| && lib.parse(ids[k]).Failure?
                && (forall i :: 0 <= i < k ==> lib.parse(ids[i]).Success?)
                && ParseIds(lib, ids).error == ParseIdFailed(ids[k], lib.parse(ids[k]).error)
  {
    ParseAllSpec(lib, ids);
  }

  /**
   * Item assembly succeeds exactly when every mapped resource yields an item; the items come in
   * mapped order; otherwise the error is that of the first resource that fails.
   */
  lemma ArmItemsSpec(m: MetaResource, lib: Library, svc: Services, rl: seq<TFResource>, k: nat)
    requires k <= |rl|
    ensures ArmItems(m, lib, svc, rl, k).Success? <==>
            forall i :: 0 <= i < k ==> ArmItem(m, lib, svc, i, |rl|, rl[i]).Success?
    ensures ArmItems(m, lib, svc, rl, k).Success? ==>
              |ArmItems(m, lib, svc, rl, k).value| == k &&
              forall i :: 0 <= i < k ==> ArmItems(m, lib, svc, rl, k).value[i] == ArmItem(m, lib, svc, i, |rl|, rl[i]).value
    ensures ArmItems(m, lib, svc, rl, k).Failure? ==>
              exists j :: 0 <= j < k && ArmItem(m, lib, svc, j, |rl|, rl[j]).Failure?
                && (forall i :: 0 <= i < j ==> ArmItem(m, lib, svc, i, |rl|, rl[i]).Success?)
                && ArmItems(m, lib, svc, rl, k).error == ArmItem(m, lib, svc, j, |rl|, rl[j]).error
  {
    ArmItemsCollect(m, lib, svc, rl, k);
    var rs := ArmItemResults(m, lib, svc, rl)[..k];
    CollectSpec(rs);
    assert forall i :: 0 <= i < k ==> rs[i] == ArmItem(m, lib, svc, i, |rl|, rl[i]);
  }

  /** The per-resource results of the item loop. */
  function ArmItemResults(m: MetaResource, lib: Library, svc: Services, rl: seq<TFResource>)
    : seq<Result<ImportItem, ListError>>
  {
    seq(|rl|, i requires 0 <= i < |rl| => ArmItem(m, lib, svc, i, |rl|, rl[i]))
  }

  /** The item loop collects the per-resource results of the first `k` mapped resources. */
  lemma {:induction false} ArmItemsCollect(m: MetaResource, lib: Library, svc: Services, rl: seq<TFResource>, k: nat)
    requires k <= |rl|
    ensures ArmItems(m, lib, svc, rl, k) == Collect(ArmItemResults(m, lib, svc, rl)[..k])
    decreases k
  {
    if k > 0 {
      ArmItemsCollect(m, lib, svc, rl, k - 1);
      assert ArmItemResults(m, lib, svc, rl)[..k][..k - 1] == ArmItemResults(m, lib, svc, rl)[..k - 1];
    }
  }

  /**
   * One mapped resource's item: it wraps the resource's ARM id and is named by its index. Without
   * an override it keeps the mapped TF id and type and is recommended exactly when no type was
   * configured; with one, a failed re-query is the error, else the re-queried id and the
   * configured type replace them and it is not recommended. Both addresses agree.
   */
  lemma ArmItemFields(m: MetaResource, lib: Library, svc: Services, i: nat, n: nat, res: TFResource)
    ensures var r := ArmItem(m, lib, svc, i, n, res);
            var q := svc.queryId(lib.str(res.azureId), m.resourceType);
            && (r.Failure? <==> Overrides(m, res.tfType) && q.Failure?)
            && (r.Failure? ==> r.error == QueryIdFailed(lib.str(res.azureId), m.resourceType, q.error))
            && (r.Success? ==>
                  && r.value.azureResourceId == Arm(res.azureId)
                  && r.value.tfAddr.name == TfResourceName(m, i, n == 1)
                  && r.value.tfAddrCache == r.value.tfAddr
                  && r.value.isRecommended == (m.resourceType == "")
                  && (!Overrides(m, res.tfType) ==> r.value.tfResourceId == res.tfId && r.value.tfAddr.tfType == res.tfType)
                  && (Overrides(m, res.tfType) ==> r.value.tfResourceId == q.value && r.value.tfAddr.tfType == m.resourceType))
  {
  }

  /**
   * The azuread branch never fails and yields one item per id, in order: the id wrapped as a
   * msgraph id, the id itself as TF id, the configured type and the index-based name.
   */
  lemma ListAzureAd(m: MetaResource, lib: Library, svc: Services)
    requires m.providerName == AzureAD
    ensures var r := ListSpec(m, lib, svc);
            && r.Success?
            && |r.value| == |m.resourceIds|
            && forall i :: 0 <= i < |m.resourceIds| ==>
                 && r.value[i].azureResourceId == MsGraph(m.resourceIds[i])
                 && r.value[i].tfResourceId == m.resourceIds[i]
                 && r.value[i].tfAddr == TFAddr(m.resourceType, TfResourceName(m, i, |m.resourceIds| == 1))
                 && r.value[i].tfAddrCache == r.value[i].tfAddr
                 && !r.value[i].isRecommended
  {
  }

  /** For azurerm and azapi, an id that does not parse fails the whole listing, naming the first such id. */
  lemma ListParseFailure(m: MetaResource, lib: Library, svc: Services, k: nat)
    requires m.providerName == AzureRM || m.providerName == AzAPI
    requires k < |m.resourceIds| && lib.parse(m.resourceIds[k]).Failure?
    requires forall i :: 0 <= i < k ==> lib.parse(m.resourceIds[i]).Success?
    ensures ListSpec(m, lib, svc) == Failure(ParseIdFailed(m.resourceIds[k], lib.parse(m.resourceIds[k]).error))
  {
    ParseIdsSpec(lib, m.resourceIds);
    var ids := m.resourceIds;
    var j :| 0 <= j < |ids| && lib.parse(ids[j]).Failure?
             && (forall i :: 0 <= i < j ==> lib.parse(ids[i]).Success?)
             && ParseIds(lib, ids).error == ParseIdFailed(ids[j], lib.parse(ids[j]).error);
    assert j == k;
  }

  /**
   * For azurerm and azapi, once every id parses, the listing yields one item per mapped resource,
   * in mapped order, or fails with the error of the first failing re-query.
   */
  lemma ListArmItems(m: MetaResource, lib: Library, svc: Services)
    requires m.providerName == AzureRM || m.providerName == AzAPI
    requires ParseIds(lib, m.resourceIds).Success?
    ensures var rl := MapResources(m, svc, ParseIds(lib, m.resourceIds).value);
            var r := ListSpec(m, lib, svc);
            && (r.Success? <==> forall i :: 0 <= i < |rl| ==> ArmItem(m, lib, svc, i, |rl|, rl[i]).Success?)
            && (r.Success? ==>
                  && |r.value| == |rl|
                  && forall i :: 0 <= i < |rl| ==> r.value[i] == ArmItem(m, lib, svc, i, |rl|, rl[i]).value)
  {
    var rl := MapResources(m, svc, ParseIds(lib, m.resourceIds).value);
    ArmItemsSpec(m, lib, svc, rl, |rl|);
  }

  /** Every listed item's address cache equals its address. */
  lemma ListAddressCache(m: MetaResource, lib: Library, svc: Services)
    ensures var r := ListSpec(m, lib, svc);
            r.Success? ==> forall i :: 0 <= i < |r.value| ==> r.value[i].tfAddrCache == r.value[i].tfAddr
  {
    if (m.providerName == AzureRM || m.providerName == AzAPI) && ParseIds(lib, m.resourceIds).Success? {
      var rl := MapResources(m, svc, ParseIds(lib, m.resourceIds).value);
      ListArmItems(m, lib, svc);
      forall i | 0 <= i < |rl| && ArmItem(m, lib, svc, i, |rl|, rl[i]).Success?
        ensures ArmItem(m, lib, svc, i, |rl|, rl[i]).value.tfAddrCache == ArmItem(m, lib, svc, i, |rl|, rl[i]).value.tfAddr
      {
        ArmItemFields(m, lib, svc, i, |rl|, rl[i]);
      }
    }
  }

  /** No two listed items share a TF address name. */
  lemma ListNamesDistinct(m: MetaResource, lib: Library, svc: Services)
    ensures var r := ListSpec(m, lib, svc);
            r.Success? ==> forall i, j :: 0 <= i < j < |r.value| ==> r.value[i].tfAddr.name != r.value[j].tfAddr.name
  {
    var r := ListSpec(m, lib, svc);
    if r.Success? {
      if m.providerName == AzureAD {
        forall i, j | 0 <= i < j < |r.value|
          ensures r.value[i].tfAddr.name != r.value[j].tfAddr.name
        {
          NamesDistinct(m, |m.resourceIds|, i, j);
        }
      } else {
        var rl := MapResources(m, svc, ParseIds(lib, m.resourceIds).value);
        ListArmItems(m, lib, svc);
        forall i, j | 0 <= i < j < |r.value|
          ensures r.value[i].tfAddr.name != r.value[j].tfAddr.name
        {
          ArmItemFields(m, lib, svc, i, |rl|, rl[i]);
          ArmItemFields(m, lib, svc, j, |rl|, rl[j]);
          NamesDistinct(m, |rl|, i, j);
        }
      }
    }
  }

  /** A provider other than azuread, azurerm and azapi is an error naming it. */
  lemma ListUnknownProvider(m: MetaResource, lib: Library, svc: Services)
    ensures ListSpec(m, lib, svc) == Failure(UnknownProvider(m.providerName)) <==>
            m.providerName != AzureAD && m.providerName != AzureRM && m.providerName != AzAPI
  {
    if m.providerName == AzureAD || m.providerName == AzureRM || m.providerName == AzAPI {
      ListNeverUnknown(m, lib, svc);
    }
  }

  /** The errors the known providers can return are parse and re-query errors only. */
  lemma ListNeverUnknown(m: MetaResource, lib: Library, svc: Services)
    requires m.providerName == AzureAD || m.providerName == AzureRM || m.providerName == AzAPI
    ensures ListSpec(m, lib, svc).Failure? ==> !ListSpec(m, lib, svc).error.UnknownProvider?
  {
    if m.providerName != AzureAD && ParseIds(lib, m.resourceIds).Success? {
      var rl := MapResources(m, svc, ParseIds(lib, m.resourceIds).value);
      ArmItemsSpec(m, lib, svc, rl, |rl|);
      if ArmItems(m, lib, svc, rl, |rl|).Failure? {
        var j :| 0 <= j < |rl| && ArmItem(m, lib, svc, j, |rl|, rl[j]).Failure?
                 && ArmItems(m, lib, svc, rl, |rl|).error == ArmItem(m, lib, svc, j, |rl|, rl[j]).error;
        ArmItemFields(m, lib, svc, j, |rl|, rl[j]);
      }
    } else if m.providerName != AzureAD {
      ParseIdsSpec(lib, m.resourceIds);
    }
  }
}
