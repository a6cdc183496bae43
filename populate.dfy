/**
 * The populate passes of the resource set (`populateForVirtualMachine`,
 * `populateForNetworkInterfaces` and their helpers), as functions of the resources
 * present when a pass starts.
 *
 * A pass visits each resource in order; a resource of the pass's trigger type contributes
 * derived resources, appended at the end of the set; the first error stops the pass, and
 * whatever was appended before it stays appended.
 */
module Populate {
  import opened Wrappers
  import opened Strings
  import opened Armid
  import opened Resources

  const DataDisksPath: string := "properties.storageProfile.dataDisks.#.managedDisk.id"
  const NsgPath: string := "properties.networkSecurityGroup.id"
  const IpConfigsPath: string := "properties.ipConfigurations.#.id"

  /** The path of the backend pools of the `i`-th ip configuration. */
  function BapPath(i: nat): string {
    "properties.ipConfigurations." + NatToString(i) + ".properties.applicationGatewayBackendAddressPools.#.id"
  }

  const VmRoute: string := "/MICROSOFT.COMPUTE/VIRTUALMACHINES"
  const NicRoute: string := "/MICROSOFT.NETWORK/NETWORKINTERFACES"

  const LinuxVmType: string := "azurerm_linux_virtual_machine"
  const DiskAttachmentType: string := "azurerm_virtual_machine_data_disk_attachment"
  const NicType: string := "azurerm_network_interface"
  const NsgType: string := "azurerm_network_security_group"
  const NsgAssociationType: string := "azurerm_network_interface_security_group_association"
  const AppGwType: string := "azurerm_application_gateway"
  const BapAssociationType: string := "azurerm_network_interface_application_gateway_backend_address_pool_association"

  predicate IsVirtualMachine(id: ArmId) {
    ToUpper(RouteScopeString(id)) == VmRoute
  }

  predicate IsNetworkInterface(id: ArmId) {
    ToUpper(RouteScopeString(id)) == NicRoute
  }

  // ---- populateResourceByPath ----

  /** Parses every value as an ARM id, in order; the first value that does not parse is the error. */
  function ParseAll(lib: Library, values: seq<string>): (r: Result<seq<AzureResource>, Error>)
    ensures r.Failure? ==> r.error.ParseFailed?
    decreases |values|
  {
    if values == [] then Success([])
    else match ParseAll(lib, values[..|values| - 1])
      case Failure(e) => Failure(e)
      case Success(found) =>
        var last := values[|values| - 1];
        match lib.parse(last)
        case Failure(reason) => Failure(ParseFailed(last, reason))
        case Success(id) => Success(found + [Plain(id)])
  }

  /** The resources found under each path in turn; a path that does not exist contributes nothing. */
  function ByPath(lib: Library, doc: Document, paths: seq<string>): Result<seq<AzureResource>, Error>
    decreases |paths|
  {
    if paths == [] then Success([])
    else match ByPath(lib, doc, paths[..|paths| - 1])
      case Failure(e) => Failure(e)
      case Success(found) =>
        var path := paths[|paths| - 1];
        if path !in doc then Success(found)
        else match ParseAll(lib, doc[path])
          case Failure(e) => Failure(e)
          case Success(more) => Success(found + more)
  }

  lemma {:induction false} ParseAllFailurePersists(lib: Library, values: seq<string>, j: nat)
    requires j <= |values| && ParseAll(lib, values[..j]).Failure?
    ensures ParseAll(lib, values) == ParseAll(lib, values[..j])
    decreases |values| - j
  {
    if j < |values| {
      assert values[..j + 1][..j] == values[..j];
      ParseAllFailurePersists(lib, values, j + 1);
    } else {
      assert values[..j] == values;
    }
  }

  lemma {:induction false} ByPathFailurePersists(lib: Library, doc: Document, paths: seq<string>, i: nat)
    requires i <= |paths| && ByPath(lib, doc, paths[..i]).Failure?
    ensures ByPath(lib, doc, paths) == ByPath(lib, doc, paths[..i])
    decreases |paths| - i
  {
    if i < |paths| {
      assert paths[..i + 1][..i] == paths[..i];
      ByPathFailurePersists(lib, doc, paths, i + 1);
    } else {
      assert paths[..i] == paths;
    }
  }

  /** `populateResourceByPath`: the loops over the paths and over the values found at each. */
  method PopulateResourceByPath(lib: Library, res: AzureResource, paths: seq<string>)
    returns (r: Result<seq<AzureResource>, Error>)
    ensures r == ByPath(lib, res.properties, paths)
  {
    var resources: seq<AzureResource> := [];
    for i := 0 to |paths|
      invariant ByPath(lib, res.properties, paths[..i]) == Success(resources)
    {
      assert paths[..i + 1][..i] == paths[..i];
      var path := paths[i];
      if path !in res.properties {
        continue;
      }
      var values := res.properties[path];
      ghost var found := resources;
      for j := 0 to |values|
        invariant ParseAll(lib, values[..j]).Success?
        invariant resources == found + ParseAll(lib, values[..j]).value
      {
        assert values[..j + 1][..j] == values[..j];
        var mid := values[j];
        var id := lib.parse(mid);
        if id.Failure? {
          ParseAllFailurePersists(lib, values, j + 1);
          ByPathFailurePersists(lib, res.properties, paths, i + 1);
          return Failure(ParseFailed(mid, id.error));
        }
        resources := resources + [Plain(id.value)];
      }
      assert values[..|values|] == values;
    }
    assert paths[..|paths|] == paths;
    return Success(resources);
  }

  /**
   * Every value is parsed: the query succeeds exactly when every value is an ARM id, and then
   * yields one plain resource per value, in order; otherwise the error names the first value
   * that is not.
   */
  lemma {:induction false} ParseAllSpec(lib: Library, values: seq<string>)
    ensures ParseAll(lib, values).Success? <==> forall i :: 0 <= i < |values| ==> lib.parse(values[i]).Success?
    ensures ParseAll(lib, values).Success? ==>
      && |ParseAll(lib, values).value| == |values|
      && forall i :: 0 <= i < |values| ==> ParseAll(lib, values).value[i] == Plain(lib.parse(values[i]).value)
    ensures ParseAll(lib, values).Failure? ==>
      exists i :: && 0 <= i < |values|
                  && (forall j :: 0 <= j < i ==> lib.parse(values[j]).Success?)
                  && lib.parse(values[i]).Failure?
                  && ParseAll(lib, values).error == ParseFailed(values[i], lib.parse(values[i]).error)
    decreases |values|
  {
    if values != [] {
      var init := values[..|values| - 1];
      ParseAllSpec(lib, init);
      assert forall i :: 0 <= i < |init| ==> init[i] == values[i];
    }
  }

  /** Paths that do not exist in the document contribute nothing. */
  lemma {:induction false} ByPathMissing(lib: Library, doc: Document, paths: seq<string>)
    requires forall i :: 0 <= i < |paths| ==> paths[i] !in doc
    ensures ByPath(lib, doc, paths) == Success([])
    decreases |paths|
  {
    if paths != [] {
      ByPathMissing(lib, doc, paths[..|paths| - 1]);
    }
  }

  /** With one path, the query is that path's values parsed, or nothing when it is missing. */
  lemma ByPathSingle(lib: Library, doc: Document, path: string)
    ensures ByPath(lib, doc, [path]) == if path in doc then ParseAll(lib, doc[path]) else Success([])
  {
    assert [path][..0] == [];
    if path in doc {
      match ParseAll(lib, doc[path])
      case Failure(e) =>
      case Success(more) => assert [] + more == more;
    }
  }

  // ---- populateForVirtualMachine ----

  /** What handling one resource appends, and the error that stops the pass, if any. */
  datatype Outcome = Outcome(added: seq<AzureResource>, err: Option<Error>)

  /** The attachment of a managed disk to a VM: `<vm id>/dataDisks/<disk name>`. */
  function DiskAttachment(vm: ArmId, vmTFId: string, disk: AzureResource): AzureResource {
    var diskName := Names(disk.id)[0];
    Pseudo(Extend(vm, "dataDisks", diskName), DiskAttachmentType, vmTFId + "/dataDisks/" + diskName)
  }

  function DiskAttachments(vm: ArmId, vmTFId: string, disks: seq<AzureResource>): seq<AzureResource> {
    seq(|disks|, i requires 0 <= i < |disks| => DiskAttachment(vm, vmTFId, disks[i]))
  }

  /**
   * One VM: its managed disks, then one attachment per disk. The VM's TF id is queried once
   * per disk, before that disk's attachment; the first failure stops with only the disks added.
   */
  function VirtualMachineContribution(lib: Library, query: QueryId, res: AzureResource): Outcome {
    if !IsVirtualMachine(res.id) then Outcome([], None)
    else match ByPath(lib, res.properties, [DataDisksPath])
      case Failure(e) => Outcome([], Some(e))
      case Success(disks) =>
        if disks == [] then Outcome([], None)
        else match query(lib.str(res.id), LinuxVmType)
          case Failure(reason) => Outcome(disks, Some(QueryFailed(lib.str(res.id), LinuxVmType, reason)))
          case Success(vmTFId) => Outcome(disks + DiskAttachments(res.id, vmTFId, disks), None)
  }

  /**
   * For `n` managed disks a VM contributes `2n` resources: the `n` disks, then `n` attachments,
   * the `i`-th of type `azurerm_virtual_machine_data_disk_attachment`, TF id
   * `<vm TF id>/dataDisks/<disk name>` and id `<vm id>/dataDisks/<disk name>`.
   */
  lemma VirtualMachineShape(lib: Library, query: QueryId, res: AzureResource, disks: seq<AzureResource>, vmTFId: string)
    requires IsVirtualMachine(res.id)
    requires ByPath(lib, res.properties, [DataDisksPath]) == Success(disks)
    requires query(lib.str(res.id), LinuxVmType) == Success(vmTFId)
    ensures var added := VirtualMachineContribution(lib, query, res).added;
      && VirtualMachineContribution(lib, query, res).err == None
      && |added| == 2 * |disks|
      && added[..|disks|] == disks
      && forall i :: 0 <= i < |disks| ==>
           var diskName := Names(disks[i].id)[0];
           && added[|disks| + i].pseudo == Some(PseudoResourceInfo(DiskAttachmentType, vmTFId + "/dataDisks/" + diskName))
           && added[|disks| + i].id == Extend(res.id, "dataDisks", diskName)
           && added[|disks| + i].properties == map[]
  {
  }

  // ---- populateForNetworkInterfaces ----

  /**
   * `networkInterfacePopulateNSGAssociation`: one association when exactly one NSG is found,
   * none (and no error) otherwise.
   */
  function NsgAssociation(lib: Library, query: QueryId, res: AzureResource): (r: Result<seq<AzureResource>, Error>)
    ensures r.Success? ==> |r.value| <= 1
  {
    match ByPath(lib, res.properties, [NsgPath])
    case Failure(e) => Failure(e)
    case Success(nsgs) =>
      if |nsgs| != 1 then Success([])
      else
        var nsg := nsgs[0];
        match query(lib.str(res.id), NicType)
        case Failure(reason) => Failure(QueryFailed(lib.str(res.id), NicType, reason))
        case Success(nicTFId) =>
          match query(lib.str(nsg.id), NsgType)
          case Failure(reason) => Failure(QueryFailed(lib.str(nsg.id), NsgType, reason))
          case Success(nsgTFId) =>
            Success([Pseudo(Extend(res.id, "networkSecurityGroups", Names(nsg.id)[0]), NsgAssociationType,
                            nicTFId + "|" + nsgTFId)])
  }

  /**
   * What `NsgAssociation` yields: a path error is passed on; anything but exactly one NSG gives
   * no association and no error; with exactly one NSG, a failed NIC or NSG query is the error,
   * and otherwise there is one association whose id is `<nic id>/networkSecurityGroups/<nsg name>`
   * and whose TF id joins the NIC's and the NSG's TF ids with `|`.
   */
  lemma NsgAssociationSpec(lib: Library, query: QueryId, res: AzureResource)
    ensures var r := NsgAssociation(lib, query, res);
            var found := ByPath(lib, res.properties, [NsgPath]);
            && (r.Success? ==> |r.value| <= 1)
            && (found.Failure? ==> r == Failure(found.error))
            && (found.Success? && |found.value| != 1 ==> r == Success([]))
            && (r.Success? && r.value != [] ==>
                  var nsg := found.value[0];
                  && |found.value| == 1
                  && query(lib.str(res.id), NicType).Success?
                  && query(lib.str(nsg.id), NsgType).Success?
                  && r.value[0] == Pseudo(Extend(res.id, "networkSecurityGroups", Names(nsg.id)[0]), NsgAssociationType,
                                          query(lib.str(res.id), NicType).value + "|" + query(lib.str(nsg.id), NsgType).value))
            && (found.Success? && |found.value| == 1 ==>
                  var nsg := found.value[0];
                  var nicTFId := query(lib.str(res.id), NicType);
                  var nsgTFId := query(lib.str(nsg.id), NsgType);
                  && (nicTFId.Failure? ==> r == Failure(QueryFailed(lib.str(res.id), NicType, nicTFId.error)))
                  && (nicTFId.Success? && nsgTFId.Failure? ==> r == Failure(QueryFailed(lib.str(nsg.id), NsgType, nsgTFId.error)))
                  && (nicTFId.Success? && nsgTFId.Success? ==>
                        r == Success([Pseudo(Extend(res.id, "networkSecurityGroups", Names(nsg.id)[0]), NsgAssociationType,
                                             nicTFId.value + "|" + nsgTFId.value)])))
  {
  }

  /** The association of an ip configuration with an App Gateway backend pool. */
  function PoolAssociation(nicTFId: string, ipConfig: AzureResource, bap: AzureResource, appGwTFId: string): AzureResource
    requires |Names(ipConfig.id)| > 1 && |Names(bap.id)| > 1
  {
    Pseudo(Extend(ipConfig.id, "backendAddressPools", Names(bap.id)[1]), BapAssociationType,
           nicTFId + "/ipConfigurations/" + Names(ipConfig.id)[1] + "|" + appGwTFId + "/backendAddressPools/" + Names(bap.id)[1])
  }

  /** One backend pool: look up its gateway (the pool's parent) and build the association. */
  function PoolAssociationFor(lib: Library, query: QueryId, nicTFId: string, ipConfig: AzureResource, bap: AzureResource)
    : Result<AzureResource, Error>
  {
    match lib.parent(bap.id)
    case None => Failure(NilParent(bap.id))
    case Some(gw) =>
      match query(lib.str(gw), AppGwType)
      case Failure(reason) => Failure(QueryFailed(lib.str(gw), AppGwType, reason))
      case Success(appGwTFId) =>
        if |Names(bap.id)| < 2 then Failure(IndexOutOfRange(bap.id))
        else if |Names(ipConfig.id)| < 2 then Failure(IndexOutOfRange(ipConfig.id))
        else Success(PoolAssociation(nicTFId, ipConfig, bap, appGwTFId))
  }

  /** The inner loop: the associations of one ip configuration, pool by pool. */
  function PoolAssociations(lib: Library, query: QueryId, nicTFId: string, ipConfig: AzureResource, baps: seq<AzureResource>)
    : Result<seq<AzureResource>, Error>
    decreases |baps|
  {
    if baps == [] then Success([])
    else match PoolAssociations(lib, query, nicTFId, ipConfig, baps[..|baps| - 1])
      case Failure(e) => Failure(e)
      case Success(out) =>
        match PoolAssociationFor(lib, query, nicTFId, ipConfig, baps[|baps| - 1])
        case Failure(e) => Failure(e)
        case Success(a) => Success(out + [a])
  }

  /** The outer loop over the first `n` ip configurations. */
  function ConfigAssociations(lib: Library, query: QueryId, res: AzureResource, nicTFId: string,
                              ipConfigs: seq<AzureResource>, n: nat): Result<seq<AzureResource>, Error>
    requires n <= |ipConfigs|
    decreases n
  {
    if n == 0 then Success([])
    else match ConfigAssociations(lib, query, res, nicTFId, ipConfigs, n - 1)
      case Failure(e) => Failure(e)
      case Success(out) =>
        match ByPath(lib, res.properties, [BapPath(n - 1)])
        case Failure(e) => Failure(e)
        case Success(baps) =>
          match PoolAssociations(lib, query, nicTFId, ipConfigs[n - 1], baps)
          case Failure(e) => Failure(e)
          case Success(more) => Success(out + more)
  }

  /**
   * `networkInterfacePopulateApplicationGatewayBackendAddressPoolAssociation`: the NIC's TF id
   * is queried first (even when there is nothing to associate), then every pool of every ip
   * configuration gets an association, in order.
   */
  function BapAssociations(lib: Library, query: QueryId, res: AzureResource): Result<seq<AzureResource>, Error> {
    match query(lib.str(res.id), NicType)
    case Failure(reason) => Failure(QueryFailed(lib.str(res.id), NicType, reason))
    case Success(nicTFId) =>
      match ByPath(lib, res.properties, [IpConfigsPath])
      case Failure(e) => Failure(e)
      case Success(ipConfigs) => ConfigAssociations(lib, query, res, nicTFId, ipConfigs, |ipConfigs|)
  }

  lemma {:induction false} PoolAssociationsFailurePersists(lib: Library, query: QueryId, nicTFId: string,
                                                           ipConfig: AzureResource, baps: seq<AzureResource>, j: nat)
    requires j <= |baps| && PoolAssociations(lib, query, nicTFId, ipConfig, baps[..j]).Failure?
    ensures PoolAssociations(lib, query, nicTFId, ipConfig, baps) == PoolAssociations(lib, query, nicTFId, ipConfig, baps[..j])
    decreases |baps| - j
  {
    if j < |baps| {
      assert baps[..j + 1][..j] == baps[..j];
      PoolAssociationsFailurePersists(lib, query, nicTFId, ipConfig, baps, j + 1);
    } else {
      assert baps[..j] == baps;
    }
  }

  lemma {:induction false} ConfigAssociationsFailurePersists(lib: Library, query: QueryId, res: AzureResource, nicTFId: string,
                                                             ipConfigs: seq<AzureResource>, i: nat, n: nat)
    requires i <= n <= |ipConfigs| && ConfigAssociations(lib, query, res, nicTFId, ipConfigs, i).Failure?
    ensures ConfigAssociations(lib, query, res, nicTFId, ipConfigs, n) == ConfigAssociations(lib, query, res, nicTFId, ipConfigs, i)
    decreases n - i
  {
    if i < n {
      ConfigAssociationsFailurePersists(lib, query, res, nicTFId, ipConfigs, i, n - 1);
    }
  }

  /** The inner loop of the Go helper: the pools of one ip configuration. */
  method PopulatePoolAssociations(lib: Library, query: QueryId, nicTFId: string, ipConfig: AzureResource,
                                  baps: seq<AzureResource>) returns (r: Result<seq<AzureResource>, Error>)
    ensures r == PoolAssociations(lib, query, nicTFId, ipConfig, baps)
  {
    var out: seq<AzureResource> := [];
    for j := 0 to |baps|
      invariant PoolAssociations(lib, query, nicTFId, ipConfig, baps[..j]) == Success(out)
    {
      assert baps[..j + 1][..j] == baps[..j];
      var a := PoolAssociationFor(lib, query, nicTFId, ipConfig, baps[j]);
      if a.Failure? {
        PoolAssociationsFailurePersists(lib, query, nicTFId, ipConfig, baps, j + 1);
        return Failure(a.error);
      }
      out := out + [a.value];
    }
    assert baps[..|baps|] == baps;
    return Success(out);
  }

  /** The Go helper itself: a query, then the loop over the ip configurations accumulating `out`. */
  method PopulateBapAssociations(lib: Library, query: QueryId, res: AzureResource)
    returns (r: Result<seq<AzureResource>, Error>)
    ensures r == BapAssociations(lib, query, res)
  {
    var nic := query(lib.str(res.id), NicType);
    if nic.Failure? {
      return Failure(QueryFailed(lib.str(res.id), NicType, nic.error));
    }
    var nicTFId := nic.value;
    var found := PopulateResourceByPath(lib, res, [IpConfigsPath]);
    if found.Failure? {
      return Failure(found.error);
    }
    var ipConfigs := found.value;
    var out: seq<AzureResource> := [];
    for i := 0 to |ipConfigs|
      invariant ConfigAssociations(lib, query, res, nicTFId, ipConfigs, i) == Success(out)
    {
      var pools := PopulateResourceByPath(lib, res, [BapPath(i)]);
      if pools.Failure? {
        ConfigAssociationsFailurePersists(lib, query, res, nicTFId, ipConfigs, i + 1, |ipConfigs|);
        return Failure(pools.error);
      }
      var more := PopulatePoolAssociations(lib, query, nicTFId, ipConfigs[i], pools.value);
      if more.Failure? {
        ConfigAssociationsFailurePersists(lib, query, res, nicTFId, ipConfigs, i + 1, |ipConfigs|);
        return Failure(more.error);
      }
      out := out + more.value;
    }
    return Success(out);
  }

  /**
   * Each backend pool of an ip configuration yields exactly one association, in pool order,
   * with TF id `<nic TF id>/ipConfigurations/<ip config name>|<gateway TF id>/backendAddressPools/<pool name>`
   * and id `<ip config id>/backendAddressPools/<pool name>`.
   */
  lemma {:induction false} PoolAssociationsShape(lib: Library, query: QueryId, nicTFId: string,
                                                 ipConfig: AzureResource, baps: seq<AzureResource>)
    requires PoolAssociations(lib, query, nicTFId, ipConfig, baps).Success?
    ensures var out := PoolAssociations(lib, query, nicTFId, ipConfig, baps).value;
      && |out| == |baps|
      && forall j :: 0 <= j < |baps| ==>
           && lib.parent(baps[j].id).Some?
           && query(lib.str(lib.parent(baps[j].id).value), AppGwType).Success?
           && |Names(baps[j].id)| > 1 && |Names(ipConfig.id)| > 1
           && out[j].id == Extend(ipConfig.id, "backendAddressPools", Names(baps[j].id)[1])
           && out[j].pseudo == Some(PseudoResourceInfo(BapAssociationType,
                nicTFId + "/ipConfigurations/" + Names(ipConfig.id)[1] + "|"
                + query(lib.str(lib.parent(baps[j].id).value), AppGwType).value
                + "/backendAddressPools/" + Names(baps[j].id)[1]))
    decreases |baps|
  {
    if baps != [] {
      var init := baps[..|baps| - 1];
      PoolAssociationsShape(lib, query, nicTFId, ipConfig, init);
      assert forall j :: 0 <= j < |init| ==> init[j] == baps[j];
    }
  }

  /**
   * One NIC: its NSG association (if any) is appended first, then its backend-pool
   * associations; an NSG failure adds nothing, a backend-pool failure keeps the NSG part.
   */
  function NetworkInterfaceContribution(lib: Library, query: QueryId, res: AzureResource): Outcome {
    if !IsNetworkInterface(res.id) then Outcome([], None)
    else match NsgAssociation(lib, query, res)
      case Failure(e) => Outcome([], Some(e))
      case Success(nsg) =>
        match BapAssociations(lib, query, res)
        case Failure(e) => Outcome(nsg, Some(e))
        case Success(baps) => Outcome(nsg + baps, None)
  }

  /**
   * The VM loop body for one resource: its disks, then one attachment per disk, with the
   * VM's TF id queried for each disk in turn.
   */
  method VirtualMachineStep(lib: Library, query: QueryId, res: AzureResource)
    returns (added: seq<AzureResource>, err: Option<Error>)
    ensures Outcome(added, err) == VirtualMachineContribution(lib, query, res)
  {
    if !IsVirtualMachine(res.id) {
      return [], None;
    }
    var found := PopulateResourceByPath(lib, res, [DataDisksPath]);
    if found.Failure? {
      return [], Some(found.error);
    }
    var disks := found.value;
    added := disks;
    for j := 0 to |disks|
      invariant j > 0 ==> query(lib.str(res.id), LinuxVmType).Success?
      invariant added == disks + (if j == 0 then [] else DiskAttachments(res.id, query(lib.str(res.id), LinuxVmType).value, disks[..j]))
    {
      var diskName := Names(disks[j].id)[0];
      var vmTFId := query(lib.str(res.id), LinuxVmType);
      if vmTFId.Failure? {
        return added, Some(QueryFailed(lib.str(res.id), LinuxVmType, vmTFId.error));
      }
      var azureId := Extend(res.id, "dataDisks", diskName);
      DiskAttachmentsStep(res.id, vmTFId.value, disks, j);
      added := added + [Pseudo(azureId, DiskAttachmentType, vmTFId.value + "/dataDisks/" + diskName)];
    }
    assert disks[..|disks|] == disks;
    return added, None;
  }

  /** The attachments of one more disk: those of the disks before it, then its own. */
  lemma DiskAttachmentsStep(vm: ArmId, vmTFId: string, disks: seq<AzureResource>, j: nat)
    requires j < |disks|
    ensures DiskAttachments(vm, vmTFId, disks[..j + 1])
         == DiskAttachments(vm, vmTFId, disks[..j]) + [DiskAttachment(vm, vmTFId, disks[j])]
  {
    assert disks[..j + 1][..j] == disks[..j];
  }

  /** The NIC loop body for one resource: its NSG association, then its backend-pool associations. */
  method NetworkInterfaceStep(lib: Library, query: QueryId, res: AzureResource)
    returns (added: seq<AzureResource>, err: Option<Error>)
    ensures Outcome(added, err) == NetworkInterfaceContribution(lib, query, res)
  {
    if !IsNetworkInterface(res.id) {
      return [], None;
    }
    var nsgAssociations := NsgAssociation(lib, query, res);
    if nsgAssociations.Failure? {
      return [], Some(nsgAssociations.error);
    }
    added := nsgAssociations.value;
    var bapAssociations := PopulateBapAssociations(lib, query, res);
    if bapAssociations.Failure? {
      return added, Some(bapAssociations.error);
    }
    return added + bapAssociations.value, None;
  }

  // ---- the passes ----

  datatype Pass = VirtualMachinePass | NetworkInterfacePass

  function Contribution(pass: Pass, lib: Library, query: QueryId, res: AzureResource): Outcome {
    match pass
    case VirtualMachinePass => VirtualMachineContribution(lib, query, res)
    case NetworkInterfacePass => NetworkInterfaceContribution(lib, query, res)
  }

  predicate Triggers(pass: Pass, id: ArmId) {
    match pass
    case VirtualMachinePass => IsVirtualMachine(id)
    case NetworkInterfacePass => IsNetworkInterface(id)
  }

  /** Outcomes taken in order, stopping at the first one that carries an error. */
  function Chain(os: seq<Outcome>): Outcome
    decreases |os|
  {
    if os == [] then Outcome([], None)
    else
      var o := Chain(os[..|os| - 1]);
      if o.err.Some? then o
      else Outcome(o.added + os[|os| - 1].added, os[|os| - 1].err)
  }

  function Contributions(pass: Pass, lib: Library, query: QueryId, rs: seq<AzureResource>): seq<Outcome> {
    seq(|rs|, i requires 0 <= i < |rs| => Contribution(pass, lib, query, rs[i]))
  }

  /** A pass over the resources `rs` present when it starts; it stops at the first error. */
  function RunPass(pass: Pass, lib: Library, query: QueryId, rs: seq<AzureResource>): Outcome {
    Chain(Contributions(pass, lib, query, rs))
  }

  /** `PopulateResource`: the VM pass, then (unless it failed) the NIC pass over the grown set. */
  function PopulateOutcome(lib: Library, query: QueryId, rs: seq<AzureResource>): Outcome {
    var vm := RunPass(VirtualMachinePass, lib, query, rs);
    if vm.err.Some? then vm
    else
      var nic := RunPass(NetworkInterfacePass, lib, query, rs + vm.added);
      Outcome(vm.added + nic.added, nic.err)
  }

  lemma RunPassPrefixStep(pass: Pass, lib: Library, query: QueryId, rs: seq<AzureResource>, i: nat)
    requires i < |rs|
    ensures RunPass(pass, lib, query, rs[..i + 1])
         == var o := RunPass(pass, lib, query, rs[..i]);
            if o.err.Some? then o
            else Outcome(o.added + Contribution(pass, lib, query, rs[i]).added, Contribution(pass, lib, query, rs[i]).err)
  {
    var os := Contributions(pass, lib, query, rs[..i + 1]);
    assert os[..i] == Contributions(pass, lib, query, rs[..i]);
  }

  lemma {:induction false} ChainAppend(a: seq<Outcome>, b: seq<Outcome>)
    ensures Chain(a + b)
         == if Chain(a).err.Some? then Chain(a) else Outcome(Chain(a).added + Chain(b).added, Chain(b).err)
    decreases |b|
  {
    if b == [] {
      assert a + b == a;
    } else {
      assert (a + b)[..|a + b| - 1] == a + b[..|b| - 1];
      ChainAppend(a, b[..|b| - 1]);
    }
  }

  /**
   * A pass handles the set piece by piece: over `a + b` it does what it does over `a`, and,
   * when that did not fail, continues with what it does over `b`.
   */
  lemma RunPassAppend(pass: Pass, lib: Library, query: QueryId, a: seq<AzureResource>, b: seq<AzureResource>)
    ensures RunPass(pass, lib, query, a + b)
         == var oa := RunPass(pass, lib, query, a);
            if oa.err.Some? then oa
            else Outcome(oa.added + RunPass(pass, lib, query, b).added, RunPass(pass, lib, query, b).err)
  {
    assert Contributions(pass, lib, query, a + b)
        == Contributions(pass, lib, query, a) + Contributions(pass, lib, query, b);
    ChainAppend(Contributions(pass, lib, query, a), Contributions(pass, lib, query, b));
  }

  /** Once a pass has failed on a prefix of the set, the rest of the set is not visited. */
  lemma RunPassFailurePersists(pass: Pass, lib: Library, query: QueryId, rs: seq<AzureResource>, j: nat)
    requires j <= |rs| && RunPass(pass, lib, query, rs[..j]).err.Some?
    ensures RunPass(pass, lib, query, rs) == RunPass(pass, lib, query, rs[..j])
  {
    assert rs == rs[..j] + rs[j..];
    RunPassAppend(pass, lib, query, rs[..j], rs[j..]);
  }

  lemma {:induction false} ChainOfNothing(os: seq<Outcome>)
    requires forall i :: 0 <= i < |os| ==> os[i] == Outcome([], None)
    ensures Chain(os) == Outcome([], None)
    decreases |os|
  {
    if os != [] {
      ChainOfNothing(os[..|os| - 1]);
    }
  }

  /** Only resources of the trigger type contribute: otherwise a pass appends nothing and cannot fail. */
  lemma RunPassNoTrigger(pass: Pass, lib: Library, query: QueryId, rs: seq<AzureResource>)
    requires forall i :: 0 <= i < |rs| ==> !Triggers(pass, rs[i].id)
    ensures RunPass(pass, lib, query, rs) == Outcome([], None)
  {
    ChainOfNothing(Contributions(pass, lib, query, rs));
  }

  /**
   * Synthesized resources carry no properties, so they never yield disks or an NSG association;
   * a VM pass over them adds nothing.
   */
  lemma WithoutPropertiesNoDisksNoNsg(lib: Library, query: QueryId, res: AzureResource)
    requires res.properties == map[]
    ensures VirtualMachineContribution(lib, query, res) == Outcome([], None)
    ensures NsgAssociation(lib, query, res) == Success([])
  {
    ByPathSingle(lib, res.properties, DataDisksPath);
    ByPathSingle(lib, res.properties, NsgPath);
  }
}
