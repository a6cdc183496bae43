/**
 * `AzureResourceSet`: the working list of discovered resources, which the populate and
 * reduce passes rewrite in place.
 */
module ResourceSet {
  import opened Wrappers
  import opened Strings
  import opened Armid
  import opened Resources
  import opened Reduce
  import opened Populate

  class AzureResourceSet {
    var resources: seq<AzureResource>

    constructor (rs: seq<AzureResource>)
      ensures resources == rs
    {
      resources := rs;
    }

    /**
     * `PopulateResource`: the VM pass, then the NIC pass; the first error is returned.
     * Both passes only append, so the original resources stay an unchanged prefix.
     */
    method PopulateResource(lib: Library, query: QueryId) returns (err: Option<Error>)
      modifies this
      ensures var o := PopulateOutcome(lib, query, old(resources));
              resources == old(resources) + o.added && err == o.err
      ensures |resources| >= |old(resources)| && resources[..|old(resources)|] == old(resources)
    {
      err := PopulateForVirtualMachine(lib, query);
      if err.Some? {
        return;
      }
      ghost var afterVm := resources;
      err := PopulateForNetworkInterfaces(lib, query);
      assert afterVm + RunPass(NetworkInterfacePass, lib, query, afterVm).added
          == old(resources) + (afterVm[|old(resources)|..] + RunPass(NetworkInterfacePass, lib, query, afterVm).added);
    }

    /** `ReduceResource`: the KeyVault certificate reduction; it never fails. */
    method ReduceResource() returns (err: Option<Error>)
      modifies this
      ensures err == None
      ensures IsReduction(old(resources), resources)
    {
      err := ReduceForKeyVaultCertificate();
    }

    /** `reduceForKeyVaultCertificate`: the scan with its `pending` map, then the leftovers. */
    method ReduceForKeyVaultCertificate() returns (err: Option<Error>)
      modifies this
      ensures err == None
      ensures IsReduction(old(resources), resources)
    {
      var rs := resources;
      var newResources: seq<AzureResource> := [];
      var pending: map<string, AzureResource> := map[];
      ghost var merges := 0;
      for i := 0 to |rs|
        invariant Scan(rs[..i]) == ReduceState(newResources, pending, merges)
      {
        ScanPrefixStep(rs, i);
        var res := rs[i];
        if !EqualFold(RouteScopeString(res.id), KeysRoute) && !EqualFold(RouteScopeString(res.id), SecretsRoute) {
          newResources := newResources + [res];
          continue;
        }
        var names := Names(res.id);
        var certName := names[|names| - 1];
        if certName !in pending {
          pending := pending[certName := res];
          continue;
        }
        pending := pending - {certName};
        var certId := WithLastType(res.id, CertificatesType);
        newResources := newResources + [Plain(certId)];
        merges := merges + 1;
      }
      assert rs[..|rs|] == rs;
      PendingKeyedByName(rs);
      resources := AppendPending(newResources, pending);
      return None;
    }

    /** `populateForVirtualMachine`: disks and disk attachments for each VM present at the start. */
    method PopulateForVirtualMachine(lib: Library, query: QueryId) returns (err: Option<Error>)
      modifies this
      ensures var o := RunPass(VirtualMachinePass, lib, query, old(resources));
              resources == old(resources) + o.added && err == o.err
    {
      err := RunPassInPlace(VirtualMachinePass, lib, query);
    }

    /** `populateForNetworkInterfaces`: NSG and backend-pool associations for each NIC present at the start. */
    method PopulateForNetworkInterfaces(lib: Library, query: QueryId) returns (err: Option<Error>)
      modifies this
      ensures var o := RunPass(NetworkInterfacePass, lib, query, old(resources));
              resources == old(resources) + o.added && err == o.err
    {
      err := RunPassInPlace(NetworkInterfacePass, lib, query);
    }

    /**
     * The loop both passes share: visit each resource present at the start, in order,
     * appending what it contributes; stop at the first error.
     */
    method RunPassInPlace(pass: Pass, lib: Library, query: QueryId) returns (err: Option<Error>)
      modifies this
      ensures var o := RunPass(pass, lib, query, old(resources));
              resources == old(resources) + o.added && err == o.err
    {
      var rs := resources;
      for i := 0 to |rs|
        invariant RunPass(pass, lib, query, rs[..i]).err == None
        invariant resources == rs + RunPass(pass, lib, query, rs[..i]).added
      {
        err := Visit(pass, lib, query, rs, i);
        if err.Some? {
          RunPassFailurePersists(pass, lib, query, rs, i + 1);
          return;
        }
      }
      assert rs[..|rs|] == rs;
      return None;
    }

    /** One loop body, by pass: visiting `rs[i]` extends the pass over `rs[..i]` to `rs[..i + 1]`. */
    method Visit(pass: Pass, lib: Library, query: QueryId, rs: seq<AzureResource>, i: nat) returns (err: Option<Error>)
      requires i < |rs|
      requires RunPass(pass, lib, query, rs[..i]).err == None
      requires resources == rs + RunPass(pass, lib, query, rs[..i]).added
      modifies this
      ensures resources == rs + RunPass(pass, lib, query, rs[..i + 1]).added
      ensures err == RunPass(pass, lib, query, rs[..i + 1]).err
    {
      RunPassPrefixStep(pass, lib, query, rs, i);
      var added: seq<AzureResource>;
      match pass {
        case VirtualMachinePass => added, err := VirtualMachineStep(lib, query, rs[i]);
        case NetworkInterfacePass => added, err := NetworkInterfaceStep(lib, query, rs[i]);
      }
      assert rs + RunPass(pass, lib, query, rs[..i]).added + added
          == rs + (RunPass(pass, lib, query, rs[..i]).added + added);
      resources := resources + added;
    }
  }
}