# aztfexport resource-set core, in Dafny

This project models four deterministic parts of aztfexport's mapping from Azure resources to Terraform import items.

- **The resource-set rewrite passes** (`AzureResourceSet`):
  - `ReduceResource` scans the set in order and merges any two KeyVault halves (keys or secrets) that share a trailing name into one `certificates` resource. Pairing looks at the trailing name alone, so two keys, or halves from different vaults, pair just as a key and a secret do.
  - `PopulateResource` appends derived resources in place: the managed disks of VMs and their disk attachments, then the NSG associations and App Gateway backend-pool associations of NICs.
- **The import-list assembly of the resource-id scope** (`MetaResource`):
  - `ScopeName` and `tfResourceName`.
  - `ListResource`, for the azuread provider directly from the ids, and for azurerm/azapi through the TF mapper. It covers index-based naming, the `IsRecommended` flag and the re-query for an overriding resource type.
- **`NewMeta`**: validation of platform and provider, then a first-match choice of the scope strategy.
- **The two resource-id variants**, ARM and MS Graph, behind the `AzureResourceId` interface.

Modules:

- `Wrappers`: the `Option` and `Result` datatypes, and `Collect`, which gathers a sequence of results into one, stopping at the first failure.
- `Strings`: ASCII case mapping and decimal formatting of indexes.
- `Armid`: the ARM id.
  - The scoped id is its parent scope (kept as the opaque text of the subscription or resource group id), a provider namespace, and parallel attribute type and name sequences.
  - The library calls that are not modelled (parse, canonical string, type string, parent, parent scope, equality) are a `Library` value that is passed in.
- `Resources`: `AzureResource`, `TFResource`, the abstract properties document and the errors of the passes.
- `ResourceId`: the two-variant id.
- `Reduce`: the KeyVault certificate scan.
  - `IsReduction(input, output)` says which outputs the pass may produce. Go's map iteration leaves the order of the leftover halves open.
- `Populate`: the populate passes, as functions of the resources present when a pass starts.
  - Each has a loop-by-loop method proved equal to its function.
- `ResourceSet`: the `AzureResourceSet` class, whose methods rewrite its `resources` field.
- `Meta`: `MetaResource`'s `ScopeName`, `tfResourceName` and `ListResource`.
- `MetaSelect`: `NewMeta`.

Collaborators whose code is not visible are function values passed as parameters:

- `armid`'s parser and id methods;
- `aztft.QueryId`, both without and with API access;
- the azurerm and azapi TF mappers.

Every result is therefore stated in terms of what those collaborators return.

A JSON properties document, evaluated by gjson path queries, is a map from path to the string values found there. A path that does not exist is not a key.

A Go panic on a path the code does not guard is an error value:

- `Parent()` on an id that has none is `NilParent`;
- a one-name id indexed at `[1]` is `IndexOutOfRange`.

Where the system's documented behaviour departs from its code, the model follows the code:

- A second `PopulateResource` over its own output re-visits the same VMs and NICs and appends their derived resources again. It is not idempotent.
- A disk list is appended before a later `QueryId` failure returns. It is not atomic.
- `NewMeta` does not check that the scope fields are mutually exclusive. The first field set wins and later fields are ignored (`MetaSelect.LaterScopesIgnored`).

## Model

| member | source | states |
|---|---|---|
| ResourceSet.AzureResourceSet.PopulateResource | internal/resourceset/azure_resource_set_hack.go:23-31 | The new set is the old set followed by what the VM pass adds and then what the NIC pass adds. The NIC pass runs over the grown set. The first error is returned and stops the rest. The old resources stay an unchanged prefix. |
| ResourceSet.AzureResourceSet.ReduceResource | internal/resourceset/azure_resource_set_hack.go:34-41 | It never fails. The new set is a reduction of the old one. |
| ResourceSet.AzureResourceSet.ReduceForKeyVaultCertificate | internal/resourceset/azure_resource_set_hack.go:43-69 | It never fails. The new set is the scan's emitted resources, in order, followed by exactly the still-pending halves, in some order (a multiset). |
| Reduce.AppendPending | internal/resourceset/azure_resource_set_hack.go:64-66 | It appends every pending half exactly once after the emitted resources and changes nothing before them. |
| Reduce.ReduceCount | internal/resourceset/azure_resource_set_hack.go:46-66 | Every input resource is emitted, left pending, or one of a merged pair. Each pair yields one certificate. |
| Reduce.ReductionLength | internal/resourceset/azure_resource_set_hack.go:57-67 | The output length is the input length minus the number of merges. |
| Reduce.ReduceWithoutHalves | internal/resourceset/azure_resource_set_hack.go:46-49 | An input without keys or secrets has exactly one reduction: itself, unchanged and in order. |
| Reduce.PassThroughAround | internal/resourceset/azure_resource_set_hack.go:46-49 | Resources that are not halves and stand before or after a stretch are copied around that stretch's result, keeping their relative order. |
| Reduce.PassThroughAt | internal/resourceset/azure_resource_set_hack.go:46-49 | Wherever it stands, even between two halves, a resource that is not a half is emitted unchanged. It comes right after what the resources before it emitted, and what the resources after it emit follows it. |
| Reduce.PendingParity | internal/resourceset/azure_resource_set_hack.go:51-57 | A name is left pending exactly when an odd number of halves carry it as their trailing name, whatever vault or kind they come from. |
| Reduce.PairBecomesCertificate | internal/resourceset/azure_resource_set_hack.go:51-62 | The set of just two halves with the same trailing name has exactly one reduction: the later id with its last type set to `certificates`, with no properties and no pseudo info. |
| Reduce.FirstHalfAt | internal/resourceset/azure_resource_set_hack.go:51-55 | After any prefix, a half whose trailing name is not pending is filed under that name and emits nothing. Nothing else in the state changes. |
| Reduce.PairAt | internal/resourceset/azure_resource_set_hack.go:51-62 | After any prefix, a half whose trailing name is pending removes that entry, emits exactly one resource, the certificate made from this later half, and counts one merge. |
| Reduce.LoneHalfPassesThrough | internal/resourceset/azure_resource_set_hack.go:53-66 | A set holding only one half reduces to exactly that half. |
| Reduce.UniqueHalfPassesThrough | internal/resourceset/azure_resource_set_hack.go:51-66 | In any set, a half whose trailing name no other half carries is not emitted by the scan. It is held pending and is among the leftovers appended unchanged. |
| Reduce.PendingKeyedByName | internal/resourceset/azure_resource_set_hack.go:51-55 | Every pending entry is a half of the input, filed under its own trailing name. |
| Reduce.EmittedHasNoHalves | internal/resourceset/azure_resource_set_hack.go:46-62 | The scan never emits a key or a secret. |
| Reduce.CertificateIsNotHalf | internal/resourceset/azure_resource_set_hack.go:58-59 | A merged id, with `certificates` as its last type, is neither a key nor a secret. |
| Reduce.ReduceIdempotent | internal/resourceset/azure_resource_set_hack.go:43-69 | Reducing any output of the pass again emits the same resources, leaves the same halves pending and merges nothing. The second run allows exactly the outputs the first one allowed. |
| Populate.PopulateResourceByPath | internal/resourceset/azure_resource_set_hack.go:214-238 | The path and value loops compute `ByPath`: paths in order, values in array order, and the first parse failure as the error. |
| Populate.ParseAllSpec | internal/resourceset/azure_resource_set_hack.go:226-235 | It succeeds exactly when every value parses as an ARM id. It then yields one plain resource per value, in order. Otherwise the error names the first value that does not parse. |
| Populate.ByPathMissing | internal/resourceset/azure_resource_set_hack.go:221-224 | Paths missing from the document contribute nothing and cause no error. |
| Populate.ByPathSingle | internal/resourceset/azure_resource_set_hack.go:220-236 | A single-path query is that path's values parsed, or nothing when the path is missing. |
| Populate.VirtualMachineStep | internal/resourceset/azure_resource_set_hack.go:74-104 | The VM loop body for one resource. A non-VM adds nothing. Otherwise it adds the disks, then one attachment per disk, with the VM's TF id queried before each one. A query failure keeps the disks. |
| Populate.VirtualMachineShape | internal/resourceset/azure_resource_set_hack.go:84-103 | For n disks (n may be zero) a VM adds 2n resources, the n disks first. Attachment i has type `azurerm_virtual_machine_data_disk_attachment`, TF id `<vm TF id>/dataDisks/<disk name>`, id `<vm id>/dataDisks/<disk name>` and no properties. |
| Populate.NsgAssociationSpec | internal/resourceset/azure_resource_set_hack.go:133-166 | A path error is passed on. Anything but exactly one NSG gives no association and no error. With exactly one NSG, a failed NIC query and then a failed NSG query are the errors; otherwise there is exactly one association. Its id is `<nic id>/networkSecurityGroups/<nsg name>` and its TF id is the NIC's TF id and the NSG's TF id joined by a vertical bar. Conversely, an association is produced only in that case. |
| Populate.NsgAssociation | internal/resourceset/azure_resource_set_hack.go:133-166 | A NIC gets at most one NSG association. |
| Populate.PopulateBapAssociations | internal/resourceset/azure_resource_set_hack.go:168-211 | The NIC's TF id is queried first. Then every backend pool of every ip configuration gets an association, configuration by configuration. The first error aborts with no list. |
| Populate.PopulatePoolAssociations | internal/resourceset/azure_resource_set_hack.go:189-207 | The pool loop of one ip configuration: one association per pool, in order, or the first error. |
| Populate.PoolAssociationsShape | internal/resourceset/azure_resource_set_hack.go:189-207 | Each pool yields exactly one association, in pool order. Its id is `<ip config id>/backendAddressPools/<pool name>` and its TF id is `<nic TF id>/ipConfigurations/<ip config name>` and `<gateway TF id>/backendAddressPools/<pool name>` joined by a vertical bar. The gateway is the pool's parent. |
| Populate.NetworkInterfaceStep | internal/resourceset/azure_resource_set_hack.go:114-128 | The NIC loop body for one resource. A non-NIC adds nothing. Otherwise it adds the NSG association, then the backend-pool associations. A backend-pool failure keeps the NSG part. |
| Populate.RunPassAppend | internal/resourceset/azure_resource_set_hack.go:73-105 | Over `a + b` a pass does what it does over `a`. Unless that failed, it then continues with what it does over `b`. |
| Populate.RunPassFailurePersists | internal/resourceset/azure_resource_set_hack.go:78-91 | Once a pass has failed on a prefix, the rest of the set is not visited. |
| Populate.RunPassNoTrigger | internal/resourceset/azure_resource_set_hack.go:74-76 | A pass over resources none of which has its trigger route scope adds nothing and cannot fail. |
| Populate.WithoutPropertiesNoDisksNoNsg | internal/resourceset/azure_resource_set_hack.go:133-140 | A resource without properties yields neither disks nor an NSG association. |
| ResourceSet.AzureResourceSet.PopulateForVirtualMachine | internal/resourceset/azure_resource_set_hack.go:72-107 | The new set is the old one followed by what the VM pass adds over the resources present at its start. The pass's error is returned. |
| ResourceSet.AzureResourceSet.PopulateForNetworkInterfaces | internal/resourceset/azure_resource_set_hack.go:112-131 | The new set is the old one followed by what the NIC pass adds over the resources present at its start. The pass's error is returned. |
| ResourceSet.AzureResourceSet.RunPassInPlace | internal/resourceset/azure_resource_set_hack.go:113-129 | The shared loop: it visits each resource present at the start, in order, appends its contribution and stops at the first error. |
| ResourceSet.AzureResourceSet.Visit | internal/resourceset/azure_resource_set_hack.go:114-128 | One loop turn keeps the invariant: the set is the start set followed by what the pass added over the visited prefix. |
| Armid.Extend | internal/resourceset/azure_resource_set_hack.go:93-95 | The clone-and-append id keeps the provider and all earlier attributes, and ends with the new type and name. |
| Armid.WithLastType | internal/resourceset/azure_resource_set_hack.go:58-59 | The clone replaces only the last attribute type. |
| Meta.ScopeName | internal/meta/meta_res.go:46-52 | The result starts with the first id. It is that id exactly when there is one id; otherwise the rest is ` and more...`. |
| Meta.TfResourceName | internal/meta/meta_res.go:139-149 | A used configured name is returned as it is. Otherwise the name starts with the prefix and ends with the suffix, with at least one character between them. |
| Meta.TfResourceNameNumbered | internal/meta/meta_res.go:139-149 | Without a configured single name, the name is the prefix, the index in decimal digits with no leading zero, and the suffix. The index can be read back from it. |
| Meta.TfResourceNameConfigured | internal/meta/meta_res.go:139-149 | The configured name is returned exactly when it is used (a single item and a non-empty name), or when it happens to spell the numbered name. |
| Meta.TfResourceNameInjective | internal/meta/meta_res.go:144-148 | Numbered names of different indexes differ. |
| Meta.NamesDistinct | internal/meta/meta_res.go:139-149 | Among n items, named with `single` equal to n == 1, no two names coincide. |
| Meta.ListResource | internal/meta/meta_res.go:54-137 | The loop-by-loop listing computes `ListSpec`: the azuread items, or the parse loop and then the item loop, or the unknown-provider error. |
| Meta.ParseResourceIds | internal/meta/meta_res.go:80-86 | The parse loop stops at the first id that does not parse. |
| Meta.AssembleItems | internal/meta/meta_res.go:98-131 | The item loop, with the in-place override of the TF id, both address types and the recommended flag, stops at the first failed re-query. |
| Meta.ParseIdsSpec | internal/meta/meta_res.go:80-86 | Parsing succeeds exactly when every id parses. It then yields one plain resource per id, in order. Otherwise the error names the first id that does not parse. |
| Meta.ArmItemsSpec | internal/meta/meta_res.go:98-131 | Assembly succeeds exactly when every mapped resource yields an item. It then yields one item per mapped resource, in mapped order. Otherwise the error is that of the first failing resource. |
| Meta.ArmItemFields | internal/meta/meta_res.go:99-129 | An item wraps the ARM id and is named by its index, with `single` meaning one mapped resource. Without an override it keeps the mapped TF id and type, and is recommended exactly when no type is configured. With an override, a failed re-query is the error; otherwise the re-queried id and the configured type replace them and it is not recommended. |
| Meta.ListAzureAd | internal/meta/meta_res.go:58-74 | The azuread branch never fails. It yields one item per id, in order: an MS Graph id wrapping the id, the id as TF id, the configured type, the index-based name, not recommended. |
| Meta.ListParseFailure | internal/meta/meta_res.go:80-84 | For azurerm and azapi, an id that does not parse fails the whole listing with no list, naming the first such id. |
| Meta.ListArmItems | internal/meta/meta_res.go:91-133 | Once every id parses, the listing succeeds exactly when every mapped resource yields an item. It then yields one item per mapped resource, from the provider's mapper, in mapped order. |
| Meta.ListAddressCache | internal/meta/meta_res.go:61-130 | Every listed item's address cache equals its address. |
| Meta.ListNamesDistinct | internal/meta/meta_res.go:60-101 | No two listed items share a TF address name. |
| Meta.ListUnknownProvider | internal/meta/meta_res.go:134-135 | The unknown-provider error is returned exactly for a provider other than azuread, azurerm and azapi. |
| Meta.ListNeverUnknown | internal/meta/meta_res.go:57-133 | The known providers fail only with parse or re-query errors. |
| MetaSelect.NewMeta | pkg/meta/meta.go:23-64 | An empty platform is refused. A success implies a supported platform/provider pair, and the strategy is that of the first scope field set. |
| MetaSelect.NewMetaAccepts | pkg/meta/meta.go:23-64 | `NewMeta` succeeds exactly for a supported platform/provider pair with some scope set whose strategy the platform allows. It then picks the first scope set, in the order resource group, predicate, mapping file, resource ids. |
| MetaSelect.EmptyPlatformFirst | pkg/meta/meta.go:24-26 | An empty platform is refused before anything else. |
| MetaSelect.PairingBeforeScope | pkg/meta/meta.go:28-39 | The error for a refused platform/provider pair does not depend on the scope fields. |
| MetaSelect.PairingErrors | pkg/meta/meta.go:28-39 | arm accepts only azurerm or azapi, and msgraph only azuread. Any other platform is invalid. Each error names its case. |
| MetaSelect.LaterScopesIgnored | pkg/meta/meta.go:41-63 | Once a scope field is set, changing any later scope field (or the TF resource type) does not change the outcome. |
| MetaSelect.MsGraphScopes | pkg/meta/meta.go:41-60 | On msgraph with azuread, resource-group and predicate scopes are refused. A mapping file is accepted. Resource ids need a TF resource type. |
| MetaSelect.ArmOnlyScopes | pkg/meta/meta.go:43-59 | Off arm, a resource-group or predicate scope is always refused, and so is a resource-id scope without a TF resource type. |
| MetaSelect.MappingFileAccepted | pkg/meta/meta.go:52-53 | A mapping-file scope is accepted on every platform that passed validation. |
| MetaSelect.NoScopeRefused | pkg/meta/meta.go:61-62 | With no scope field set, a validated configuration gets the invalid-group-config error. |
| ResourceId.ArmParent | internal/resourceid/arm_id.go:15-21 | It is nil exactly when the wrapped id has no parent. Otherwise it wraps that parent. |
| ResourceId.ArmParentScope | internal/resourceid/arm_id.go:23-29 | It is nil exactly when the wrapped id has no parent scope. Otherwise it wraps it. |
| ResourceId.ArmString | internal/resourceid/arm_id.go:31-33 | It is the wrapped id's string, unchanged. |
| ResourceId.ArmTypeString | internal/resourceid/arm_id.go:35-37 | It is the wrapped id's type string, unchanged. |
| ResourceId.ArmEqual | internal/resourceid/arm_id.go:39-48 | It is false for a nil receiver or argument and for an MS Graph argument. Otherwise it is exactly the wrapped ids' equality. |
| ResourceId.MsGraphParent | internal/resourceid/msgraph_id.go:13-15 | It is always nil. |
| ResourceId.MsGraphParentScope | internal/resourceid/msgraph_id.go:17-19 | It is always nil. |
| ResourceId.MsGraphString | internal/resourceid/msgraph_id.go:21-23 | It is the stored id string. |
| ResourceId.MsGraphTypeString | internal/resourceid/msgraph_id.go:25-27 | It is the stored id string. |
| ResourceId.MsGraphEqual | internal/resourceid/msgraph_id.go:29-38 | It is false for a nil receiver or argument and for an ARM argument. Otherwise it is string equality. |
| ResourceId.Parent | internal/resourceid/arm_id.go:15-22 | Through the interface, an id has a parent exactly when it is an ARM id whose wrapped id has one, and then it is that parent wrapped as an ARM id. |
| ResourceId.ParentScope | internal/resourceid/arm_id.go:23-30 | Through the interface, an id has a parent scope exactly when it is an ARM id whose wrapped id has one, and then it is that scope wrapped as an ARM id. |
| ResourceId.String | internal/resourceid/arm_id.go:31-34 | Through the interface, an ARM id's string is the wrapped id's string, and an MS Graph id's is its stored id (msgraph_id.go:21-27). |
| ResourceId.TypeString | internal/resourceid/arm_id.go:35-38 | Through the interface, an ARM id's type string is the wrapped id's type string, and an MS Graph id's is its stored id (msgraph_id.go:21-27). |
| ResourceId.Equal | internal/resourceid/arm_id.go:39-48 | Through the interface, comparison with nil or across variants is false. Two ARM ids compare by the library's equality, and two MS Graph ids by string equality (msgraph_id.go:29-38). |
| ResourceId.MsGraphHasNoAncestors | internal/resourceid/msgraph_id.go:13-19 | Through the interface, an MS Graph id has neither a parent nor a parent scope. |
| ResourceId.AncestorsKeepVariant | internal/resourceid/arm_id.go:15-29 | Only an ARM id has a parent or a parent scope, and that ancestor is an ARM id. |
| ResourceId.CrossVariantNeverEqual | internal/resourceid/arm_id.go:43-46 | Ids of different variants are never equal, in either direction. |
| ResourceId.NilNeverEqual | internal/resourceid/arm_id.go:40-42 | Comparing either variant with nil is false. |
| ResourceId.MsGraphEqualIsEquivalence | internal/resourceid/msgraph_id.go:37 | Equality of MS Graph ids is reflexive, symmetric and transitive. |
| ResourceId.MsGraphEqualByString | internal/resourceid/msgraph_id.go:21-38 | Two MS Graph ids are equal exactly when their strings are, and then their type strings agree. |
| ResourceId.EqualSymmetric | internal/resourceid/arm_id.go:39-48 | `Equal` is symmetric on all ids whenever the ARM library's equality is. |
| ResourceId.EqualReflexive | internal/resourceid/arm_id.go:39-48 | `Equal` is reflexive on all ids whenever the ARM library's equality is. |
| ResourceId.EqualImpliesSameVariant | internal/resourceid/arm_id.go:43-46 | Equal ids are of the same variant. |

## Left out

- Telemetry (internal/telemetry/telemetry.go): a global network client with no mapping logic.
- `commandBeforeFunc` and its test (command_before_func_test.go): the implementation is not part of this model, and the cases depend on the filesystem.
- internal/resourceid/id.go only declares the interface. It is the two-constructor `AzureResourceId` datatype.
- Armid.ScopedResourceId: the parent scope (subscription, resource group or a nested scope) is an opaque string carried along. Its structure, and the id kinds other than scoped ids, are not modelled. Ids that differ in their parent scope are different values, and `Extend` and `WithLastType` keep it.
- Armid.Library: `parentScope` returns an `ArmId`, so it can only yield a scoped id. A subscription or resource group, the usual parent scope, cannot be its result. Nothing ties it to a scoped id's `scopeId` text.
- ResourceId.Equal: a Go interface holding a nil `*ArmResourceId` or `*MsGraphResourceId` passes the `id == nil` test (internal/resourceid/arm_id.go:40, msgraph_id.go:30) and then panics on the field access (arm_id.go:47, msgraph_id.go:37). `Option<AzureResourceId>` has no such typed nil, so that panic path is not modelled.
- `armid` parsing, string forms, parent computation and equality are opaque `Library` functions. Non-scoped ARM ids are not modelled; `ArmId` is always a scoped id. So the `.(*armid.ScopedResourceId)` assertions of the source cannot fail here.
- `aztft.QueryId` is an opaque function, with and without API access. Its network access and credentials are not modelled.
- `ToTFAzureRMResources` and `ToTFAzAPIResources` are opaque functions of the resource list. Their worker pool, parallelism and credentials are not modelled.
- `json.Marshal` of the properties and gjson evaluation are not modelled. The document is already a map from path to found values, so the marshal error path of `populateResourceByPath` is not modelled.
- Error values keep what failed and not the wrapped message text built by `fmt.Errorf`.
- Logger calls and `context.Context` have no effect on the results.
- `strings.ToUpper` and `strings.EqualFold` are ASCII-only. Unicode case mapping and folding are not modelled.
- The `NewMeta*` strategy constructors, their own errors and `resourceNamePattern` are not modelled. `NewMeta` returns the strategy it would construct, and the name prefix and suffix are fields of `MetaResource`.
- The platform constants come from the config package, which is not part of this model. `arm` appears in the source's own messages. `msgraph` is assumed.
- Meta.ScopeName: requires a non-empty id list. The source indexes `ResourceIds[0]` unguarded, and the resource-id scope is only chosen for a non-empty list.
- Populate.VirtualMachineStep: the per-disk appends are computed into one local sequence per resource and appended as one step. The final set and the error are those of the source's successive appends. States between two appends of one resource are not observable.
- Populate.NetworkInterfaceStep: likewise, the NSG and backend-pool associations of one NIC are appended as one step, with the same final set and error as the source's two appends.
- Reduce.AppendPending: the leftover halves are pinned down only as a multiset, because Go's map iteration order is unspecified.
- The discarded `fmt.Sprintf` in `tfResourceName` (internal/meta/meta_res.go:144) has no effect and is not modelled.
- `PopulateResourceTypesNeedsBody` (internal/resourceset/azure_resource_set_hack.go:16-19) is a lookup table for a caller outside this model.
