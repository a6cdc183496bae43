/**
 * The ARM resource id of the `armid` library, as far as the pipeline looks inside it.
 *
 * A scoped resource id carries its parent scope (the subscription or resource group it lives
 * in, kept as the opaque text of that id), its provider namespace and two parallel sequences:
 * the attribute types (`virtualMachines`, `dataDisks`, ...) and the attribute names.
 * The library operations the pipeline only calls (parsing, canonical string, type string,
 * parent, parent scope, equality) are not visible here; they are grouped in `Library`
 * and passed in as values, so every result of the model is stated in terms of them.
 */
module Armid {
  import opened Wrappers

  /** `armid.ScopedResourceId`: parent scope id, provider namespace and parallel attribute types and names. */
  datatype ScopedResourceId = ScopedResourceId(scopeId: string, provider: string, attrTypes: seq<string>, attrNames: seq<string>)

  /** A well-formed scoped id: as many names as types, and at least one of each. */
  type ArmId = id: ScopedResourceId | |id.attrTypes| == |id.attrNames| && |id.attrTypes| > 0
    witness ScopedResourceId("", "", [""], [""])

  /** The library operations that are used but not modelled. */
  datatype Library = Library(
    parse: string -> Result<ArmId, string>,    // armid.ParseResourceId
    str: ArmId -> string,                      // ResourceId.String
    typeString: ArmId -> string,               // ResourceId.TypeString
    parent: ArmId -> Option<ArmId>,            // ResourceId.Parent (None models nil)
    parentScope: ArmId -> Option<ArmId>,       // ResourceId.ParentScope (None models nil)
    equal: (ArmId, ArmId) -> bool)             // ResourceId.Equal

  /** `/type1/type2/...`: every attribute type, each preceded by a slash. */
  function TypePath(types: seq<string>): string {
    if types == [] then "" else TypePath(types[..|types| - 1]) + "/" + types[|types| - 1]
  }

  /** `RouteScopeString`: `/provider/type1/type2...`. */
  function RouteScopeString(id: ArmId): string {
    "/" + id.provider + TypePath(id.attrTypes)
  }

  /** `Names()`: the attribute names. */
  function Names(id: ArmId): seq<string> {
    id.attrNames
  }

  /** A clone of `id` with one more `(type, name)` attribute appended. */
  function Extend(id: ArmId, attrType: string, attrName: string): (r: ArmId)
    ensures r.scopeId == id.scopeId && r.provider == id.provider
    ensures |r.attrTypes| == |id.attrTypes| + 1
    ensures r.attrTypes[..|id.attrTypes|] == id.attrTypes && r.attrTypes[|id.attrTypes|] == attrType
    ensures r.attrNames[..|id.attrNames|] == id.attrNames && r.attrNames[|id.attrNames|] == attrName
  {
    id.(attrTypes := id.attrTypes + [attrType], attrNames := id.attrNames + [attrName])
  }

  /** A clone of `id` whose last attribute type is replaced by `attrType`. */
  function WithLastType(id: ArmId, attrType: string): (r: ArmId)
    ensures r.scopeId == id.scopeId && r.provider == id.provider && r.attrNames == id.attrNames
    ensures |r.attrTypes| == |id.attrTypes|
    ensures r.attrTypes[..|r.attrTypes| - 1] == id.attrTypes[..|id.attrTypes| - 1]
    ensures r.attrTypes[|r.attrTypes| - 1] == attrType
  {
    id.(attrTypes := id.attrTypes[..|id.attrTypes| - 1] + [attrType])
  }
}
