/**
 * The values the resource set holds: Azure resources, their optional pseudo-resource
 * information, the TF resources they map to, and the errors the passes report.
 */
module Resources {
  import opened Wrappers
  import opened Armid

  /**
   * The JSON properties of a resource, seen through path queries: a path that exists maps
   * to the string values found there (one for a scalar, one per element for an array
   * projection such as `a.#.id`); a path that does not exist is not a key.
   * A resource with no properties has the empty document.
   */
  type Document = map<string, seq<string>>

  /** `PesudoResourceInfo`: the TF type and TF id of a synthesized resource, already resolved. */
  datatype PseudoResourceInfo = PseudoResourceInfo(tfType: string, tfId: string)

  /** `AzureResource`; `pseudo` is `None` for a resource that was discovered, not synthesized. */
  datatype AzureResource = AzureResource(id: ArmId, properties: Document, pseudo: Option<PseudoResourceInfo>)

  /** A resource carrying only its id: `AzureResource{Id: id}`. */
  function Plain(id: ArmId): AzureResource {
    AzureResource(id, map[], None)
  }

  /** A synthesized resource: an id and its resolved TF type and id, with no properties. */
  function Pseudo(id: ArmId, tfType: string, tfId: string): AzureResource {
    AzureResource(id, map[], Some(PseudoResourceInfo(tfType, tfId)))
  }

  /** `TFResource`: an Azure id with the TF id and TF type it maps to. */
  datatype TFResource = TFResource(azureId: ArmId, tfId: string, tfType: string)

  /** `aztft.QueryId(id, tfType, false)`: the TF id of an Azure id for a given TF type, or an error. */
  type QueryId = (string, string) -> Result<string, string>

  /** What makes a pass fail. */
  datatype Error =
    | ParseFailed(value: string, reason: string)            // armid.ParseResourceId refused a value
    | QueryFailed(id: string, tfType: string, reason: string) // aztft.QueryId failed
    | NilParent(child: ArmId)                               // Go panic: Parent() of an id without one
    | IndexOutOfRange(short: ArmId)                         // Go panic: Names()[1] of a one-name id
}
