/**
 * The resource identity abstraction: an id is either an ARM id (hierarchical) or an
 * MS Graph id (a flat string). Each variant answers `Parent`, `ParentScope`, `String`,
 * `TypeString` and `Equal`; the interface methods dispatch on the variant.
 *
 * Go's nil receivers and nil arguments are `None`.
 */
module ResourceId {
  import opened Wrappers
  import opened Armid

  /** `AzureResourceId`, closed over its two implementations. */
  datatype AzureResourceId = Arm(armId: ArmId) | MsGraph(graphId: string)

  // ---- ArmResourceId: every method delegates to the wrapped armid value ----

  function ArmParent(lib: Library, a: ArmId): (r: Option<AzureResourceId>)
    ensures r.None? <==> lib.parent(a).None?
    ensures r.Some? ==> r.value == Arm(lib.parent(a).value)
  {
    match lib.parent(a)
    case None => None
    case Some(p) => Some(Arm(p))
  }

  function ArmParentScope(lib: Library, a: ArmId): (r: Option<AzureResourceId>)
    ensures r.None? <==> lib.parentScope(a).None?
    ensures r.Some? ==> r.value == Arm(lib.parentScope(a).value)
  {
    match lib.parentScope(a)
    case None => None
    case Some(p) => Some(Arm(p))
  }

  function ArmString(lib: Library, a: ArmId): (r: string)
    ensures r == lib.str(a)
  {
    lib.str(a)
  }

  function ArmTypeString(lib: Library, a: ArmId): (r: string)
    ensures r == lib.typeString(a)
  {
    lib.typeString(a)
  }

  /** `(*ArmResourceId).Equal`; `self` is `None` for a nil receiver. */
  function ArmEqual(lib: Library, self: Option<ArmId>, other: Option<AzureResourceId>): (r: bool)
    ensures self.None? || other.None? ==> !r
    ensures other.Some? && other.value.MsGraph? ==> !r
    ensures self.Some? && other.Some? && other.value.Arm? ==> (r <==> lib.equal(self.value, other.value.armId))
  {
    match (self, other)
    case (Some(a), Some(Arm(b))) => lib.equal(a, b)
    case _ => false
  }

  // ---- MsGraphResourceId: a flat id with no structure ----

  function MsGraphParent(m: string): (r: Option<AzureResourceId>)
    ensures r == None
  {
    None
  }

  function MsGraphParentScope(m: string): (r: Option<AzureResourceId>)
    ensures r == None
  {
    None
  }

  function MsGraphString(m: string): (r: string)
    ensures r == m
  {
    m
  }

  function MsGraphTypeString(m: string): (r: string)
    ensures r == m
  {
    m
  }

  /** `(*MsGraphResourceId).Equal`; `self` is `None` for a nil receiver. */
  function MsGraphEqual(self: Option<string>, other: Option<AzureResourceId>): (r: bool)
    ensures self.None? || other.None? ==> !r
    ensures other.Some? && other.value.Arm? ==> !r
    ensures self.Some? && other.Some? && other.value.MsGraph? ==> (r <==> self.value == other.value.graphId)
  {
    match (self, other)
    case (Some(a), Some(MsGraph(b))) => a == b
    case _ => false
  }

  // ---- the interface: dispatch on the variant of a non-nil receiver ----

  function Parent(lib: Library, id: AzureResourceId): (r: Option<AzureResourceId>)
    ensures r.Some? <==> id.Arm? && lib.parent(id.armId).Some?
    ensures r.Some? ==> r.value == Arm(lib.parent(id.armId).value)
  {
    match id
    case Arm(a) => ArmParent(lib, a)
    case MsGraph(m) => MsGraphParent(m)
  }

  function ParentScope(lib: Library, id: AzureResourceId): (r: Option<AzureResourceId>)
    ensures r.Some? <==> id.Arm? && lib.parentScope(id.armId).Some?
    ensures r.Some? ==> r.value == Arm(lib.parentScope(id.armId).value)
  {
    match id
    case Arm(a) => ArmParentScope(lib, a)
    case MsGraph(m) => MsGraphParentScope(m)
  }

  function String(lib: Library, id: AzureResourceId): (r: string)
    ensures id.Arm? ==> r == lib.str(id.armId)
    ensures id.MsGraph? ==> r == id.graphId
  {
    match id
    case Arm(a) => ArmString(lib, a)
    case MsGraph(m) => MsGraphString(m)
  }

  function TypeString(lib: Library, id: AzureResourceId): (r: string)
    ensures id.Arm? ==> r == lib.typeString(id.armId)
    ensures id.MsGraph? ==> r == id.graphId
  {
    match id
    case Arm(a) => ArmTypeString(lib, a)
    case MsGraph(m) => MsGraphTypeString(m)
  }

  function Equal(lib: Library, id: AzureResourceId, other: Option<AzureResourceId>): (r: bool)
    ensures other.None? ==> !r
    ensures other.Some? && id.Arm? != other.value.Arm? ==> !r
    ensures id.Arm? && other.Some? && other.value.Arm? ==> (r <==> lib.equal(id.armId, other.value.armId))
    ensures id.MsGraph? && other.Some? && other.value.MsGraph? ==> (r <==> id.graphId == other.value.graphId)
  {
    match id
    case Arm(a) => ArmEqual(lib, Some(a), other)
    case MsGraph(m) => MsGraphEqual(Some(m), other)
  }

  // ---- properties of the interface ----

  /** A flat id has neither a parent nor a parent scope. */
  lemma MsGraphHasNoAncestors(lib: Library, m: string)
    ensures Parent(lib, MsGraph(m)) == None && ParentScope(lib, MsGraph(m)) == None
  {
  }

  /** Ids of different variants are never equal, in either direction. */
  lemma CrossVariantNeverEqual(lib: Library, a: ArmId, m: string)
    ensures !Equal(lib, Arm(a), Some(MsGraph(m)))
    ensures !Equal(lib, MsGraph(m), Some(Arm(a)))
  {
  }

  /** Comparing with nil is false for both variants. */
  lemma NilNeverEqual(lib: Library, id: AzureResourceId)
    ensures !Equal(lib, id, None)
  {
  }

  /** Equality of flat ids is an equivalence relation. */
  lemma MsGraphEqualIsEquivalence(lib: Library, x: string, y: string, z: string)
    ensures Equal(lib, MsGraph(x), Some(MsGraph(x)))
    ensures Equal(lib, MsGraph(x), Some(MsGraph(y))) == Equal(lib, MsGraph(y), Some(MsGraph(x)))
    ensures Equal(lib, MsGraph(x), Some(MsGraph(y))) && Equal(lib, MsGraph(y), Some(MsGraph(z)))
            ==> Equal(lib, MsGraph(x), Some(MsGraph(z)))
  {
  }

  /** Whenever the library's ARM equality is symmetric, so is `Equal` on all ids. */
  lemma EqualSymmetric(lib: Library, a: AzureResourceId, b: AzureResourceId)
    requires forall x: ArmId, y: ArmId :: lib.equal(x, y) == lib.equal(y, x)
    ensures Equal(lib, a, Some(b)) == Equal(lib, b, Some(a))
  {
  }

  /** Whenever the library's ARM equality is reflexive, so is `Equal` on all ids. */
  lemma EqualReflexive(lib: Library, a: AzureResourceId)
    requires forall x: ArmId :: lib.equal(x, x)
    ensures Equal(lib, a, Some(a))
  {
  }

  /** Equal ids are of the same variant. */
  lemma EqualImpliesSameVariant(lib: Library, a: AzureResourceId, b: AzureResourceId)
    requires Equal(lib, a, Some(b))
    ensures a.Arm? == b.Arm?
  {
  }
  /** Ancestors keep the variant: only an ARM id has a parent or a parent scope, and it is an ARM id. */
  lemma AncestorsKeepVariant(lib: Library, id: AzureResourceId)
    ensures Parent(lib, id).Some? ==> id.Arm? && Parent(lib, id).value.Arm?
    ensures ParentScope(lib, id).Some? ==> id.Arm? && ParentScope(lib, id).value.Arm?
  {
  }

  /** Two flat ids are equal exactly when their strings are, and then their type strings agree too. */
  lemma MsGraphEqualByString(lib: Library, x: string, y: string)
    ensures Equal(lib, MsGraph(x), Some(MsGraph(y))) <==> String(lib, MsGraph(x)) == String(lib, MsGraph(y))
    ensures Equal(lib, MsGraph(x), Some(MsGraph(y))) ==> TypeString(lib, MsGraph(x)) == TypeString(lib, MsGraph(y))
  {
  }
}
