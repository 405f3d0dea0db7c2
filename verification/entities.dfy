/** The backend's persisted entities and the database they live in, as
    immutable values. Each table is a map from id to row; a product holds its
    ordered list of compositions (the `product_id` foreign key read from the
    product's side), and identity columns are drawn from per-table counters. */
module Entities {

  datatype Composition = Composition(id: int, rawMaterialId: int, requiredQuantity: int)

  datatype Product = Product(id: int, name: string, price: real, compositions: seq<Composition>)

  datatype RawMaterial = RawMaterial(id: int, name: string, stockQuantity: int)

  datatype Store = Store(
    products: map<int, Product>,
    rawMaterials: map<int, RawMaterial>,
    nextProductId: int,
    nextRawMaterialId: int,
    nextCompositionId: int)

  /** The `p.compositions` lookup the services perform. */
  predicate HasComposition(p: Product, compositionId: int) {
    exists i :: 0 <= i < |p.compositions| && p.compositions[i].id == compositionId
  }

  /** True iff some composition of `p` uses raw material `rawMaterialId`. */
  predicate UsesMaterial(p: Product, rawMaterialId: int) {
    exists i :: 0 <= i < |p.compositions| && p.compositions[i].rawMaterialId == rawMaterialId
  }

  /** No raw material is linked twice to the same product. */
  predicate DistinctMaterials(p: Product) {
    forall i, j :: 0 <= i < j < |p.compositions| ==> p.compositions[i].rawMaterialId != p.compositions[j].rawMaterialId
  }

  /** The products that own composition `compositionId`: the row's
      `product_id`, read back through the products. */
  function OwnersOf(s: Store, compositionId: int): (owners: set<int>)
    ensures forall pid :: pid in owners <==> pid in s.products && HasComposition(s.products[pid], compositionId)
  {
    set pid | pid in s.products && HasComposition(s.products[pid], compositionId)
  }

  /** True iff some product's composition references raw material `rawMaterialId`. */
  predicate IsReferenced(s: Store, rawMaterialId: int) {
    exists pid :: pid in s.products && UsesMaterial(s.products[pid], rawMaterialId)
  }

  /** Composition ids are unique across the whole composition table. */
  ghost predicate CompositionIdsUnique(products: map<int, Product>) {
    && (forall pid, i, j :: pid in products && 0 <= i < j < |products[pid].compositions| ==>
          products[pid].compositions[i].id != products[pid].compositions[j].id)
    && (forall p1, p2, cid ::
          (p1 in products && p2 in products && HasComposition(products[p1], cid) && HasComposition(products[p2], cid)) ==> p1 == p2)
  }

  /** The database's integrity: primary keys match, every id is below its
      table's identity counter, every composition references an existing raw
      material (foreign key), and composition ids are unique; and, as
      `addComposition` enforces, no product links the same raw material twice. */
  ghost function Valid(s: Store): (b: bool)
    ensures b ==> s.nextProductId !in s.products && s.nextRawMaterialId !in s.rawMaterials
    ensures b ==> forall pid :: pid in s.products ==> !HasComposition(s.products[pid], s.nextCompositionId)
  {
    && (forall id :: id in s.products ==> s.products[id].id == id && id < s.nextProductId)
    && (forall id :: id in s.rawMaterials ==> s.rawMaterials[id].id == id && id < s.nextRawMaterialId)
    && (forall pid, i :: pid in s.products && 0 <= i < |s.products[pid].compositions| ==>
          && s.products[pid].compositions[i].id < s.nextCompositionId
          && s.products[pid].compositions[i].rawMaterialId in s.rawMaterials)
    && (forall pid :: pid in s.products ==> DistinctMaterials(s.products[pid]))
    && CompositionIdsUnique(s.products)
  }

  /** The database before anything is stored. */
  function EmptyStore(): (s: Store)
    ensures Valid(s)
    ensures s.products == map[] && s.rawMaterials == map[]
  {
    Store(map[], map[], 1, 1, 1)
  }

  /** In a valid store a composition has at most one owner. */
  lemma OwnerUnique(s: Store, compositionId: int, p1: int, p2: int)
    requires Valid(s)
    requires p1 in OwnersOf(s, compositionId) && p2 in OwnersOf(s, compositionId)
    ensures p1 == p2
  {
  }

  /** Storing a new version `p'` of product `productId` (and possibly
      advancing the composition counter to `next`) keeps the store valid
      when every composition of `p'` is either one the product already had
      or one with a fresh id, references an existing raw material, and the
      new list repeats neither an id nor a material. */
  lemma ReplaceProductKeepsValid(s: Store, productId: int, p': Product, next: int)
    requires Valid(s)
    requires productId in s.products && p'.id == productId
    requires next >= s.nextCompositionId
    requires forall i :: 0 <= i < |p'.compositions| ==>
               && p'.compositions[i].id < next
               && p'.compositions[i].rawMaterialId in s.rawMaterials
               && (HasComposition(s.products[productId], p'.compositions[i].id) || p'.compositions[i].id >= s.nextCompositionId)
    requires forall i, j :: 0 <= i < j < |p'.compositions| ==> p'.compositions[i].id != p'.compositions[j].id
    requires DistinctMaterials(p')
    ensures Valid(s.(products := s.products[productId := p'], nextCompositionId := next))
  {
    var s' := s.(products := s.products[productId := p'], nextCompositionId := next);
    forall p1, p2, cid | p1 in s'.products && p2 in s'.products && HasComposition(s'.products[p1], cid) && HasComposition(s'.products[p2], cid)
      ensures p1 == p2
    {
      HeldBefore(s, productId, p', p1, cid);
      HeldBefore(s, productId, p', p2, cid);
    }
  }

  /** After the replacement, a holder of composition `cid` either held it
      before, or `cid` is fresh and the holder is the replaced product. */
  lemma HeldBefore(s: Store, productId: int, p': Product, holder: int, cid: int)
    requires Valid(s)
    requires productId in s.products
    requires forall i :: 0 <= i < |p'.compositions| ==>
               HasComposition(s.products[productId], p'.compositions[i].id) || p'.compositions[i].id >= s.nextCompositionId
    requires holder in s.products
    requires HasComposition(s.products[productId := p'][holder], cid)
    ensures HasComposition(s.products[holder], cid) || cid >= s.nextCompositionId
    ensures cid >= s.nextCompositionId ==> holder == productId
  {
    if holder != productId {
      var k :| 0 <= k < |s.products[holder].compositions| && s.products[holder].compositions[k].id == cid;
      assert s.products[holder].compositions[k].id < s.nextCompositionId;
    } else {
      var i :| 0 <= i < |p'.compositions| && p'.compositions[i].id == cid;
    }
  }

  /** In a valid store every held composition id is below the counter. */
  lemma HeldIdsBelowCounter(s: Store)
    requires Valid(s)
    ensures forall pid, cid :: pid in s.products && HasComposition(s.products[pid], cid) ==> cid < s.nextCompositionId
  {
    forall pid, cid | pid in s.products && HasComposition(s.products[pid], cid)
      ensures cid < s.nextCompositionId
    {
      var i :| 0 <= i < |s.products[pid].compositions| && s.products[pid].compositions[i].id == cid;
    }
  }
}
