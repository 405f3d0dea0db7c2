/** The product service: validated create and update, delete, linking a raw
    material to a product (a composition) and unlinking it, and the
    entity-to-DTO conversion, over the in-memory store. */
module ProductService {
  import opened Wrappers
  import opened Text
  import opened Errors
  import opened Entities
  import opened Dto
  import Lists
  import RawMaterialService

  /** The request body of a create or update; JSON may leave either field null. */
  datatype ProductForm = ProductForm(name: Option<string>, price: Option<real>)

  /** The body of a composition request, after the controller's bean
      validation has rejected a missing material id or quantity. */
  datatype CompositionRequest = CompositionRequest(rawMaterialId: int, quantity: int)

  const NAME_REQUIRED: string := "Product name is required"
  const PRICE_INVALID: string := "Product price must be a non-negative value"

  function NotFoundMessage(id: int): string {
    "Product not found with id: " + IntToString(id)
  }

  function CompositionNotFoundMessage(id: int): string {
    "Composition not found with id: " + IntToString(id)
  }

  function AlreadyAssociatedMessage(rawMaterialName: string): string {
    "Raw material '" + rawMaterialName + "' is already associated with this product"
  }

  function NotOwnedMessage(productId: int): string {
    "Composition does not belong to product with id: " + IntToString(productId)
  }

  function CompositionId(c: Composition): int {
    c.id
  }

  /** A form the service accepts: a non-blank name and a non-negative price. */
  predicate Acceptable(form: ProductForm) {
    && form.name.Some? && !IsBlank(form.name.value)
    && form.price.Some? && form.price.value >= 0.0
  }

  /** The checks shared by `save` and `update`: the name first, then the price. */
  function ValidateProduct(form: ProductForm): (r: Result<(string, real), Error>)
    ensures r.Success? <==> Acceptable(form)
    ensures r.Success? ==> r.value == (form.name.value, form.price.value)
    ensures (form.name.None? || IsBlank(form.name.value)) ==> r == Failure(Business(NAME_REQUIRED))
    ensures (form.name.Some? && !IsBlank(form.name.value) && !Acceptable(form)) ==> r == Failure(Business(PRICE_INVALID))
  {
    if form.name.None? || IsBlank(form.name.value) then Failure(Business(NAME_REQUIRED))
    else if form.price.None? || form.price.value < 0.0 then Failure(Business(PRICE_INVALID))
    else Success((form.name.value, form.price.value))
  }

  function FindById(s: Store, id: int): (r: Result<Product, Error>)
    ensures r.Success? <==> id in s.products
    ensures r.Success? ==> r.value == s.products[id]
    ensures r.Failure? ==> r.error == NotFound(NotFoundMessage(id))
  {
    if id in s.products then Success(s.products[id]) else Failure(NotFound(NotFoundMessage(id)))
  }

  /** Every composition of `p` references a raw material of the store. */
  predicate MaterialsResolve(s: Store, p: Product) {
    forall i :: 0 <= i < |p.compositions| ==> p.compositions[i].rawMaterialId in s.rawMaterials
  }

  function ConvertCompositionToDto(s: Store, c: Composition): (dto: CompositionDto)
    requires c.rawMaterialId in s.rawMaterials
    ensures dto.id == c.id && dto.rawMaterialId == s.rawMaterials[c.rawMaterialId].id
    ensures dto.rawMaterialName == s.rawMaterials[c.rawMaterialId].name
    ensures dto.requiredQuantity == c.requiredQuantity
  {
    var m := s.rawMaterials[c.rawMaterialId];
    CompositionDto(c.id, m.id, m.name, c.requiredQuantity)
  }

  function ConvertCompositions(s: Store, cs: seq<Composition>): (dtos: seq<CompositionDto>)
    requires forall i :: 0 <= i < |cs| ==> cs[i].rawMaterialId in s.rawMaterials
    ensures |dtos| == |cs|
    ensures forall i :: 0 <= i < |cs| ==> dtos[i] == ConvertCompositionToDto(s, cs[i])
  {
    if |cs| == 0 then [] else [ConvertCompositionToDto(s, cs[0])] + ConvertCompositions(s, cs[1..])
  }

  /** The product as the API returns it: the same id, name and price, and its
      compositions in order, each with the linked material's id and current
      name and the required quantity. */
  function ConvertToDto(s: Store, p: Product): (dto: ProductDto)
    requires MaterialsResolve(s, p)
    ensures dto.id == p.id && dto.name == p.name && dto.price == p.price
    ensures dto.compositions.Some? && |dto.compositions.value| == |p.compositions|
    ensures forall i :: 0 <= i < |p.compositions| ==>
              && dto.compositions.value[i].id == p.compositions[i].id
              && dto.compositions.value[i].rawMaterialId == s.rawMaterials[p.compositions[i].rawMaterialId].id
              && dto.compositions.value[i].rawMaterialName == s.rawMaterials[p.compositions[i].rawMaterialId].name
              && dto.compositions.value[i].requiredQuantity == p.compositions[i].requiredQuantity
  {
    ProductDto(p.id, p.name, p.price, Some(ConvertCompositions(s, p.compositions)))
  }

  /** Inserts a new product, without compositions, under the next identity value. */
  function Save(s: Store, form: ProductForm): (r: Result<(Store, ProductDto), Error>)
    ensures r.Success? <==> Acceptable(form)
    ensures r.Failure? ==> r.error == ValidateProduct(form).error
    ensures r.Success? ==>
      var (s', dto) := r.value;
      && dto == ProductDto(dto.id, form.name.value, form.price.value, Some([]))
      && s'.products.Keys == s.products.Keys + {dto.id}
      && s'.products[dto.id] == Product(dto.id, form.name.value, form.price.value, [])
      && s'.rawMaterials == s.rawMaterials
      && (Valid(s) ==>
            && dto.id !in s.products
            && forall id :: id in s.products ==> s'.products[id] == s.products[id])
    ensures Valid(s) && r.Success? ==> Valid(r.value.0)
  {
    var (name, price) :- ValidateProduct(form);
    var p := Product(s.nextProductId, name, price, []);
    var s' := s.(products := s.products[p.id := p], nextProductId := s.nextProductId + 1);
    Success((s', ConvertToDto(s', p)))
  }

  /** Looks the product up first and only then validates the new data, so an
      unknown id is reported as not-found whatever the form holds. Only the
      name and the price change. */
  function Update(s: Store, id: int, form: ProductForm): (r: Result<(Store, ProductDto), Error>)
    requires id in s.products ==> MaterialsResolve(s, s.products[id])
    ensures id !in s.products ==> r == Failure(NotFound(NotFoundMessage(id)))
    ensures id in s.products && !Acceptable(form) ==> r == Failure(ValidateProduct(form).error)
    ensures r.Success? <==> id in s.products && Acceptable(form)
    ensures r.Success? ==> r.value.0.products.Keys == s.products.Keys && r.value.0.rawMaterials == s.rawMaterials
    ensures r.Success? ==> r.value.0.products[id] == s.products[id].(name := form.name.value, price := form.price.value)
    ensures r.Success? ==> forall k :: k in s.products && k != id ==> r.value.0.products[k] == s.products[k]
    ensures r.Success? ==> r.value.1 == ConvertToDto(r.value.0, r.value.0.products[id])
  {
    var p :- FindById(s, id);
    var (name, price) :- ValidateProduct(form);
    var p' := p.(name := name, price := price);
    var s' := s.(products := s.products[id := p']);
    Success((s', ConvertToDto(s', p')))
  }

  /** Removes a product, and with it its compositions. */
  function Delete(s: Store, id: int): (r: Result<Store, Error>)
    ensures id !in s.products ==> r == Failure(NotFound(NotFoundMessage(id)))
    ensures r.Success? <==> id in s.products
    ensures r.Success? ==>
      && r.value.products.Keys == s.products.Keys - {id}
      && (forall k :: k in r.value.products ==> r.value.products[k] == s.products[k])
      && r.value.rawMaterials == s.rawMaterials
    ensures Valid(s) && r.Success? ==> Valid(r.value)
  {
    if id !in s.products then Failure(NotFound(NotFoundMessage(id)))
    else Success(s.(products := s.products - {id}))
  }

  /** Links a raw material to a product with the requested quantity. The
      product is looked up first, then the material; a material already
      linked to the product is refused. */
  function AddComposition(s: Store, productId: int, request: CompositionRequest): (r: Result<(Store, CompositionDto), Error>)
    ensures productId !in s.products ==> r == Failure(NotFound(NotFoundMessage(productId)))
    ensures productId in s.products && request.rawMaterialId !in s.rawMaterials ==>
              r == Failure(NotFound(RawMaterialService.NotFoundMessage(request.rawMaterialId)))
    ensures productId in s.products && request.rawMaterialId in s.rawMaterials
            && UsesMaterial(s.products[productId], request.rawMaterialId) ==>
              r == Failure(Business(AlreadyAssociatedMessage(s.rawMaterials[request.rawMaterialId].name)))
    ensures r.Success? <==>
              && productId in s.products && request.rawMaterialId in s.rawMaterials
              && !UsesMaterial(s.products[productId], request.rawMaterialId)
    ensures r.Success? ==>
              && r.value.1.rawMaterialId == s.rawMaterials[request.rawMaterialId].id
              && r.value.1.rawMaterialName == s.rawMaterials[request.rawMaterialId].name
              && r.value.1.requiredQuantity == request.quantity
    ensures r.Success? ==> r.value.0.products.Keys == s.products.Keys && r.value.0.rawMaterials == s.rawMaterials
    ensures r.Success? ==>
              r.value.0.products[productId] == s.products[productId].(compositions :=
                s.products[productId].compositions + [Composition(r.value.1.id, request.rawMaterialId, request.quantity)])
    ensures r.Success? ==> forall k :: k in s.products && k != productId ==> r.value.0.products[k] == s.products[k]
    ensures r.Success? ==> r.value.1.id == s.nextCompositionId && r.value.0.nextCompositionId == s.nextCompositionId + 1
  {
    var p :- FindById(s, productId);
    var m :- RawMaterialService.FindById(s, request.rawMaterialId);
    if UsesMaterial(p, request.rawMaterialId) then Failure(Business(AlreadyAssociatedMessage(m.name)))
    else
      var c := Composition(s.nextCompositionId, request.rawMaterialId, request.quantity);
      var s' := s.(products := s.products[productId := p.(compositions := p.compositions + [c])],
                   nextCompositionId := s.nextCompositionId + 1);
      Success((s', ConvertCompositionToDto(s', c)))
  }

  /** Unlinks a composition from a product. Checked in order: the product
      exists, the composition exists, the composition belongs to that product. */
  function RemoveComposition(s: Store, productId: int, compositionId: int): (r: Result<Store, Error>)
    ensures productId !in s.products ==> r == Failure(NotFound(NotFoundMessage(productId)))
    ensures productId in s.products && OwnersOf(s, compositionId) == {} ==>
              r == Failure(NotFound(CompositionNotFoundMessage(compositionId)))
    ensures productId in s.products && OwnersOf(s, compositionId) != {} && productId !in OwnersOf(s, compositionId) ==>
              r == Failure(Business(NotOwnedMessage(productId)))
    ensures r.Success? <==> productId in s.products && HasComposition(s.products[productId], compositionId)
    ensures r.Success? ==>
      && r.value.products.Keys == s.products.Keys
      && (forall k :: k in s.products && k != productId ==> r.value.products[k] == s.products[k])
      && r.value.rawMaterials == s.rawMaterials
    ensures r.Success? ==>
      var cs := s.products[productId].compositions;
      var cs' := r.value.products[productId].compositions;
      && r.value.products[productId] == s.products[productId].(compositions := cs')
      && !HasComposition(r.value.products[productId], compositionId)
      && (forall i :: 0 <= i < |cs| && cs[i].id != compositionId ==> cs[i] in cs')
      && (forall i :: 0 <= i < |cs'| ==> cs'[i] in cs)
  {
    if productId !in s.products then Failure(NotFound(NotFoundMessage(productId)))
    else
      var owners := OwnersOf(s, compositionId);
      if owners == {} then Failure(NotFound(CompositionNotFoundMessage(compositionId)))
      else if productId !in owners then Failure(Business(NotOwnedMessage(productId)))
      else
        var p := s.products[productId];
        var p' := p.(compositions := Lists.RemoveAll(p.compositions, CompositionId, compositionId));
        Success(s.(products := s.products[productId := p']))
  }

  /** In a valid store the composition ids of a product are distinct, so
      unlinking removes exactly one composition. */
  lemma RemoveCompositionRemovesOne(s: Store, productId: int, compositionId: int)
    requires Valid(s)
    requires RemoveComposition(s, productId, compositionId).Success?
    ensures |RemoveComposition(s, productId, compositionId).value.products[productId].compositions|
            == |s.products[productId].compositions| - 1
  {
    var cs := s.products[productId].compositions;
    assert Lists.DistinctBy(cs, CompositionId);
    assert Lists.HasKey(cs, CompositionId, compositionId);
    Lists.RemoveAllRemovesOne(cs, CompositionId, compositionId);
  }

  function MaterialOf(c: Composition): int {
    c.rawMaterialId
  }

  /** An update keeps the store valid: the compositions are untouched. */
  lemma UpdateKeepsValid(s: Store, id: int, form: ProductForm)
    requires Valid(s)
    requires id in s.products ==> MaterialsResolve(s, s.products[id])
    requires Update(s, id, form).Success?
    ensures Valid(Update(s, id, form).value.0)
  {
    var p' := Update(s, id, form).value.0.products[id];
    forall i | 0 <= i < |p'.compositions|
      ensures HasComposition(s.products[id], p'.compositions[i].id)
    {
      assert s.products[id].compositions[i].id == p'.compositions[i].id;
    }
    ReplaceProductKeepsValid(s, id, p', s.nextCompositionId);
    assert Update(s, id, form).value.0 == s.(products := s.products[id := p'], nextCompositionId := s.nextCompositionId);
  }

  /** A new composition gets an id no product holds yet, and linking it keeps
      the store valid. */
  lemma AddCompositionKeepsValid(s: Store, productId: int, request: CompositionRequest)
    requires Valid(s)
    requires AddComposition(s, productId, request).Success?
    ensures forall k :: k in s.products ==> !HasComposition(s.products[k], AddComposition(s, productId, request).value.1.id)
    ensures Valid(AddComposition(s, productId, request).value.0)
  {
    var (s', dto) := AddComposition(s, productId, request).value;
    var p := s.products[productId];
    var p' := s'.products[productId];
    var c := Composition(dto.id, request.rawMaterialId, request.quantity);
    assert p'.compositions == p.compositions + [c];
    HeldIdsBelowCounter(s);
    forall i | 0 <= i < |p'.compositions|
      ensures HasComposition(p, p'.compositions[i].id) || p'.compositions[i].id >= s.nextCompositionId
    {
      if i < |p.compositions| {
        assert p'.compositions[i] == p.compositions[i];
      }
    }
    forall i | 0 <= i < |p.compositions|
      ensures p.compositions[i].rawMaterialId != request.rawMaterialId
    {
    }
    ReplaceProductKeepsValid(s, productId, p', s.nextCompositionId + 1);
    assert s' == s.(products := s.products[productId := p'], nextCompositionId := s.nextCompositionId + 1);
  }

  /** Unlinking keeps the store valid. */
  lemma RemoveCompositionKeepsValid(s: Store, productId: int, compositionId: int)
    requires Valid(s)
    requires RemoveComposition(s, productId, compositionId).Success?
    ensures Valid(RemoveComposition(s, productId, compositionId).value)
  {
    var s' := RemoveComposition(s, productId, compositionId).value;
    var p := s.products[productId];
    var p' := s'.products[productId];
    var cs := p.compositions;
    var cs' := p'.compositions;
    assert cs' == Lists.RemoveAll(cs, CompositionId, compositionId);
    assert Lists.DistinctBy(cs, CompositionId);
    Lists.RemoveAllKeepsDistinct(cs, CompositionId, compositionId, CompositionId);
    assert Lists.DistinctBy(cs, MaterialOf);
    Lists.RemoveAllKeepsDistinct(cs, CompositionId, compositionId, MaterialOf);
    forall i | 0 <= i < |cs'|
      ensures cs'[i].id < s.nextCompositionId && cs'[i].rawMaterialId in s.rawMaterials && HasComposition(p, cs'[i].id)
    {
      var j :| 0 <= j < |cs| && cs[j] == cs'[i];
    }
    ReplaceProductKeepsValid(s, productId, p', s.nextCompositionId);
    assert s' == s.(products := s.products[productId := p'], nextCompositionId := s.nextCompositionId);
  }
}
