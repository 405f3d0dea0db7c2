/** The raw-material service: lookup, validated create and update, delete,
    and the entity-to-DTO conversion, over the in-memory store. */
module RawMaterialService {
  import opened Wrappers
  import opened Text
  import opened Errors
  import opened Entities
  import opened Dto

  /** The request body of a create or update; JSON may leave either field null. */
  datatype MaterialForm = MaterialForm(name: Option<string>, stockQuantity: Option<int>)

  const NAME_REQUIRED: string := "Raw material name is required"
  const STOCK_INVALID: string := "Stock quantity must be a non-negative value"

  function NotFoundMessage(id: int): string {
    "Raw material not found with id: " + IntToString(id)
  }

  /** A form the service accepts. */
  predicate Acceptable(form: MaterialForm) {
    && form.name.Some? && !IsBlank(form.name.value)
    && form.stockQuantity.Some? && form.stockQuantity.value >= 0
  }

  function FindById(s: Store, id: int): (r: Result<RawMaterial, Error>)
    ensures r.Success? <==> id in s.rawMaterials
    ensures r.Success? ==> r.value == s.rawMaterials[id]
    ensures r.Failure? ==> r.error == NotFound(NotFoundMessage(id))
  {
    if id in s.rawMaterials then Success(s.rawMaterials[id]) else Failure(NotFound(NotFoundMessage(id)))
  }

  /** The name is checked before the stock quantity; both failures are
      business-rule violations. */
  function ValidateMaterial(form: MaterialForm): (r: Result<(string, int), Error>)
    ensures r.Success? <==> Acceptable(form)
    ensures r.Success? ==> r.value == (form.name.value, form.stockQuantity.value)
    ensures (form.name.None? || IsBlank(form.name.value)) ==> r == Failure(Business(NAME_REQUIRED))
    ensures (form.name.Some? && !IsBlank(form.name.value) && !Acceptable(form)) ==> r == Failure(Business(STOCK_INVALID))
  {
    if form.name.None? || IsBlank(form.name.value) then Failure(Business(NAME_REQUIRED))
    else if form.stockQuantity.None? || form.stockQuantity.value < 0 then Failure(Business(STOCK_INVALID))
    else Success((form.name.value, form.stockQuantity.value))
  }

  function ConvertToDto(m: RawMaterial): (dto: RawMaterialDto)
    ensures dto.id == m.id && dto.name == m.name && dto.stockQuantity == m.stockQuantity
  {
    RawMaterialDto(m.id, m.name, m.stockQuantity)
  }

  /** Inserts a new raw material under the next identity value. */
  function Save(s: Store, form: MaterialForm): (r: Result<(Store, RawMaterialDto), Error>)
    ensures r.Success? <==> Acceptable(form)
    ensures r.Failure? ==> r.error == ValidateMaterial(form).error
    ensures r.Success? ==>
      var (s', dto) := r.value;
      && dto.name == form.name.value && dto.stockQuantity == form.stockQuantity.value
      && s'.rawMaterials.Keys == s.rawMaterials.Keys + {dto.id}
      && s'.rawMaterials[dto.id] == RawMaterial(dto.id, dto.name, dto.stockQuantity)
      && s'.products == s.products
      && (Valid(s) ==>
            && dto.id !in s.rawMaterials
            && forall id :: id in s.rawMaterials ==> s'.rawMaterials[id] == s.rawMaterials[id])
    ensures Valid(s) && r.Success? ==> Valid(r.value.0)
  {
    var (name, stock) :- ValidateMaterial(form);
    var m := RawMaterial(s.nextRawMaterialId, name, stock);
    var s' := s.(rawMaterials := s.rawMaterials[m.id := m], nextRawMaterialId := s.nextRawMaterialId + 1);
    Success((s', ConvertToDto(m)))
  }

  /** Validates the new data first and only then looks the id up, so an
      invalid form for an unknown id is a business error, not a not-found. */
  function Update(s: Store, id: int, form: MaterialForm): (r: Result<(Store, RawMaterialDto), Error>)
    ensures !Acceptable(form) ==> r == Failure(ValidateMaterial(form).error)
    ensures Acceptable(form) && id !in s.rawMaterials ==> r == Failure(NotFound(NotFoundMessage(id)))
    ensures r.Success? <==> Acceptable(form) && id in s.rawMaterials
    ensures r.Success? ==>
      var (s', dto) := r.value;
      && s'.rawMaterials.Keys == s.rawMaterials.Keys
      && s'.rawMaterials[id] == s.rawMaterials[id].(name := form.name.value, stockQuantity := form.stockQuantity.value)
      && dto == ConvertToDto(s'.rawMaterials[id])
      && (Valid(s) ==> dto.id == id)
      && (forall k :: k in s.rawMaterials && k != id ==> s'.rawMaterials[k] == s.rawMaterials[k])
      && s'.products == s.products
    ensures Valid(s) && r.Success? ==> Valid(r.value.0)
  {
    var (name, stock) :- ValidateMaterial(form);
    var m :- FindById(s, id);
    var m' := m.(name := name, stockQuantity := stock);
    Success((s.(rawMaterials := s.rawMaterials[id := m']), ConvertToDto(m')))
  }

  /** Removes a raw material. The composition table's foreign key refuses the
      deletion of a material some product still uses; that refusal reaches the
      client as an unexpected error. */
  function Delete(s: Store, id: int): (r: Result<Store, Error>)
    ensures id !in s.rawMaterials ==> r == Failure(NotFound(NotFoundMessage(id)))
    ensures id in s.rawMaterials && IsReferenced(s, id) ==> r.Failure? && r.error.Unexpected?
    ensures r.Success? <==> id in s.rawMaterials && !IsReferenced(s, id)
    ensures r.Success? ==>
      && r.value.rawMaterials.Keys == s.rawMaterials.Keys - {id}
      && (forall k :: k in r.value.rawMaterials ==> r.value.rawMaterials[k] == s.rawMaterials[k])
      && r.value.products == s.products
    ensures Valid(s) && r.Success? ==> Valid(r.value)
  {
    if id !in s.rawMaterials then Failure(NotFound(NotFoundMessage(id)))
    else if IsReferenced(s, id) then Failure(Unexpected("referential integrity constraint violation"))
    else Success(s.(rawMaterials := s.rawMaterials - {id}))
  }

  /** Deleting twice: the second call reports not-found and changes nothing. */
  lemma DeleteTwiceNotFound(s: Store, id: int)
    requires Delete(s, id).Success?
    ensures Delete(Delete(s, id).value, id) == Failure(NotFound(NotFoundMessage(id)))
  {
  }

  /** The not-found message names the requested id: distinct ids give
      distinct messages. */
  lemma NotFoundMessageNamesId(a: int, b: int)
    ensures NotFoundMessage(a) == NotFoundMessage(b) ==> a == b
  {
    var prefix := "Raw material not found with id: ";
    if NotFoundMessage(a) == NotFoundMessage(b) {
      assert IntToString(a) == NotFoundMessage(a)[|prefix|..];
      assert IntToString(b) == NotFoundMessage(b)[|prefix|..];
      IntToStringInjective(a, b);
    }
  }
}
