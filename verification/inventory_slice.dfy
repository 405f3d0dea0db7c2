/** The browser's single state container: the `inventory` slice. Every
    asynchronous request is seen by the reducer as three actions — pending,
    fulfilled with a payload, rejected with an error message — and `Step`
    is the reducer as a pure function from state and action to state. */
module InventorySlice {
  import opened Wrappers
  import opened Dto
  import Lists

  /** The eleven asynchronous requests. */
  datatype Thunk =
    | FetchSuggestions | FetchProducts | CreateProduct | UpdateProduct | DeleteProduct
    | AddComposition | RemoveComposition
    | FetchRawMaterials | CreateRawMaterial | UpdateRawMaterial | DeleteRawMaterial

  /** The three list loads share the `loading` flag; every other request
      uses `actionLoading`. */
  predicate IsFetch(t: Thunk) {
    t.FetchSuggestions? || t.FetchProducts? || t.FetchRawMaterials?
  }

  /** What each request resolves with. */
  datatype Payload =
    | SuggestionsLoaded(report: ProductionReportDto)
    | ProductsLoaded(products: seq<ProductDto>)
    | ProductCreated(product: ProductDto)
    | ProductUpdated(product: ProductDto)
    | ProductDeleted(productId: int)
    | CompositionAdded(productId: int, composition: CompositionDto)
    | CompositionRemoved(productId: int, compositionId: int)
    | RawMaterialsLoaded(rawMaterials: seq<RawMaterialDto>)
    | RawMaterialCreated(rawMaterial: RawMaterialDto)
    | RawMaterialUpdated(rawMaterial: RawMaterialDto)
    | RawMaterialDeleted(rawMaterialId: int)

  /** The request a payload answers. */
  function ThunkOf(payload: Payload): Thunk {
    match payload
    case SuggestionsLoaded(_) => FetchSuggestions
    case ProductsLoaded(_) => FetchProducts
    case ProductCreated(_) => CreateProduct
    case ProductUpdated(_) => UpdateProduct
    case ProductDeleted(_) => DeleteProduct
    case CompositionAdded(_, _) => AddComposition
    case CompositionRemoved(_, _) => RemoveComposition
    case RawMaterialsLoaded(_) => FetchRawMaterials
    case RawMaterialCreated(_) => CreateRawMaterial
    case RawMaterialUpdated(_) => UpdateRawMaterial
    case RawMaterialDeleted(_) => DeleteRawMaterial
  }

  datatype Action =
    | Pending(thunk: Thunk)
    | Fulfilled(payload: Payload)
    | Rejected(thunk: Thunk, message: string)
    | ClearError

  datatype State = State(
    suggestions: seq<ProductionItemDto>,
    products: seq<ProductDto>,
    rawMaterials: seq<RawMaterialDto>,
    loading: bool,
    actionLoading: bool,
    total: real,
    error: Option<string>)

  function ProductKey(p: ProductDto): int { p.id }
  function RawMaterialKey(m: RawMaterialDto): int { m.id }
  function CompositionKey(c: CompositionDto): int { c.id }

  /** The slice before any action: empty lists, both flags down, total 0, no error. */
  function Initial(): (s: State)
    ensures s.suggestions == [] && s.products == [] && s.rawMaterials == []
    ensures !s.loading && !s.actionLoading
    ensures s.total == 0.0 && s.error.None?
  {
    State([], [], [], false, false, 0.0, None)
  }

  /** The flag a request raises while it is in flight. */
  function SetFlag(s: State, t: Thunk, value: bool): (r: State)
    ensures IsFetch(t) ==> r.loading == value && r.actionLoading == s.actionLoading
    ensures !IsFetch(t) ==> r.actionLoading == value && r.loading == s.loading
    ensures r.suggestions == s.suggestions && r.products == s.products && r.rawMaterials == s.rawMaterials
    ensures r.total == s.total && r.error == s.error
  {
    if IsFetch(t) then s.(loading := value) else s.(actionLoading := value)
  }

  /** Appends `c` to a product's composition list, creating the list when
      the product has none. */
  function AppendComposition(p: ProductDto, c: CompositionDto): (r: ProductDto)
    ensures r.id == p.id && r.name == p.name && r.price == p.price
    ensures r.compositions.Some?
    ensures p.compositions.None? ==> r.compositions.value == [c]
    ensures p.compositions.Some? ==> r.compositions.value == p.compositions.value + [c]
  {
    p.(compositions := Some(p.compositions.GetOr([]) + [c]))
  }

  /** Drops composition `compositionId` from a product that has a list;
      a product without one is left alone. */
  function DropComposition(p: ProductDto, compositionId: int): (r: ProductDto)
    ensures r.id == p.id && r.name == p.name && r.price == p.price
    ensures p.compositions.None? ==> r == p
    ensures p.compositions.Some? ==>
              && r.compositions.Some?
              && !Lists.HasKey(r.compositions.value, CompositionKey, compositionId)
              && (forall i :: 0 <= i < |p.compositions.value| && p.compositions.value[i].id != compositionId ==>
                    p.compositions.value[i] in r.compositions.value)
              && (forall i :: 0 <= i < |r.compositions.value| ==> r.compositions.value[i] in p.compositions.value)
  {
    match p.compositions
    case None => p
    case Some(cs) => p.(compositions := Some(Lists.RemoveAll(cs, CompositionKey, compositionId)))
  }

  predicate ChangesProducts(payload: Payload) {
    || payload.ProductsLoaded? || payload.ProductCreated? || payload.ProductUpdated? || payload.ProductDeleted?
    || payload.CompositionAdded? || payload.CompositionRemoved?
  }

  predicate ChangesRawMaterials(payload: Payload) {
    payload.RawMaterialsLoaded? || payload.RawMaterialCreated? || payload.RawMaterialUpdated? || payload.RawMaterialDeleted?
  }

  /** The data a fulfilled request writes into the state; flags and error
      are not touched here. */
  function Apply(s: State, payload: Payload): (r: State)
    ensures r.loading == s.loading && r.actionLoading == s.actionLoading && r.error == s.error
    ensures !payload.SuggestionsLoaded? ==> r.suggestions == s.suggestions && r.total == s.total
    ensures !ChangesProducts(payload) ==> r.products == s.products
    ensures !ChangesRawMaterials(payload) ==> r.rawMaterials == s.rawMaterials
    ensures payload.ProductsLoaded? ==> r.products == payload.products
    ensures payload.RawMaterialsLoaded? ==> r.rawMaterials == payload.rawMaterials
    ensures payload.ProductCreated? ==> r.products == s.products + [payload.product]
    ensures payload.RawMaterialCreated? ==> r.rawMaterials == s.rawMaterials + [payload.rawMaterial]
  {
    match payload
    case SuggestionsLoaded(report) =>
      s.(suggestions := report.suggestedItems.GetOr([]), total := report.totalEstimatedValue.GetOr(0.0))
    case ProductsLoaded(products) => s.(products := products)
    case ProductCreated(p) => s.(products := s.products + [p])
    case ProductUpdated(p) => s.(products := Lists.ModifyFirst(s.products, ProductKey, p.id, _ => p))
    case ProductDeleted(id) => s.(products := Lists.RemoveAll(s.products, ProductKey, id))
    case CompositionAdded(productId, c) =>
      s.(products := Lists.ModifyFirst(s.products, ProductKey, productId, p => AppendComposition(p, c)))
    case CompositionRemoved(productId, compositionId) =>
      s.(products := Lists.ModifyFirst(s.products, ProductKey, productId, p => DropComposition(p, compositionId)))
    case RawMaterialsLoaded(materials) => s.(rawMaterials := materials)
    case RawMaterialCreated(m) => s.(rawMaterials := s.rawMaterials + [m])
    case RawMaterialUpdated(m) => s.(rawMaterials := Lists.ModifyFirst(s.rawMaterials, RawMaterialKey, m.id, _ => m))
    case RawMaterialDeleted(id) => s.(rawMaterials := Lists.RemoveAll(s.rawMaterials, RawMaterialKey, id))
  }

  /** The reducer. */
  function Step(s: State, a: Action): (r: State)
    ensures a.Pending? ==>
              && (IsFetch(a.thunk) ==> r.loading && r.actionLoading == s.actionLoading)
              && (!IsFetch(a.thunk) ==> r.actionLoading && r.loading == s.loading)
              && r.error.None?
              && r.suggestions == s.suggestions && r.products == s.products && r.rawMaterials == s.rawMaterials
              && r.total == s.total
    ensures a.Rejected? ==>
              && (IsFetch(a.thunk) ==> !r.loading && r.actionLoading == s.actionLoading)
              && (!IsFetch(a.thunk) ==> !r.actionLoading && r.loading == s.loading)
              && r.error == Some(a.message)
              && r.suggestions == s.suggestions && r.products == s.products && r.rawMaterials == s.rawMaterials
              && r.total == s.total
    ensures a.Fulfilled? ==>
              && (IsFetch(ThunkOf(a.payload)) ==> !r.loading && r.actionLoading == s.actionLoading)
              && (!IsFetch(ThunkOf(a.payload)) ==> !r.actionLoading && r.loading == s.loading)
              && r.error == s.error
    ensures a.ClearError? ==> r == s.(error := None)
  {
    match a
    case Pending(t) => SetFlag(s, t, true).(error := None)
    case Rejected(t, message) => SetFlag(s, t, false).(error := Some(message))
    case Fulfilled(payload) => SetFlag(Apply(s, payload), ThunkOf(payload), false)
    case ClearError => s.(error := None)
  }

  /** The state after a sequence of actions. */
  function Run(s: State, actions: seq<Action>): State
    decreases |actions|
  {
    if |actions| == 0 then s else Run(Step(s, actions[0]), actions[1..])
  }

  // ---------------------------------------------------------------------
  // Properties of the reducer
  // ---------------------------------------------------------------------

  /** A list load replaces the list wholesale; a report without lines or
      without a total leaves an empty list and a zero total. */
  lemma SuggestionsDefaults(s: State, report: ProductionReportDto)
    ensures var r := Step(s, Fulfilled(SuggestionsLoaded(report)));
            && (report.suggestedItems.None? ==> r.suggestions == [])
            && (report.suggestedItems.Some? ==> r.suggestions == report.suggestedItems.value)
            && (report.totalEstimatedValue.None? ==> r.total == 0.0)
            && (report.totalEstimatedValue.Some? ==> r.total == report.totalEstimatedValue.value)
            && r.products == s.products && r.rawMaterials == s.rawMaterials
  {
  }

  /** A failed request leaves every list as it was before it started, drops
      its flag and reports the message. */
  lemma PendingThenRejected(s: State, t: Thunk, message: string)
    ensures var r := Run(s, [Pending(t), Rejected(t, message)]);
            && r.suggestions == s.suggestions && r.products == s.products && r.rawMaterials == s.rawMaterials
            && r.total == s.total
            && (IsFetch(t) ==> !r.loading && r.actionLoading == s.actionLoading)
            && (!IsFetch(t) ==> !r.actionLoading && r.loading == s.loading)
            && r.error == Some(message)
  {
    var s1 := Step(s, Pending(t));
    assert Run(s, [Pending(t), Rejected(t, message)]) == Run(s1, [Rejected(t, message)]);
    assert Run(s1, [Rejected(t, message)]) == Run(Step(s1, Rejected(t, message)), []);
  }

  /** The shared `loading` flag: of two list loads in flight, whichever
      completes first clears the flag, although the other is still pending. */
  lemma FetchCompletionClearsLoading(s: State, other: Thunk, payload: Payload)
    requires IsFetch(ThunkOf(payload)) && IsFetch(other)
    ensures Run(s, [Pending(ThunkOf(payload)), Pending(other)]).loading
    ensures !Run(s, [Pending(ThunkOf(payload)), Pending(other), Fulfilled(payload)]).loading
  {
    var actions := [Pending(ThunkOf(payload)), Pending(other), Fulfilled(payload)];
    RunAppend(s, actions[..2], [actions[2]]);
    assert actions[..2] + [actions[2]] == actions;
    assert Run(Run(s, actions[..2]), [actions[2]]) == Run(Step(Run(s, actions[..2]), actions[2]), []);
    RunAppend(s, [actions[0]], [actions[1]]);
    assert [actions[0]] + [actions[1]] == actions[..2];
    assert Run(s, [actions[0]]) == Run(Step(s, actions[0]), []);
    assert Run(Step(s, actions[0]), [actions[1]]) == Run(Step(Step(s, actions[0]), actions[1]), []);
  }

  /** Example of the shared `loading` flag: the report arriving clears it
      although the product list, requested after it, is still in flight. */
  lemma SharedLoadingFlag()
    ensures var report := ProductionReportDto(Some([]), Some(0.0));
            var r := Run(Initial(), [Pending(FetchSuggestions), Pending(FetchProducts), Fulfilled(SuggestionsLoaded(report))]);
            !r.loading
  {
    var report := ProductionReportDto(Some([]), Some(0.0));
    var actions := [Pending(FetchSuggestions), Pending(FetchProducts), Fulfilled(SuggestionsLoaded(report))];
    var s1 := Step(Initial(), actions[0]);
    var s2 := Step(s1, actions[1]);
    assert actions[1..][1..] == [actions[2]];
    assert Run(Initial(), actions) == Run(s1, actions[1..]) == Run(s2, [actions[2]]);
    assert Run(s2, [actions[2]]) == Run(Step(s2, actions[2]), []);
  }

  /** Deleting removes every product with the id and keeps all others, in order. */
  lemma DeleteProductEffect(s: State, id: int)
    ensures var r := Step(s, Fulfilled(ProductDeleted(id)));
            && !Lists.HasKey(r.products, ProductKey, id)
            && (forall i :: 0 <= i < |s.products| && s.products[i].id != id ==> s.products[i] in r.products)
            && (forall i :: 0 <= i < |r.products| ==> r.products[i] in s.products)
            && (!Lists.HasKey(s.products, ProductKey, id) ==> r.products == s.products)
  {
  }

  /** Deleting twice is deleting once. */
  lemma DeleteProductIdempotent(s: State, id: int)
    ensures var once := Step(s, Fulfilled(ProductDeleted(id)));
            Step(once, Fulfilled(ProductDeleted(id))).products == once.products
  {
    Lists.RemoveAllIdempotent(s.products, ProductKey, id);
  }

  /** Creating a product with a new id and then deleting it gives back the
      original list. */
  lemma CreateThenDeleteRestores(s: State, p: ProductDto)
    requires !Lists.HasKey(s.products, ProductKey, p.id)
    ensures Run(s, [Fulfilled(ProductCreated(p)), Fulfilled(ProductDeleted(p.id))]).products == s.products
  {
    var s1 := Step(s, Fulfilled(ProductCreated(p)));
    var actions := [Fulfilled(ProductCreated(p)), Fulfilled(ProductDeleted(p.id))];
    assert Run(s, actions) == Run(s1, [actions[1]]);
    assert Run(s1, [actions[1]]) == Run(Step(s1, actions[1]), []);
    Lists.RemoveAllAppend(s.products, [p], ProductKey, p.id);
    assert Lists.RemoveAll([p], ProductKey, p.id) == [];
  }

  /** An update replaces the first product with the payload's id and
      nothing else; an id not in the list changes nothing. */
  lemma UpdateProductEffect(s: State, p: ProductDto)
    ensures var r := Step(s, Fulfilled(ProductUpdated(p)));
            && (!Lists.HasKey(s.products, ProductKey, p.id) ==> r.products == s.products)
            && forall i :: Lists.IsFirstMatch(s.products, ProductKey, p.id, i) ==> r.products == s.products[i := p]
  {
  }

  /** A new composition goes to the end of the first product with the
      given id; with no such product the list is unchanged. */
  lemma CompositionAddedEffect(s: State, productId: int, c: CompositionDto)
    ensures var r := Step(s, Fulfilled(CompositionAdded(productId, c)));
            && (!Lists.HasKey(s.products, ProductKey, productId) ==> r.products == s.products)
            && forall i :: Lists.IsFirstMatch(s.products, ProductKey, productId, i) ==>
                 && |r.products| == |s.products|
                 && r.products[i].compositions == Some(s.products[i].compositions.GetOr([]) + [c])
                 && (forall j :: 0 <= j < |s.products| && j != i ==> r.products[j] == s.products[j])
  {
  }

  /** Removing a composition touches only the first product with the given
      id, and only when it has a composition list. */
  lemma CompositionRemovedEffect(s: State, productId: int, compositionId: int)
    ensures var r := Step(s, Fulfilled(CompositionRemoved(productId, compositionId)));
            && (!Lists.HasKey(s.products, ProductKey, productId) ==> r.products == s.products)
            && forall i :: Lists.IsFirstMatch(s.products, ProductKey, productId, i) ==>
                 && (s.products[i].compositions.None? ==> r.products == s.products)
                 && (s.products[i].compositions.Some? ==>
                       && r.products[i].compositions.Some?
                       && !Lists.HasKey(r.products[i].compositions.value, CompositionKey, compositionId))
                 && (forall j :: 0 <= j < |s.products| && j != i ==> r.products[j] == s.products[j])
  {
  }

  /** The payloads that keep product ids unique: a created product has a
      new id, a loaded list has unique ids, and a composition keeps its
      product's id. */
  predicate KeepsProductIdsUnique(s: State, payload: Payload) {
    && (payload.ProductCreated? ==> !Lists.HasKey(s.products, ProductKey, payload.product.id))
    && (payload.ProductsLoaded? ==> Lists.DistinctBy(payload.products, ProductKey))
  }

  /** Product ids stay unique through any step whose payload respects them. */
  lemma ProductIdsStayUnique(s: State, a: Action)
    requires Lists.DistinctBy(s.products, ProductKey)
    requires a.Fulfilled? ==> KeepsProductIdsUnique(s, a.payload)
    ensures Lists.DistinctBy(Step(s, a).products, ProductKey)
  {
    if a.Fulfilled? {
      match a.payload
      case ProductCreated(p) =>
        var ps := s.products + [p];
        forall i, j | 0 <= i < j < |ps| ensures ps[i].id != ps[j].id {
          if j == |s.products| {
            assert ps[i] == s.products[i];
          }
        }
      case ProductUpdated(p) =>
        Lists.ModifyFirstKeepsDistinct(s.products, ProductKey, p.id, _ => p);
      case ProductDeleted(id) =>
        Lists.RemoveAllKeepsDistinct(s.products, ProductKey, id, ProductKey);
      case CompositionAdded(productId, c) =>
        Lists.ModifyFirstKeepsDistinct(s.products, ProductKey, productId, p => AppendComposition(p, c));
      case CompositionRemoved(productId, compositionId) =>
        Lists.ModifyFirstKeepsDistinct(s.products, ProductKey, productId, p => DropComposition(p, compositionId));
      case _ =>
    }
  }

  /** The payloads that keep raw-material ids unique. */
  predicate KeepsRawMaterialIdsUnique(s: State, payload: Payload) {
    && (payload.RawMaterialCreated? ==> !Lists.HasKey(s.rawMaterials, RawMaterialKey, payload.rawMaterial.id))
    && (payload.RawMaterialsLoaded? ==> Lists.DistinctBy(payload.rawMaterials, RawMaterialKey))
  }

  /** Raw-material ids stay unique through any step whose payload respects them. */
  lemma RawMaterialIdsStayUnique(s: State, a: Action)
    requires Lists.DistinctBy(s.rawMaterials, RawMaterialKey)
    requires a.Fulfilled? ==> KeepsRawMaterialIdsUnique(s, a.payload)
    ensures Lists.DistinctBy(Step(s, a).rawMaterials, RawMaterialKey)
  {
    if a.Fulfilled? {
      match a.payload
      case RawMaterialCreated(m) =>
        var ms := s.rawMaterials + [m];
        forall i, j | 0 <= i < j < |ms| ensures ms[i].id != ms[j].id {
          if j == |s.rawMaterials| {
            assert ms[i] == s.rawMaterials[i];
          }
        }
      case RawMaterialUpdated(m) =>
        Lists.ModifyFirstKeepsDistinct(s.rawMaterials, RawMaterialKey, m.id, _ => m);
      case RawMaterialDeleted(id) =>
        Lists.RemoveAllKeepsDistinct(s.rawMaterials, RawMaterialKey, id, RawMaterialKey);
      case _ =>
    }
  }

  /** Only a rejection sets the error: a run of actions without one keeps a
      clear error clear. */
  lemma {:induction false} NoRejectionNoError(s: State, actions: seq<Action>)
    requires s.error.None?
    requires forall i :: 0 <= i < |actions| ==> !actions[i].Rejected?
    ensures Run(s, actions).error.None?
    decreases |actions|
  {
    if |actions| > 0 {
      assert forall i :: 0 <= i < |actions[1..]| ==> actions[1..][i] == actions[i + 1];
      NoRejectionNoError(Step(s, actions[0]), actions[1..]);
    }
  }

  /** A run's effect composes: running two lists of actions one after the
      other is running their concatenation. */
  lemma {:induction false} RunAppend(s: State, first: seq<Action>, second: seq<Action>)
    ensures Run(s, first + second) == Run(Run(s, first), second)
    decreases |first|
  {
    if |first| == 0 {
      assert first + second == second;
    } else {
      assert (first + second)[1..] == first[1..] + second;
      RunAppend(Step(s, first[0]), first[1..], second);
    }
  }

  /** A list load replaces the list wholesale; a created product is
      appended and the raw materials are untouched. */
  lemma ProductCreatedEffect(s: State, p: ProductDto, products: seq<ProductDto>, materials: seq<RawMaterialDto>)
    ensures var r := Step(s, Fulfilled(ProductCreated(p)));
            && |r.products| == |s.products| + 1 && r.products[|s.products|] == p
            && r.products[..|s.products|] == s.products
            && r.rawMaterials == s.rawMaterials
    ensures Step(s, Fulfilled(ProductsLoaded(products))).products == products
    ensures Step(s, Fulfilled(RawMaterialsLoaded(materials))).rawMaterials == materials
  {
  }

  /** A created raw material is appended; the product list is untouched. */
  lemma RawMaterialCreatedEffect(s: State, m: RawMaterialDto)
    ensures var r := Step(s, Fulfilled(RawMaterialCreated(m)));
            && |r.rawMaterials| == |s.rawMaterials| + 1 && r.rawMaterials[|s.rawMaterials|] == m
            && r.rawMaterials[..|s.rawMaterials|] == s.rawMaterials
            && r.products == s.products
  {
  }

  /** An update replaces the first raw material with the payload's id and
      nothing else; an id not in the list changes nothing. */
  lemma RawMaterialUpdatedEffect(s: State, m: RawMaterialDto)
    ensures var r := Step(s, Fulfilled(RawMaterialUpdated(m)));
            && (!Lists.HasKey(s.rawMaterials, RawMaterialKey, m.id) ==> r.rawMaterials == s.rawMaterials)
            && forall i :: Lists.IsFirstMatch(s.rawMaterials, RawMaterialKey, m.id, i) ==> r.rawMaterials == s.rawMaterials[i := m]
  {
  }

  /** Deleting removes every raw material with the id, keeps all others,
      and a second delete of the same id changes nothing. */
  lemma RawMaterialDeletedEffect(s: State, id: int)
    ensures var r := Step(s, Fulfilled(RawMaterialDeleted(id)));
            && !Lists.HasKey(r.rawMaterials, RawMaterialKey, id)
            && (forall i :: 0 <= i < |s.rawMaterials| && s.rawMaterials[i].id != id ==> s.rawMaterials[i] in r.rawMaterials)
            && (forall i :: 0 <= i < |r.rawMaterials| ==> r.rawMaterials[i] in s.rawMaterials)
            && Step(r, Fulfilled(RawMaterialDeleted(id))).rawMaterials == r.rawMaterials
  {
    Lists.RemoveAllIdempotent(s.rawMaterials, RawMaterialKey, id);
  }

  /** Responses are applied in the order they arrive, not the order they
      were requested: of two list loads, the one resolving last wins. */
  lemma LastResponseWins(s: State, lastToArrive: seq<ProductDto>, firstToArrive: seq<ProductDto>)
    ensures Run(s, [Pending(FetchProducts), Pending(FetchProducts),
                    Fulfilled(ProductsLoaded(firstToArrive)), Fulfilled(ProductsLoaded(lastToArrive))]).products == lastToArrive
  {
    var actions := [Pending(FetchProducts), Pending(FetchProducts),
                    Fulfilled(ProductsLoaded(firstToArrive)), Fulfilled(ProductsLoaded(lastToArrive))];
    RunAppend(s, actions[..3], [actions[3]]);
    assert actions[..3] + [actions[3]] == actions;
    assert Run(Run(s, actions[..3]), [actions[3]]) == Run(Step(Run(s, actions[..3]), actions[3]), []);
  }
}
