/** The production suggestion: products are visited in the order given (the
    repository lists them by descending price); each one is assigned the
    largest whole quantity its compositions allow from a temporary copy of the
    stock, which is then reduced by what that quantity consumes. */
module ProductionService {
  import opened Wrappers
  import opened Entities
  import opened Dto
  import Lists

  const INT_MAX: int := 2147483647
  const INT_MIN: int := -2147483648

  /** `getOrDefault(id, 0.0)` on the temporary stock. */
  function Available(stock: map<int, int>, rawMaterialId: int): (a: int)
    ensures rawMaterialId !in stock ==> a == 0
    ensures rawMaterialId in stock ==> a == stock[rawMaterialId]
  {
    if rawMaterialId in stock then stock[rawMaterialId] else 0
  }

  /** Java's `(int) (available / required)` for a positive divisor: the
      quotient truncated toward zero and saturated to the `int` range. */
  function QuotientAsInt(available: int, required: int): (q: int)
    requires required > 0
    ensures INT_MIN <= q <= INT_MAX
    ensures q >= 1 <==> available >= required
    ensures q == INT_MAX <==> available >= INT_MAX * required
    ensures q >= 1 ==> q * required <= available
    ensures 0 <= q < INT_MAX ==> available < (q + 1) * required
  {
    var t := if available >= 0 then available / required else -((-available) / required);
    DivisionFacts(available, required, t);
    if t > INT_MAX then INT_MAX else if t < INT_MIN then INT_MIN else t
  }

  lemma DivisionFacts(available: int, required: int, t: int)
    requires required > 0
    requires t == if available >= 0 then available / required else -((-available) / required)
    ensures t >= 1 <==> available >= required
    ensures t >= INT_MAX <==> available >= INT_MAX * required
    ensures t >= 1 ==> t * required <= available
    ensures t >= 0 ==> available < (t + 1) * required
  {
    if available >= 0 {
      FloorFacts(available, required);
    } else {
      assert (-available) / required >= 0;
      assert INT_MAX * required > 0;
    }
  }

  lemma FloorFacts(a: int, r: int)
    requires a >= 0 && r > 0
    ensures a / r >= 1 <==> a >= r
    ensures a / r >= INT_MAX <==> a >= INT_MAX * r
    ensures (a / r) * r <= a < (a / r + 1) * r
  {
    var t, m := a / r, a % r;
    assert a == t * r + m && 0 <= m < r;
    assert (t + 1) * r == t * r + r;
    if t >= 1 {
      MulMonotone(1, t, r);
    }
    if t >= INT_MAX {
      MulMonotone(INT_MAX, t, r);
    } else {
      MulMonotone(t + 1, INT_MAX, r);
    }
  }

  /** True iff composition `c` takes part in the capacity computation. */
  predicate Constrains(c: Composition) {
    c.requiredQuantity > 0
  }

  /** How many units composition `c` alone allows. */
  function Possible(stock: map<int, int>, c: Composition): (n: int)
    requires Constrains(c)
    ensures INT_MIN <= n <= INT_MAX
    ensures n >= 1 <==> Available(stock, c.rawMaterialId) >= c.requiredQuantity
    ensures n >= 1 ==> n * c.requiredQuantity <= Available(stock, c.rawMaterialId)
    ensures 0 <= n < INT_MAX ==> Available(stock, c.rawMaterialId) < (n + 1) * c.requiredQuantity
  {
    QuotientAsInt(Available(stock, c.rawMaterialId), c.requiredQuantity)
  }

  /** The first loop over a product's compositions: starting from
      `Integer.MAX_VALUE`, the running minimum of what each constraining
      composition allows. */
  function Capacity(comps: seq<Composition>, stock: map<int, int>): (m: int)
    ensures m <= INT_MAX
    ensures forall i :: 0 <= i < |comps| && Constrains(comps[i]) ==> m <= Possible(stock, comps[i])
    ensures m == INT_MAX || exists i :: 0 <= i < |comps| && Constrains(comps[i]) && m == Possible(stock, comps[i])
  {
    if |comps| == 0 then INT_MAX
    else
      var running := Capacity(comps[..|comps| - 1], stock);
      var c := comps[|comps| - 1];
      if !Constrains(c) then running
      else
        var possible := Possible(stock, c);
        if possible < running then possible else running
  }

  /** The quantity assigned to a product: its capacity, unless the product has
      no compositions, the capacity is not positive, or it is still the
      `Integer.MAX_VALUE` sentinel. */
  function Quantity(p: Product, stock: map<int, int>): (q: nat)
    ensures q < INT_MAX
    ensures |p.compositions| == 0 ==> q == 0
    ensures q > 0 ==> forall i :: 0 <= i < |p.compositions| && Constrains(p.compositions[i]) ==> q <= Possible(stock, p.compositions[i])
    ensures q > 0 ==> exists i :: 0 <= i < |p.compositions| && Constrains(p.compositions[i]) && q == Possible(stock, p.compositions[i])
  {
    if |p.compositions| == 0 then 0
    else
      var m := Capacity(p.compositions, stock);
      if m > 0 && m != INT_MAX then m else 0
  }

  /** A constraining composition whose raw material is missing from the
      table reads as zero stock, so its product gets nothing. */
  lemma MissingMaterialBlocks(p: Product, stock: map<int, int>, j: int)
    requires 0 <= j < |p.compositions| && Constrains(p.compositions[j])
    requires p.compositions[j].rawMaterialId !in stock
    ensures Quantity(p, stock) == 0
  {
    assert Possible(stock, p.compositions[j]) <= 0;
  }

  /** Producing `n` units of `p` takes no more of any material than is available. */
  ghost predicate Feasible(p: Product, stock: map<int, int>, n: int) {
    forall i :: 0 <= i < |p.compositions| && Constrains(p.compositions[i]) ==>
      n * p.compositions[i].requiredQuantity <= Available(stock, p.compositions[i].rawMaterialId)
  }

  lemma MulMonotone(a: int, b: int, r: int)
    requires a <= b && r > 0
    ensures a * r <= b * r
  {
  }

  /** The quantity is the largest feasible one: feasible, and one more unit is
      not. Zero exactly when not even one unit is feasible, or when
      `Integer.MAX_VALUE` units are (the sentinel hides such a product). */
  lemma {:induction false} QuantityIsLargestFeasible(p: Product, stock: map<int, int>)
    ensures Quantity(p, stock) > 0 ==> Feasible(p, stock, Quantity(p, stock)) && !Feasible(p, stock, Quantity(p, stock) + 1)
    ensures Quantity(p, stock) == 0 <==> !Feasible(p, stock, 1) || Feasible(p, stock, INT_MAX)
  {
    var q := Quantity(p, stock);
    var comps := p.compositions;
    var m := Capacity(comps, stock);
    if q > 0 {
      forall i | 0 <= i < |comps| && Constrains(comps[i])
        ensures q * comps[i].requiredQuantity <= Available(stock, comps[i].rawMaterialId)
        ensures 1 * comps[i].requiredQuantity <= Available(stock, comps[i].rawMaterialId)
      {
        var c := comps[i];
        var pc := Possible(stock, c);
        MulMonotone(q, pc, c.requiredQuantity);
        MulMonotone(1, q, c.requiredQuantity);
      }
      var i :| 0 <= i < |comps| && Constrains(comps[i]) && m == Possible(stock, comps[i]);
      assert Available(stock, comps[i].rawMaterialId) < (q + 1) * comps[i].requiredQuantity;
      MulMonotone(q + 1, INT_MAX, comps[i].requiredQuantity);
      assert !Feasible(p, stock, INT_MAX);
    } else if |comps| == 0 {
      assert Feasible(p, stock, INT_MAX);
    } else if m == INT_MAX {
      forall i | 0 <= i < |comps| && Constrains(comps[i])
        ensures INT_MAX * comps[i].requiredQuantity <= Available(stock, comps[i].rawMaterialId)
      {
        assert Possible(stock, comps[i]) == INT_MAX;
      }
    } else {
      var i :| 0 <= i < |comps| && Constrains(comps[i]) && m == Possible(stock, comps[i]);
      assert Available(stock, comps[i].rawMaterialId) < comps[i].requiredQuantity;
    }
  }

  /** Units of raw material `rawMaterialId` one unit of a product consumes. */
  function PerUnit(comps: seq<Composition>, rawMaterialId: int): int {
    if |comps| == 0 then 0
    else (if comps[0].rawMaterialId == rawMaterialId then comps[0].requiredQuantity else 0) + PerUnit(comps[1..], rawMaterialId)
  }

  /** Units of raw material `rawMaterialId` that `quantity` units consume,
      composition by composition. */
  function Consumption(comps: seq<Composition>, rawMaterialId: int, quantity: int): int {
    if |comps| == 0 then 0
    else (if comps[0].rawMaterialId == rawMaterialId then comps[0].requiredQuantity * quantity else 0)
         + Consumption(comps[1..], rawMaterialId, quantity)
  }

  lemma Distribute(a: int, b: int, q: int)
    ensures (a + b) * q == a * q + b * q
  {
  }

  /** What `quantity` units consume is `quantity` times what one unit does. */
  lemma {:induction false} ConsumptionIsPerUnit(comps: seq<Composition>, rawMaterialId: int, quantity: int)
    ensures Consumption(comps, rawMaterialId, quantity) == PerUnit(comps, rawMaterialId) * quantity
    decreases |comps|
  {
    if |comps| > 0 {
      ConsumptionIsPerUnit(comps[1..], rawMaterialId, quantity);
      var c := comps[0];
      Distribute(if c.rawMaterialId == rawMaterialId then c.requiredQuantity else 0, PerUnit(comps[1..], rawMaterialId), quantity);
    }
  }

  /** The second loop over a product's compositions, in exact arithmetic:
      each composition's material loses `required * quantity`. */
  function Deduct(stock: map<int, int>, comps: seq<Composition>, quantity: int): (r: map<int, int>)
    requires forall i :: 0 <= i < |comps| ==> comps[i].rawMaterialId in stock
    ensures r.Keys == stock.Keys
    ensures forall id :: id in stock ==> r[id] == stock[id] - Consumption(comps, id, quantity)
  {
    if |comps| == 0 then stock
    else
      var c := comps[0];
      Deduct(stock[c.rawMaterialId := stock[c.rawMaterialId] - c.requiredQuantity * quantity], comps[1..], quantity)
  }

  /** Java `int` arithmetic: the result reduced into the 32-bit two's-complement range. */
  function Wrap32(x: int): (r: int)
    ensures INT_MIN <= r <= INT_MAX
    ensures (r - x) % 0x1_0000_0000 == 0
  {
    var m := (x - INT_MIN) % 0x1_0000_0000;
    m + INT_MIN
  }

  /** The second loop exactly as written: `comp.getRequiredQuantity() *
      maxQuantity` is an `int` product, which wraps before it is widened. */
  function DeductAsWritten(stock: map<int, int>, comps: seq<Composition>, quantity: int): (r: map<int, int>)
    requires forall i :: 0 <= i < |comps| ==> comps[i].rawMaterialId in stock
    ensures r.Keys == stock.Keys
  {
    if |comps| == 0 then stock
    else
      var c := comps[0];
      DeductAsWritten(stock[c.rawMaterialId := stock[c.rawMaterialId] - Wrap32(c.requiredQuantity * quantity)], comps[1..], quantity)
  }

  /** With a stock above the `int` range the written deduction overflows: a
      product consuming two units per item from a stock of three billion is
      assigned 1.5 billion units, and the stock grows instead of emptying. */
  lemma DeductAsWrittenOverflows()
    ensures var stock := map[1 := 3000000000];
            var p := Product(7, "Widget", 1.0, [Composition(1, 1, 2)]);
            && Quantity(p, stock) == 1500000000
            && DeductAsWritten(stock, p.compositions, 1500000000)[1] == 4294967296
            && Deduct(stock, p.compositions, 1500000000)[1] == 0
  {
    var stock := map[1 := 3000000000];
    var p := Product(7, "Widget", 1.0, [Composition(1, 1, 2)]);
    assert Capacity(p.compositions[..0], stock) == INT_MAX;
    assert p.compositions[..1] == p.compositions;
    assert Possible(stock, p.compositions[0]) == 1500000000;
    assert Wrap32(3000000000) == -1294967296;
  }

  /** A line's value: quantity times unit price. */
  function Subtotal(price: real, quantity: int): real {
    quantity as real * price
  }

  /** The line of the report for `quantity` units of `p`. */
  function Item(p: Product, quantity: int): (it: ProductionItemDto)
    ensures it.productName == p.name && it.quantityToProduce == Some(quantity)
    ensures quantity >= 0 && p.price >= 0.0 ==> it.subtotal >= 0.0
    ensures quantity == 0 ==> it.subtotal == 0.0
  {
    ProductionItemDto(p.name, Some(quantity), Subtotal(p.price, quantity))
  }

  /** Products read from a store with the database's integrity meet
      `ZeroRequirementsResolve` against that store's stock: the raw-material
      foreign key puts every composition's material in the table. */
  lemma ValidStoreResolves(s: Store, products: seq<Product>)
    requires Valid(s)
    requires forall i :: 0 <= i < |products| ==> products[i].id in s.products && s.products[products[i].id] == products[i]
    ensures ZeroRequirementsResolve(products, StockOf(s.rawMaterials))
  {
    forall i, j | 0 <= i < |products| && 0 <= j < |products[i].compositions|
      ensures products[i].compositions[j].rawMaterialId in StockOf(s.rawMaterials)
    {
      var pid := products[i].id;
      assert products[i].compositions[j] == s.products[pid].compositions[j];
    }
  }

  /** Materials of compositions that do not constrain the capacity are
      present in the stock map (the second loop reads them with `get`). */
  ghost predicate ZeroRequirementsResolve(products: seq<Product>, stock: map<int, int>) {
    forall i, j ::
      (0 <= i < |products| && 0 <= j < |products[i].compositions| && !Constrains(products[i].compositions[j])) ==>
        products[i].compositions[j].rawMaterialId in stock
  }

  /** The quantity of each product, the report lines, and the stock left over. */
  datatype Allocation = Allocation(quantities: seq<nat>, items: seq<ProductionItemDto>, rest: map<int, int>)

  /** Materials of the non-constraining compositions of `p` are in the stock. */
  predicate ZeroRequirementsOf(p: Product, stock: map<int, int>) {
    forall j :: 0 <= j < |p.compositions| && !Constrains(p.compositions[j]) ==> p.compositions[j].rawMaterialId in stock
  }

  /** The temporary stock after visiting product `p`. */
  function StockAfter(p: Product, stock: map<int, int>): (r: map<int, int>)
    requires ZeroRequirementsOf(p, stock)
    ensures r.Keys == stock.Keys
    ensures forall id :: id in stock ==> r[id] == stock[id] - PerUnit(p.compositions, id) * Quantity(p, stock)
  {
    var q := Quantity(p, stock);
    ConsumptionIsPerUnitEverywhere(p.compositions, q);
    if q > 0 then Deduct(stock, p.compositions, q) else stock
  }

  lemma ConsumptionIsPerUnitEverywhere(comps: seq<Composition>, quantity: int)
    ensures forall id :: Consumption(comps, id, quantity) == PerUnit(comps, id) * quantity
  {
    forall id ensures Consumption(comps, id, quantity) == PerUnit(comps, id) * quantity {
      ConsumptionIsPerUnit(comps, id, quantity);
    }
  }

  lemma ZeroRequirementsTail(products: seq<Product>, stock: map<int, int>, stock': map<int, int>)
    requires |products| > 0
    requires ZeroRequirementsResolve(products, stock)
    requires stock'.Keys == stock.Keys
    ensures ZeroRequirementsOf(products[0], stock)
    ensures ZeroRequirementsResolve(products[1..], stock')
  {
    assert forall i :: 0 <= i < |products[1..]| ==> products[1..][i] == products[i + 1];
  }

  /** The outer loop over the products, as a fold. */
  function Allocate(products: seq<Product>, stock: map<int, int>): (a: Allocation)
    requires ZeroRequirementsResolve(products, stock)
    ensures |a.quantities| == |products|
    ensures a.rest.Keys == stock.Keys
    decreases |products|
  {
    if |products| == 0 then Allocation([], [], stock)
    else
      var p := products[0];
      var q := Quantity(p, stock);
      ZeroRequirementsTail(products, stock, StockAfter(p, stock));
      var tail := Allocate(products[1..], StockAfter(p, stock));
      Allocation([q] + tail.quantities, (if q > 0 then [Item(p, q)] else []) + tail.items, tail.rest)
  }

  /** Sum of the report lines' subtotals (the `mapToDouble(..).sum()` stream). */
  function SumSubtotals(items: seq<ProductionItemDto>): real {
    if |items| == 0 then 0.0 else SumSubtotals(items[..|items| - 1]) + items[|items| - 1].subtotal
  }

  /** The report: the lines, and their total. */
  function Suggest(products: seq<Product>, stock: map<int, int>): (r: ProductionReportDto)
    requires ZeroRequirementsResolve(products, stock)
    ensures r.suggestedItems == Some(Allocate(products, stock).items)
    ensures r.totalEstimatedValue == Some(Revenue(products, Allocate(products, stock).quantities))
  {
    var items := Allocate(products, stock).items;
    TotalIsRevenue(products, stock);
    ProductionReportDto(Some(items), Some(SumSubtotals(items)))
  }

  /** The temporary stock: a copy of every raw material's stock quantity. */
  function StockOf(rawMaterials: map<int, RawMaterial>): (stock: map<int, int>)
    ensures stock.Keys == rawMaterials.Keys
    ensures forall id :: id in stock ==> stock[id] == rawMaterials[id].stockQuantity
  {
    map id | id in rawMaterials :: rawMaterials[id].stockQuantity
  }

  // ---------------------------------------------------------------------
  // Properties of the allocation
  // ---------------------------------------------------------------------

  /** Units of raw material `rawMaterialId` the whole plan consumes. */
  function Consumed(products: seq<Product>, quantities: seq<nat>, rawMaterialId: int): int
    requires |quantities| == |products|
  {
    if |products| == 0 then 0
    else PerUnit(products[0].compositions, rawMaterialId) * quantities[0] + Consumed(products[1..], quantities[1..], rawMaterialId)
  }

  /** The first step of the fold, unfolded. */
  lemma AllocateHead(products: seq<Product>, stock: map<int, int>)
    requires |products| > 0
    requires ZeroRequirementsResolve(products, stock)
    ensures ZeroRequirementsOf(products[0], stock)
    ensures ZeroRequirementsResolve(products[1..], StockAfter(products[0], stock))
    ensures var a := Allocate(products, stock);
            var q := Quantity(products[0], stock);
            var tail := Allocate(products[1..], StockAfter(products[0], stock));
            && a.quantities == [q] + tail.quantities
            && a.items == (if q > 0 then [Item(products[0], q)] else []) + tail.items
            && a.rest == tail.rest
  {
    ZeroRequirementsTail(products, stock, StockAfter(products[0], stock));
  }

  /** Conservation: what is left of each material is its initial stock less
      what the assigned quantities consume. */
  lemma {:induction false} AllocateConserves(products: seq<Product>, stock: map<int, int>)
    requires ZeroRequirementsResolve(products, stock)
    ensures var a := Allocate(products, stock);
            forall id :: id in stock ==> a.rest[id] == stock[id] - Consumed(products, a.quantities, id)
    decreases |products|
  {
    if |products| > 0 {
      AllocateHead(products, stock);
      AllocateConserves(products[1..], StockAfter(products[0], stock));
      var a := Allocate(products, stock);
      assert a.quantities[1..] == Allocate(products[1..], StockAfter(products[0], stock)).quantities;
    }
  }

  /** The temporary stock as it stands when the `i`-th product is visited. */
  function StockBefore(products: seq<Product>, quantities: seq<nat>, stock: map<int, int>, i: nat): (r: map<int, int>)
    requires |quantities| == |products| && i <= |products|
    ensures r.Keys == stock.Keys
  {
    map id | id in stock :: stock[id] - Consumed(products[..i], quantities[..i], id)
  }

  lemma StockBeforeStart(products: seq<Product>, quantities: seq<nat>, stock: map<int, int>)
    requires |quantities| == |products|
    ensures StockBefore(products, quantities, stock, 0) == stock
  {
    assert forall id :: id in stock ==> Consumed(products[..0], quantities[..0], id) == 0;
  }

  /** The stock before product `i` of the whole list is the stock before
      product `i - 1` of its tail, which starts after the first product. */
  lemma StockBeforeShift(products: seq<Product>, quantities: seq<nat>, stock: map<int, int>)
    requires |quantities| == |products| > 0
    requires ZeroRequirementsOf(products[0], stock)
    requires quantities[0] == Quantity(products[0], stock)
    ensures forall i :: 1 <= i <= |products| ==>
              StockBefore(products[1..], quantities[1..], StockAfter(products[0], stock), i - 1) == StockBefore(products, quantities, stock, i)
  {
    forall i | 1 <= i <= |products|
      ensures StockBefore(products[1..], quantities[1..], StockAfter(products[0], stock), i - 1) == StockBefore(products, quantities, stock, i)
    {
      StockBeforeShiftAt(products, quantities, stock, i);
    }
  }

  lemma StockBeforeShiftAt(products: seq<Product>, quantities: seq<nat>, stock: map<int, int>, i: nat)
    requires |quantities| == |products| > 0
    requires ZeroRequirementsOf(products[0], stock)
    requires quantities[0] == Quantity(products[0], stock)
    requires 1 <= i <= |products|
    ensures StockBefore(products[1..], quantities[1..], StockAfter(products[0], stock), i - 1) == StockBefore(products, quantities, stock, i)
  {
    var stock' := StockAfter(products[0], stock);
    var ps, qs := products[..i], quantities[..i];
    assert ps[1..] == products[1..][..i - 1];
    assert qs[1..] == quantities[1..][..i - 1];
    assert ps[0] == products[0] && qs[0] == quantities[0];
    var left := StockBefore(products[1..], quantities[1..], stock', i - 1);
    var right := StockBefore(products, quantities, stock, i);
    forall id | id in stock
      ensures left[id] == right[id]
    {
      assert Consumed(ps, qs, id) == PerUnit(products[0].compositions, id) * quantities[0] + Consumed(ps[1..], qs[1..], id);
    }
  }

  /** Greedy: every product is assigned the quantity its compositions allow
      from the stock the earlier products left behind. */
  lemma {:induction false} AllocateIsGreedy(products: seq<Product>, stock: map<int, int>)
    requires ZeroRequirementsResolve(products, stock)
    ensures var a := Allocate(products, stock);
            forall i :: 0 <= i < |products| ==>
              a.quantities[i] == Quantity(products[i], StockBefore(products, a.quantities, stock, i))
    decreases |products|
  {
    if |products| > 0 {
      var a := Allocate(products, stock);
      var p := products[0];
      var stock' := StockAfter(p, stock);
      AllocateHead(products, stock);
      AllocateIsGreedy(products[1..], stock');
      var qs := a.quantities;
      StockBeforeStart(products, qs, stock);
      StockBeforeShift(products, qs, stock);
      forall i | 0 <= i < |products|
        ensures qs[i] == Quantity(products[i], StockBefore(products, qs, stock, i))
      {
        if i > 0 {
          assert products[1..][i - 1] == products[i];
        }
      }
    }
  }

  /** The report lines are the items of the products at positions `idx`. */
  ghost predicate Emits(products: seq<Product>, quantities: seq<nat>, items: seq<ProductionItemDto>, idx: seq<nat>)
    requires |quantities| == |products|
  {
    && |idx| == |items|
    && forall k :: 0 <= k < |idx| ==> idx[k] < |products| && items[k] == Item(products[idx[k]], quantities[idx[k]])
  }

  /** The report lists exactly the products with a positive quantity, one
      line each, in the order they were visited. */
  lemma {:induction false} AllocateEmitsInOrder(products: seq<Product>, stock: map<int, int>)
    requires ZeroRequirementsResolve(products, stock)
    ensures var a := Allocate(products, stock);
            Emits(products, a.quantities, a.items, Lists.Positive(a.quantities))
    decreases |products|
  {
    if |products| > 0 {
      var a := Allocate(products, stock);
      var p := products[0];
      var q := Quantity(p, stock);
      var stock' := StockAfter(p, stock);
      AllocateHead(products, stock);
      AllocateEmitsInOrder(products[1..], stock');
      var tail := Allocate(products[1..], stock');
      assert products == [p] + products[1..];
      EmitsCons(p, products[1..], q, tail.quantities, tail.items);
    }
  }

  /** Putting one more product in front of the plan. */
  lemma EmitsCons(p: Product, products: seq<Product>, q: nat, quantities: seq<nat>, items: seq<ProductionItemDto>)
    requires |quantities| == |products|
    requires Emits(products, quantities, items, Lists.Positive(quantities))
    ensures Emits([p] + products, [q] + quantities, (if q > 0 then [Item(p, q)] else []) + items, Lists.Positive([q] + quantities))
  {
    var qs := [q] + quantities;
    var ps := [p] + products;
    assert qs[1..] == quantities;
    var s := Lists.Shift(Lists.Positive(quantities));
    EmitsShift(p, products, q, quantities, items, Lists.Positive(quantities));
    if q > 0 {
      assert Lists.Positive(qs) == [0] + s;
      EmitsPrepend(ps, qs, items, s);
    } else {
      assert Lists.Positive(qs) == s;
      assert [] + items == items;
    }
  }

  /** The positions of a plan, moved one place right by a product in front. */
  lemma EmitsShift(p: Product, products: seq<Product>, q: nat, quantities: seq<nat>, items: seq<ProductionItemDto>, idx: seq<nat>)
    requires |quantities| == |products|
    requires Emits(products, quantities, items, idx)
    ensures Emits([p] + products, [q] + quantities, items, Lists.Shift(idx))
  {
    var ps, qs := [p] + products, [q] + quantities;
    forall k | 0 <= k < |idx|
      ensures Lists.Shift(idx)[k] < |ps| && items[k] == Item(ps[Lists.Shift(idx)[k]], qs[Lists.Shift(idx)[k]])
    {
      assert ps[idx[k] + 1] == products[idx[k]] && qs[idx[k] + 1] == quantities[idx[k]];
    }
  }

  /** The line of the front product, listed before the others. */
  lemma EmitsPrepend(ps: seq<Product>, qs: seq<nat>, items: seq<ProductionItemDto>, idx: seq<nat>)
    requires |qs| == |ps| > 0
    requires Emits(ps, qs, items, idx)
    ensures Emits(ps, qs, [Item(ps[0], qs[0])] + items, [0] + idx)
  {
    var all, idx' := [Item(ps[0], qs[0])] + items, [0] + idx;
    forall k | 0 <= k < |idx'|
      ensures idx'[k] < |ps| && all[k] == Item(ps[idx'[k]], qs[idx'[k]])
    {
      if k > 0 {
        assert idx'[k] == idx[k - 1] && all[k] == items[k - 1];
      }
    }
  }

  /** The units of a material one unit of a product consumes, when the product
      links each material at most once: that composition's requirement, or zero. */
  lemma {:induction false} PerUnitOfDistinct(comps: seq<Composition>, rawMaterialId: int)
    requires forall i, j :: 0 <= i < j < |comps| ==> comps[i].rawMaterialId != comps[j].rawMaterialId
    ensures (forall j :: 0 <= j < |comps| ==> comps[j].rawMaterialId != rawMaterialId) ==> PerUnit(comps, rawMaterialId) == 0
    ensures forall j :: 0 <= j < |comps| && comps[j].rawMaterialId == rawMaterialId ==>
              PerUnit(comps, rawMaterialId) == comps[j].requiredQuantity
    decreases |comps|
  {
    if |comps| > 0 {
      PerUnitOfDistinct(comps[1..], rawMaterialId);
      forall j | 1 <= j < |comps| ensures comps[j] == comps[1..][j - 1] {}
    }
  }

  /** A material a product consumes at `required` per unit keeps a
      non-negative level after `q` units whenever the loop's check allowed them. */
  lemma LeftoverNonNegative(available: int, required: int, q: nat)
    requires available >= 0
    requires required > 0 ==> q * required <= available
    ensures available - required * q >= 0
  {
  }

  /** Visiting one product never drives a material negative, provided the
      product links each material at most once. */
  lemma StockAfterNonNegative(p: Product, stock: map<int, int>)
    requires ZeroRequirementsOf(p, stock)
    requires DistinctMaterials(p)
    requires forall id :: id in stock ==> stock[id] >= 0
    ensures forall id :: id in stock ==> StockAfter(p, stock)[id] >= 0
  {
    forall id | id in stock
      ensures StockAfter(p, stock)[id] >= 0
    {
      LeftoverAt(p, stock, id);
    }
  }

  lemma LeftoverAt(p: Product, stock: map<int, int>, id: int)
    requires ZeroRequirementsOf(p, stock)
    requires DistinctMaterials(p)
    requires id in stock && stock[id] >= 0
    ensures StockAfter(p, stock)[id] >= 0
  {
    var q := Quantity(p, stock);
    var comps := p.compositions;
    assert StockAfter(p, stock)[id] == stock[id] - PerUnit(comps, id) * q;
    PerUnitOfDistinct(comps, id);
    if j :| 0 <= j < |comps| && comps[j].rawMaterialId == id {
      var c := comps[j];
      assert PerUnit(comps, id) == c.requiredQuantity;
      if Constrains(c) && q > 0 {
        QuantityIsLargestFeasible(p, stock);
        assert q * c.requiredQuantity <= Available(stock, id);
      }
      LeftoverNonNegative(stock[id], c.requiredQuantity, q);
    } else {
      assert PerUnit(comps, id) == 0;
    }
  }

  /** No material is over-consumed: starting from non-negative stock, with
      every product linking each material at most once, nothing left over
      is negative. */
  lemma {:induction false} AllocateNeverOverdraws(products: seq<Product>, stock: map<int, int>)
    requires ZeroRequirementsResolve(products, stock)
    requires forall id :: id in stock ==> stock[id] >= 0
    requires forall i :: 0 <= i < |products| ==> DistinctMaterials(products[i])
    ensures var a := Allocate(products, stock);
            forall id :: id in a.rest ==> a.rest[id] >= 0
    decreases |products|
  {
    if |products| > 0 {
      AllocateHead(products, stock);
      StockAfterNonNegative(products[0], stock);
      AllocateNeverOverdraws(products[1..], StockAfter(products[0], stock));
    }
  }

  /** Sum over the plan of quantity times price. */
  function Revenue(products: seq<Product>, quantities: seq<nat>): real
    requires |quantities| == |products|
  {
    if |products| == 0 then 0.0 else Subtotal(products[0].price, quantities[0]) + Revenue(products[1..], quantities[1..])
  }

  lemma {:induction false} SumSubtotalsAppend(a: seq<ProductionItemDto>, b: seq<ProductionItemDto>)
    ensures SumSubtotals(a + b) == SumSubtotals(a) + SumSubtotals(b)
    decreases |b|
  {
    if |b| > 0 {
      assert (a + b)[..|a + b| - 1] == a + b[..|b| - 1];
      SumSubtotalsAppend(a, b[..|b| - 1]);
    } else {
      assert a + b == a;
    }
  }

  /** The report's total is the value of the plan: each product's quantity
      times its price, summed. */
  lemma {:induction false} TotalIsRevenue(products: seq<Product>, stock: map<int, int>)
    requires ZeroRequirementsResolve(products, stock)
    ensures var a := Allocate(products, stock);
            SumSubtotals(a.items) == Revenue(products, a.quantities)
    decreases |products|
  {
    if |products| > 0 {
      var a := Allocate(products, stock);
      var p := products[0];
      var q := Quantity(p, stock);
      AllocateHead(products, stock);
      var tail := Allocate(products[1..], StockAfter(p, stock));
      TotalIsRevenue(products[1..], StockAfter(p, stock));
      var head := if q > 0 then [Item(p, q)] else [];
      SumSubtotalsAppend(head, tail.items);
      HeadSubtotal(p, q);
      assert products == [p] + products[1..];
      RevenueCons(p, products[1..], q, tail.quantities);
    }
  }

  lemma RevenueCons(p: Product, products: seq<Product>, q: nat, quantities: seq<nat>)
    requires |quantities| == |products|
    ensures Revenue([p] + products, [q] + quantities) == Subtotal(p.price, q) + Revenue(products, quantities)
  {
    assert ([p] + products)[1..] == products;
    assert ([q] + quantities)[1..] == quantities;
  }

  lemma HeadSubtotal(p: Product, q: nat)
    ensures SumSubtotals(if q > 0 then [Item(p, q)] else []) == Subtotal(p.price, q)
  {
    if q > 0 {
      assert [Item(p, q)][..0] == [];
    }
  }

  // ---------------------------------------------------------------------
  // The service method, with its three loops
  // ---------------------------------------------------------------------

  /** The first inner loop: the minimum, from `Integer.MAX_VALUE`, of the
      whole units each constraining composition allows. */
  method ComputeCapacity(comps: seq<Composition>, stock: map<int, int>) returns (maxQuantity: int)
    ensures maxQuantity == Capacity(comps, stock)
  {
    maxQuantity := INT_MAX;
    var j := 0;
    while j < |comps|
      invariant 0 <= j <= |comps|
      invariant maxQuantity == Capacity(comps[..j], stock)
    {
      assert comps[..j + 1][..j] == comps[..j];
      if Constrains(comps[j]) {
        var possible := QuotientAsInt(Available(stock, comps[j].rawMaterialId), comps[j].requiredQuantity);
        if possible < maxQuantity {
          maxQuantity := possible;
        }
      }
      j := j + 1;
    }
    assert comps[..|comps|] == comps;
  }

  /** The second inner loop: subtract each composition's requirement times
      the quantity from the temporary stock. */
  method DeductStock(stock: map<int, int>, comps: seq<Composition>, quantity: int) returns (temporary: map<int, int>)
    requires forall j :: 0 <= j < |comps| ==> comps[j].rawMaterialId in stock
    ensures temporary == Deduct(stock, comps, quantity)
  {
    var k := 0;
    temporary := stock;
    while k < |comps|
      invariant 0 <= k <= |comps|
      invariant temporary.Keys == stock.Keys
      invariant Deduct(temporary, comps[k..], quantity) == Deduct(stock, comps, quantity)
    {
      var id := comps[k].rawMaterialId;
      assert comps[k..][1..] == comps[k + 1..];
      temporary := temporary[id := temporary[id] - comps[k].requiredQuantity * quantity];
      k := k + 1;
    }
  }

  /** The closing loop: the sum of the report lines' subtotals. */
  method SumItems(items: seq<ProductionItemDto>) returns (total: real)
    ensures total == SumSubtotals(items)
  {
    total := 0.0;
    var k := 0;
    while k < |items|
      invariant 0 <= k <= |items|
      invariant total == SumSubtotals(items[..k])
    {
      assert items[..k + 1][..k] == items[..k];
      total := total + items[k].subtotal;
      k := k + 1;
    }
    assert items[..|items|] == items;
  }

  /** One pass of the outer loop: the report line the product contributes,
      if any, and the stock after it. */
  method VisitProduct(p: Product, stock: map<int, int>) returns (emitted: seq<ProductionItemDto>, next: map<int, int>)
    requires ZeroRequirementsOf(p, stock)
    ensures next == StockAfter(p, stock)
    ensures emitted == (if Quantity(p, stock) > 0 then [Item(p, Quantity(p, stock))] else [])
  {
    emitted, next := [], stock;
    if |p.compositions| > 0 {
      var maxQuantity := ComputeCapacity(p.compositions, stock);
      if maxQuantity > 0 && maxQuantity != INT_MAX {
        next := DeductStock(stock, p.compositions, maxQuantity);
        emitted := [Item(p, maxQuantity)];
      }
    }
  }

  lemma ConcatAssoc<T>(a: seq<T>, b: seq<T>, c: seq<T>)
    ensures a + (b + c) == a + b + c
  {
  }

  /** The outer loop over the products: the report lines, in order. */
  method SuggestItems(products: seq<Product>, stock0: map<int, int>) returns (items: seq<ProductionItemDto>)
    requires ZeroRequirementsResolve(products, stock0)
    ensures items == Allocate(products, stock0).items
  {
    var stock := stock0;
    items := [];
    var i := 0;
    ghost var target := Allocate(products, stock0).items;
    ghost var remaining := products;
    while i < |products|
      invariant 0 <= i <= |products|
      invariant remaining == products[i..]
      invariant ZeroRequirementsResolve(remaining, stock)
      invariant items + Allocate(remaining, stock).items == target
      decreases |products| - i
    {
      AllocateHead(remaining, stock);
      var emitted, next := VisitProduct(products[i], stock);
      ConcatAssoc(items, emitted, Allocate(remaining[1..], next).items);
      items := items + emitted;
      stock := next;
      remaining := remaining[1..];
      i := i + 1;
    }
    assert items + [] == items;
  }

  /** `calculateSuggestedProduction`: reads the products (price-descending)
      and the raw materials, works on a copy of the stock, and returns the
      report. The store itself is an input only, so it is left unchanged. */
  method CalculateSuggestedProduction(products: seq<Product>, rawMaterials: map<int, RawMaterial>)
    returns (report: ProductionReportDto)
    requires ZeroRequirementsResolve(products, StockOf(rawMaterials))
    ensures report == Suggest(products, StockOf(rawMaterials))
  {
    var items := SuggestItems(products, StockOf(rawMaterials));
    var total := SumItems(items);
    report := ProductionReportDto(Some(items), Some(total));
  }

  // ---------------------------------------------------------------------
  // Worked cases
  // ---------------------------------------------------------------------

  /** One product needing 10 steel per unit, 100 steel in stock: 10 units
      worth 500.0. */
  lemma EnoughStockExample()
    ensures var steel := RawMaterial(1, "Steel", 100);
            var widget := Product(1, "Widget", 50.0, [Composition(1, 1, 10)]);
            Suggest([widget], StockOf(map[1 := steel]))
              == ProductionReportDto(Some([ProductionItemDto("Widget", Some(10), 500.0)]), Some(500.0))
  {
    var steel := RawMaterial(1, "Steel", 100);
    var widget := Product(1, "Widget", 50.0, [Composition(1, 1, 10)]);
    var stock := StockOf(map[1 := steel]);
    assert widget.compositions[..0] == [] && widget.compositions[..1] == widget.compositions;
    assert Quantity(widget, stock) == 10;
    var a := Allocate([widget], stock);
    AllocateHead([widget], stock);
    assert a.items == [Item(widget, 10)];
    assert SumSubtotals(a.items) == SumSubtotals([]) + 500.0;
  }

  /** No stock: no lines and a zero total. */
  lemma NoStockExample()
    ensures var steel := RawMaterial(1, "Steel", 0);
            var widget := Product(1, "Widget", 50.0, [Composition(1, 1, 10)]);
            Suggest([widget], StockOf(map[1 := steel])) == ProductionReportDto(Some([]), Some(0.0))
  {
    var steel := RawMaterial(1, "Steel", 0);
    var widget := Product(1, "Widget", 50.0, [Composition(1, 1, 10)]);
    var stock := StockOf(map[1 := steel]);
    assert widget.compositions[..0] == [] && widget.compositions[..1] == widget.compositions;
    assert Quantity(widget, stock) == 0;
    AllocateHead([widget], stock);
  }

  /** A product without compositions is skipped, whatever its price. */
  lemma NoCompositionsExample()
    ensures var ghostProduct := Product(1, "Ghost Product", 999.0, []);
            Suggest([ghostProduct], map[]) == ProductionReportDto(Some([]), Some(0.0))
  {
    var ghostProduct := Product(1, "Ghost Product", 999.0, []);
    AllocateHead([ghostProduct], map[]);
  }

  /** The quantities of the two products below: 2 for the first, nothing
      left for the second. */
  lemma SharedSteelQuantities(premium: Product, cheap: Product, stock: map<int, int>)
    requires stock == map[1 := 10]
    requires premium.compositions == [Composition(1, 1, 5)] && cheap.compositions == [Composition(2, 1, 5)]
    ensures Quantity(premium, stock) == 2
    ensures Quantity(cheap, StockAfter(premium, stock)) == 0
  {
    assert premium.compositions[..0] == [] && premium.compositions[..1] == premium.compositions;
    assert cheap.compositions[..0] == [] && cheap.compositions[..1] == cheap.compositions;
    assert Capacity(premium.compositions, stock) == 2;
    var stock' := StockAfter(premium, stock);
    assert PerUnit(premium.compositions, 1) == 5;
    assert stock'[1] == 0;
    assert Capacity(cheap.compositions, stock') == 0;
  }

  /** A plan of two products where the second gets nothing lists only the first. */
  lemma FirstOfTwoTakesAll(p1: Product, p2: Product, stock: map<int, int>)
    requires ZeroRequirementsResolve([p1, p2], stock)
    requires Quantity(p1, stock) > 0
    requires ZeroRequirementsOf(p1, stock) && Quantity(p2, StockAfter(p1, stock)) == 0
    ensures Allocate([p1, p2], stock).items == [Item(p1, Quantity(p1, stock))]
  {
    AllocateHead([p1, p2], stock);
    assert [p1, p2][1..] == [p2];
    AllocateHead([p2], StockAfter(p1, stock));
  }

  /** Two products sharing 10 steel at 5 per unit: the dearer one, visited
      first, takes all of it, and the cheaper one gets nothing. */
  lemma HigherPriceFirstExample()
    ensures var steel := RawMaterial(1, "Steel", 10);
            var premium := Product(1, "Premium Widget", 200.0, [Composition(1, 1, 5)]);
            var cheap := Product(2, "Cheap Widget", 50.0, [Composition(2, 1, 5)]);
            Allocate([premium, cheap], StockOf(map[1 := steel])).items == [ProductionItemDto("Premium Widget", Some(2), 400.0)]
  {
    var steel := RawMaterial(1, "Steel", 10);
    var premium := Product(1, "Premium Widget", 200.0, [Composition(1, 1, 5)]);
    var cheap := Product(2, "Cheap Widget", 50.0, [Composition(2, 1, 5)]);
    var stock := StockOf(map[1 := steel]);
    assert stock == map[1 := 10];
    SharedSteelQuantities(premium, cheap, stock);
    FirstOfTwoTakesAll(premium, cheap, stock);
    assert Item(premium, 2) == ProductionItemDto("Premium Widget", Some(2), 400.0);
  }

  /** The `Integer.MAX_VALUE` sentinel: a product whose capacity reaches it is
      not reported, although every unit of it could be made. */
  lemma SaturatedCapacityIsSkipped()
    ensures var p := Product(1, "Bolt", 1.0, [Composition(1, 1, 1)]);
            var stock := map[1 := INT_MAX];
            && Feasible(p, stock, INT_MAX)
            && Allocate([p], stock).items == []
  {
    var p := Product(1, "Bolt", 1.0, [Composition(1, 1, 1)]);
    var stock := map[1 := INT_MAX];
    assert p.compositions[..0] == [] && p.compositions[..1] == p.compositions;
    assert Quantity(p, stock) == 0;
    AllocateHead([p], stock);
  }
}
