/** From the server's report to the dashboard: the report the production
    service computes is loaded into the slice, and the dashboard's figures
    are derived from the slice. */
module ProductionView {
  import opened Wrappers
  import opened Dto
  import opened Entities
  import ProductionService
  import InventorySlice
  import ProductionDashboard

  /** Units in a plan: the sum of the quantities assigned to its products. */
  function Units(quantities: seq<nat>): nat {
    if |quantities| == 0 then 0 else quantities[0] + Units(quantities[1..])
  }

  /** The dashboard's unit count over the report lines is the number of
      units in the plan: products assigned zero get no line, and lose nothing. */
  lemma {:induction false} UnitsOfReport(products: seq<Product>, stock: map<int, int>)
    requires ProductionService.ZeroRequirementsResolve(products, stock)
    ensures ProductionDashboard.TotalUnits(ProductionService.Allocate(products, stock).items)
            == Units(ProductionService.Allocate(products, stock).quantities)
    decreases |products|
  {
    if |products| > 0 {
      var p := products[0];
      var q := ProductionService.Quantity(p, stock);
      ProductionService.AllocateHead(products, stock);
      var tail := ProductionService.Allocate(products[1..], ProductionService.StockAfter(p, stock));
      UnitsOfReport(products[1..], ProductionService.StockAfter(p, stock));
      var head := if q > 0 then [ProductionService.Item(p, q)] else [];
      ProductionDashboard.TotalUnitsAppend(head, tail.items);
      assert head == [] || head[..0] == [];
      assert ProductionDashboard.TotalUnits(head) == q;
      assert ([q] + tail.quantities)[1..] == tail.quantities;
    }
  }

  /** Loading the report computed from the catalogue and the stock gives the
      dashboard the plan's lines in order, a total equal to the plan's value,
      and a unit count equal to the plan's units. */
  lemma DashboardShowsPlan(s: InventorySlice.State, products: seq<Product>, rawMaterials: map<int, RawMaterial>)
    requires ProductionService.ZeroRequirementsResolve(products, ProductionService.StockOf(rawMaterials))
    ensures
      var stock := ProductionService.StockOf(rawMaterials);
      var r := InventorySlice.Step(s, InventorySlice.Fulfilled(InventorySlice.SuggestionsLoaded(ProductionService.Suggest(products, stock))));
      && r.suggestions == ProductionService.Allocate(products, stock).items
      && r.total == ProductionService.Revenue(products, ProductionService.Allocate(products, stock).quantities)
      && ProductionDashboard.TotalUnits(r.suggestions) == Units(ProductionService.Allocate(products, stock).quantities)
  {
    var stock := ProductionService.StockOf(rawMaterials);
    InventorySlice.SuggestionsDefaults(s, ProductionService.Suggest(products, stock));
    ProductionService.TotalIsRevenue(products, stock);
    UnitsOfReport(products, stock);
  }
}
