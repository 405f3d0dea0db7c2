/** The production dashboard's derived figures: the units to produce, the
    largest line value, the best line, and for every line whether it is
    highlighted as the best and the width of its bar. */
module ProductionDashboard {
  import opened Wrappers
  import opened Dto

  /** `reduce` over `quantityToProduce ?? 0`, starting from 0. */
  function TotalUnits(items: seq<ProductionItemDto>): (n: int)
    ensures (forall i :: 0 <= i < |items| ==> items[i].quantityToProduce.None?) ==> n == 0
    ensures |items| > 0 ==> n == TotalUnits(items[..|items| - 1]) + items[|items| - 1].quantityToProduce.GetOr(0)
  {
    if |items| == 0 then 0
    else TotalUnits(items[..|items| - 1]) + items[|items| - 1].quantityToProduce.GetOr(0)
  }

  /** Units add up line by line: the sum over a concatenation is the sum of the sums. */
  lemma {:induction false} TotalUnitsAppend(a: seq<ProductionItemDto>, b: seq<ProductionItemDto>)
    ensures TotalUnits(a + b) == TotalUnits(a) + TotalUnits(b)
    decreases |b|
  {
    if |b| == 0 {
      assert a + b == a;
    } else {
      assert (a + b)[..|a + b| - 1] == a + b[..|b| - 1];
      TotalUnitsAppend(a, b[..|b| - 1]);
    }
  }

  /** A single line contributes its quantity, or zero when it has none. */
  lemma TotalUnitsSingle(it: ProductionItemDto)
    ensures TotalUnits([it]) == it.quantityToProduce.GetOr(0)
    ensures it.quantityToProduce.None? ==> TotalUnits([it]) == 0
  {
    assert [it][..0] == [];
  }

  /** Lines without a quantity count as zero, so units are never negative
      when the quantities present are not. */
  lemma {:induction false} TotalUnitsNonNegative(items: seq<ProductionItemDto>)
    requires forall i :: 0 <= i < |items| && items[i].quantityToProduce.Some? ==> items[i].quantityToProduce.value >= 0
    ensures TotalUnits(items) >= 0
    decreases |items|
  {
    if |items| > 0 {
      TotalUnitsNonNegative(items[..|items| - 1]);
    }
  }

  /** Two lines of 20 and 5 units make 25; a line without a quantity adds nothing. */
  lemma TotalUnitsExample()
    ensures TotalUnits([ProductionItemDto("A", Some(20), 200.0), ProductionItemDto("B", Some(5), 50.0)]) == 25
    ensures TotalUnits([ProductionItemDto("A", Some(20), 200.0), ProductionItemDto("C", None, 0.0)]) == 20
  {
    var a := [ProductionItemDto("A", Some(20), 200.0), ProductionItemDto("B", Some(5), 50.0)];
    assert a[..1][..0] == [];
    var b := [ProductionItemDto("A", Some(20), 200.0), ProductionItemDto("C", None, 0.0)];
    assert b[..1][..0] == [];
  }

  /** `Math.max` over the subtotals, or 1 when there are no lines. */
  function MaxSubtotal(items: seq<ProductionItemDto>): (m: real)
    ensures |items| == 0 ==> m == 1.0
    ensures forall i :: 0 <= i < |items| ==> items[i].subtotal <= m
    ensures |items| > 0 ==> exists i :: 0 <= i < |items| && items[i].subtotal == m
  {
    if |items| == 0 then 1.0
    else if |items| == 1 then items[0].subtotal
    else
      var m := MaxSubtotal(items[..|items| - 1]);
      assert forall i :: 0 <= i < |items| - 1 ==> items[..|items| - 1][i] == items[i];
      if m >= items[|items| - 1].subtotal then m else items[|items| - 1].subtotal
  }

  /** Position `i` holds a largest subtotal and every later line is strictly smaller. */
  predicate IsLastMax(items: seq<ProductionItemDto>, i: int) {
    && 0 <= i < |items|
    && (forall j :: 0 <= j < |items| ==> items[j].subtotal <= items[i].subtotal)
    && (forall j :: i < j < |items| ==> items[j].subtotal < items[i].subtotal)
  }

  /** The `reduce` without a seed, on positions: keep the previous line
      only when its subtotal is strictly larger. */
  function BestIndex(items: seq<ProductionItemDto>): (i: nat)
    requires |items| > 0
    ensures IsLastMax(items, i)
  {
    if |items| == 1 then 0
    else
      var n := |items| - 1;
      var p := BestIndex(items[..n]);
      assert forall j :: 0 <= j < n ==> items[..n][j] == items[j];
      if items[p].subtotal > items[n].subtotal then p else n
  }

  /** `bestProduct`: null when there are no lines. */
  function Best(items: seq<ProductionItemDto>): (b: Option<ProductionItemDto>)
    ensures b.None? <==> |items| == 0
    ensures b.Some? ==> exists i :: IsLastMax(items, i) && b.value == items[i]
  {
    if |items| == 0 then None else Some(items[BestIndex(items)])
  }

  /** The last largest line is unique, so `Best` is determined by the subtotals. */
  lemma LastMaxUnique(items: seq<ProductionItemDto>, i: int, k: int)
    requires IsLastMax(items, i) && IsLastMax(items, k)
    ensures i == k
  {
    assert items[i].subtotal == items[k].subtotal;
  }

  /** The best line's subtotal is the largest one, which is also the scale of the bars. */
  lemma BestIsMax(items: seq<ProductionItemDto>)
    requires |items| > 0
    ensures Best(items).value.subtotal == MaxSubtotal(items)
  {
    var k :| 0 <= k < |items| && items[k].subtotal == MaxSubtotal(items);
    var b := BestIndex(items);
    assert items[k].subtotal <= items[b].subtotal <= MaxSubtotal(items);
  }

  /** On a tie the later line wins: the comparison is strict. */
  lemma TieGoesToLater()
    ensures Best([ProductionItemDto("A", Some(1), 10.0), ProductionItemDto("B", Some(2), 10.0)])
            == Some(ProductionItemDto("B", Some(2), 10.0))
  {
    var items := [ProductionItemDto("A", Some(1), 10.0), ProductionItemDto("B", Some(2), 10.0)];
    assert IsLastMax(items, 1);
    var i :| IsLastMax(items, i) && Best(items).value == items[i];
    LastMaxUnique(items, i, 1);
  }

  /** A card is highlighted when its product name equals the best line's. */
  function IsBest(best: Option<ProductionItemDto>, item: ProductionItemDto): (b: bool)
    ensures best.None? ==> !b
    ensures b ==> best.Some?
  {
    best.Some? && best.value.productName == item.productName
  }

  /** Once one card is highlighted, another is highlighted exactly when it
      carries the same product name. */
  lemma HighlightIsByName(best: Option<ProductionItemDto>, a: ProductionItemDto, b: ProductionItemDto)
    requires IsBest(best, a)
    ensures IsBest(best, b) <==> b.productName == a.productName
  {
  }

  /** Highlighting compares names: a second line with the best line's name
      is highlighted too, however small its value. */
  lemma SameNameHighlighted()
    ensures var items := [ProductionItemDto("A", Some(1), 10.0), ProductionItemDto("B", Some(1), 5.0),
                          ProductionItemDto("A", Some(1), 3.0)];
            IsBest(Best(items), items[0]) && IsBest(Best(items), items[2]) && !IsBest(Best(items), items[1])
  {
    var items := [ProductionItemDto("A", Some(1), 10.0), ProductionItemDto("B", Some(1), 5.0),
                  ProductionItemDto("A", Some(1), 3.0)];
    assert IsLastMax(items, 0);
    var i :| IsLastMax(items, i) && Best(items).value == items[i];
    LastMaxUnique(items, i, 0);
  }

  /** The bar width in percent of the largest subtotal; 0 when that is not positive. */
  function Pct(subtotal: real, maxSubtotal: real): (r: real)
    ensures maxSubtotal <= 0.0 ==> r == 0.0
    ensures maxSubtotal > 0.0 && 0.0 <= subtotal <= maxSubtotal ==> 0.0 <= r <= 100.0
    ensures maxSubtotal > 0.0 ==> (r == 100.0 <==> subtotal == maxSubtotal)
  {
    if maxSubtotal > 0.0 then subtotal / maxSubtotal * 100.0 else 0.0
  }

  /** Every bar of a list with non-negative values lies between 0 and 100. */
  lemma BarsWithinRange(items: seq<ProductionItemDto>, i: int)
    requires 0 <= i < |items|
    requires forall j :: 0 <= j < |items| ==> items[j].subtotal >= 0.0
    ensures 0.0 <= Pct(items[i].subtotal, MaxSubtotal(items)) <= 100.0
  {
  }

  /** The best line's bar is full whenever the largest value is positive. */
  lemma BestBarIsFull(items: seq<ProductionItemDto>)
    requires |items| > 0 && MaxSubtotal(items) > 0.0
    ensures Pct(Best(items).value.subtotal, MaxSubtotal(items)) == 100.0
  {
    BestIsMax(items);
  }
}
