/** The raw materials page's derived figures: how many materials are low
    on stock and how many are adequate, the largest stock (the scale of the
    bars), each row's bar width and its status badge. */
module RawMaterialsPage {
  import opened Dto

  /** Stock at or below this quantity is low. */
  const LOW_STOCK_THRESHOLD: int := 10

  function IsLow(m: RawMaterialDto): (b: bool)
    ensures b <==> !(m.stockQuantity > LOW_STOCK_THRESHOLD)
    ensures m.stockQuantity <= 0 ==> b
  {
    m.stockQuantity <= LOW_STOCK_THRESHOLD
  }

  /** Size of the filter keeping low rows. */
  function LowStock(materials: seq<RawMaterialDto>): (n: nat)
    ensures n <= |materials|
    ensures n == 0 <==> forall i :: 0 <= i < |materials| ==> !IsLow(materials[i])
    ensures n == |materials| <==> forall i :: 0 <= i < |materials| ==> IsLow(materials[i])
  {
    if |materials| == 0 then 0
    else LowStock(materials[..|materials| - 1]) + (if IsLow(materials[|materials| - 1]) then 1 else 0)
  }

  /** Size of the filter keeping rows strictly above the threshold. */
  function Adequate(materials: seq<RawMaterialDto>): (n: nat)
    ensures n <= |materials|
    ensures n == 0 <==> forall i :: 0 <= i < |materials| ==> materials[i].stockQuantity <= LOW_STOCK_THRESHOLD
    ensures n == |materials| <==> forall i :: 0 <= i < |materials| ==> materials[i].stockQuantity > LOW_STOCK_THRESHOLD
  {
    if |materials| == 0 then 0
    else Adequate(materials[..|materials| - 1]) + (if materials[|materials| - 1].stockQuantity > LOW_STOCK_THRESHOLD then 1 else 0)
  }

  /** The two cards split the materials: every row is counted by exactly one. */
  lemma {:induction false} LowAndAdequatePartition(materials: seq<RawMaterialDto>)
    ensures LowStock(materials) + Adequate(materials) == |materials|
    decreases |materials|
  {
    if |materials| > 0 {
      LowAndAdequatePartition(materials[..|materials| - 1]);
    }
  }

  /** Counting is per row: the counts of a concatenation add up. */
  lemma {:induction false} CountsAppend(a: seq<RawMaterialDto>, b: seq<RawMaterialDto>)
    ensures LowStock(a + b) == LowStock(a) + LowStock(b)
    ensures Adequate(a + b) == Adequate(a) + Adequate(b)
    decreases |b|
  {
    if |b| == 0 {
      assert a + b == a;
    } else {
      assert (a + b)[..|a + b| - 1] == a + b[..|b| - 1];
      CountsAppend(a, b[..|b| - 1]);
    }
  }

  /** The threshold itself is low; one more is adequate. */
  lemma ThresholdIsInclusive()
    ensures IsLow(RawMaterialDto(1, "Aço", 10))
    ensures !IsLow(RawMaterialDto(2, "Cobre", 11))
  {
  }

  /** Stocks 100, 8 and 200 make one low and two adequate materials. */
  lemma CountsExample()
    ensures LowStock([RawMaterialDto(1, "A", 100), RawMaterialDto(2, "B", 8), RawMaterialDto(3, "C", 200)]) == 1
    ensures Adequate([RawMaterialDto(1, "A", 100), RawMaterialDto(2, "B", 8), RawMaterialDto(3, "C", 200)]) == 2
  {
    var ms := [RawMaterialDto(1, "A", 100), RawMaterialDto(2, "B", 8), RawMaterialDto(3, "C", 200)];
    assert ms[..2][..1] == ms[..1];
    assert ms[..1][..0] == [];
    assert LowStock(ms[..1]) == 0 && Adequate(ms[..1]) == 1;
    assert LowStock(ms[..2]) == 1 && Adequate(ms[..2]) == 1;
  }

  /** `Math.max` over the stocks, or 1 when there are no rows. */
  function MaxStock(materials: seq<RawMaterialDto>): (m: int)
    ensures |materials| == 0 ==> m == 1
    ensures forall i :: 0 <= i < |materials| ==> materials[i].stockQuantity <= m
    ensures |materials| > 0 ==> exists i :: 0 <= i < |materials| && materials[i].stockQuantity == m
  {
    if |materials| == 0 then 1
    else if |materials| == 1 then materials[0].stockQuantity
    else
      var m := MaxStock(materials[..|materials| - 1]);
      assert forall i :: 0 <= i < |materials| - 1 ==> materials[..|materials| - 1][i] == materials[i];
      if m >= materials[|materials| - 1].stockQuantity then m else materials[|materials| - 1].stockQuantity
  }

  /** The bar width in percent of the largest stock; 0 when that is not positive. */
  function Pct(stock: int, maxStock: int): (r: real)
    ensures maxStock <= 0 ==> r == 0.0
    ensures maxStock > 0 && 0 <= stock <= maxStock ==> 0.0 <= r <= 100.0
    ensures maxStock > 0 ==> (r == 100.0 <==> stock == maxStock)
  {
    if maxStock > 0 then stock as real / maxStock as real * 100.0 else 0.0
  }

  /** Every bar of a page with non-negative stocks lies between 0 and 100,
      and the largest stock fills its bar. */
  lemma BarsWithinRange(materials: seq<RawMaterialDto>, i: int)
    requires 0 <= i < |materials|
    requires forall j :: 0 <= j < |materials| ==> materials[j].stockQuantity >= 0
    ensures 0.0 <= Pct(materials[i].stockQuantity, MaxStock(materials)) <= 100.0
    ensures MaxStock(materials) > 0 && materials[i].stockQuantity == MaxStock(materials)
            ==> Pct(materials[i].stockQuantity, MaxStock(materials)) == 100.0
  {
  }

  /** The status badge of a row. */
  function Badge(m: RawMaterialDto): (b: string)
    ensures b == "Baixo" <==> IsLow(m)
    ensures b == "Baixo" || b == "Adequado"
  {
    if IsLow(m) then "Baixo" else "Adequado"
  }

  /** How many rows carry the given badge. */
  function CountBadges(materials: seq<RawMaterialDto>, badge: string): nat {
    if |materials| == 0 then 0
    else CountBadges(materials[..|materials| - 1], badge) + (if Badge(materials[|materials| - 1]) == badge then 1 else 0)
  }

  /** The summary cards agree with the table: the rows badged low are the
      low-stock count and the rows badged adequate are the adequate count. */
  lemma {:induction false} BadgesMatchCards(materials: seq<RawMaterialDto>)
    ensures CountBadges(materials, "Baixo") == LowStock(materials)
    ensures CountBadges(materials, "Adequado") == Adequate(materials)
    decreases |materials|
  {
    if |materials| > 0 {
      BadgesMatchCards(materials[..|materials| - 1]);
    }
  }
}
