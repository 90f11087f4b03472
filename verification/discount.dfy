/** Discount exposure: the pieces carrying the red price label, over the
    whole store and per merch group. */
module Discount {
  import opened Seqs
  import opened Grouping
  import opened Records

  predicate IsDiscounted(r: StockRow)
  {
    r.labelType == DiscountLabel
  }

  function DiscountedRows(stock: seq<StockRow>): seq<StockRow>
  {
    Filter(stock, IsDiscounted)
  }

  /** `discounted_qty`: backroom plus floor pieces of the red-label rows. */
  function DiscountedQty(stock: seq<StockRow>): int
  {
    var d := DiscountedRows(stock);
    Sum(d, Warehouse) + Sum(d, Rayon)
  }

  lemma {:induction false} SumPcs(xs: seq<StockRow>)
    ensures Sum(xs, Pcs) == Sum(xs, Warehouse) + Sum(xs, Rayon)
  {
    if |xs| > 0 {
      SumPcs(xs[1..]);
    }
  }

  lemma {:induction false} SumWherePcs(xs: seq<StockRow>, g: string)
    ensures SumWhere(xs, StockGroup, Pcs, g) == SumWhere(xs, StockGroup, Warehouse, g) + SumWhere(xs, StockGroup, Rayon, g)
  {
    if |xs| > 0 {
      SumWherePcs(xs[1..], g);
    }
  }

  /** A row with any other label leaves the discounted quantity unchanged. */
  lemma DiscountIgnoresOtherLabels(a: seq<StockRow>, x: StockRow, b: seq<StockRow>)
    requires x.labelType != DiscountLabel
    ensures DiscountedQty(a + [x] + b) == DiscountedQty(a + b)
  {
    FilterDropRejected(a, x, b, IsDiscounted);
  }

  /** A red-label row adds exactly its pieces to the discounted quantity. */
  lemma DiscountCountsRedLabels(a: seq<StockRow>, x: StockRow, b: seq<StockRow>)
    requires x.labelType == DiscountLabel
    ensures DiscountedQty(a + [x] + b) == DiscountedQty(a + b) + Pcs(x)
  {
    FilterConcat(a + [x], b, IsDiscounted);
    FilterConcat(a, [x], IsDiscounted);
    FilterConcat(a, b, IsDiscounted);
    assert Filter([x], IsDiscounted) == [x];
    var fa, fb := Filter(a, IsDiscounted), Filter(b, IsDiscounted);
    SumConcat(fa + [x], fb, Warehouse);
    SumConcat(fa, [x], Warehouse);
    SumConcat(fa, fb, Warehouse);
    SumConcat(fa + [x], fb, Rayon);
    SumConcat(fa, [x], Rayon);
    SumConcat(fa, fb, Rayon);
  }

  /** With non-negative quantities, the discounted pieces are within the
      store's pieces. */
  lemma {:induction false} DiscountedQtyBounded(stock: seq<StockRow>)
    requires NonNegative(stock)
    ensures 0 <= DiscountedQty(stock) <= Sum(stock, Warehouse) + Sum(stock, Rayon)
  {
    var d := DiscountedRows(stock);
    FilterSumLe(stock, IsDiscounted, Warehouse);
    FilterSumLe(stock, IsDiscounted, Rayon);
    SumNonNegative(d, Warehouse);
    SumNonNegative(d, Rayon);
  }

  lemma {:induction false} DiscountedNonNegative(stock: seq<StockRow>)
    requires NonNegative(stock)
    ensures NonNegative(DiscountedRows(stock))
  {
    var dr := DiscountedRows(stock);
    forall j | 0 <= j < |dr| ensures dr[j].warehouse >= 0 && dr[j].rayon >= 0 {
      assert dr[j] in stock;
    }
  }

  /** A row of the per-group discount table. */
  datatype DiscountGroup = DiscountGroup(
    group: string,
    discountedWarehouse: int,
    discountedRayon: int,
    totalDiscounted: int,
    totalPcs: int,
    percent: Option<real>)

  function DiscountGroupFor(stock: seq<StockRow>, g: string): DiscountGroup
  {
    var d := DiscountedRows(stock);
    var w := SumWhere(d, StockGroup, Warehouse, g);
    var r := SumWhere(d, StockGroup, Rayon, g);
    var total := SumWhere(stock, StockGroup, Pcs, g);
    DiscountGroup(g, w, r, w + r, total, PercentOrNone(w + r, total))
  }

  /** The discount row of each group, in group order.
      Written as its own recursion rather than as a `MapSeq`, so that its
      ensures can say what each row holds. */
  function DiscountGroups(stock: seq<StockRow>, groups: seq<string>): (r: seq<DiscountGroup>)
    ensures |r| == |groups|
    ensures forall i :: 0 <= i < |groups| ==> r[i] == DiscountGroupFor(stock, groups[i])
  {
    if |groups| == 0 then [] else [DiscountGroupFor(stock, groups[0])] + DiscountGroups(stock, groups[1..])
  }

  function DiscountGroupName(d: DiscountGroup): string { d.group }
  function DiscountGroupTotal(d: DiscountGroup): int { d.totalDiscounted }

  /** The per-group discount table: one row per merch group that has a
      red-label row. */
  function DiscountTable(stock: seq<StockRow>): (r: seq<DiscountGroup>)
    ensures NoDups(MapSeq(r, DiscountGroupName))
    ensures forall g :: g in MapSeq(r, DiscountGroupName) <==>
              exists j :: 0 <= j < |stock| && IsDiscounted(stock[j]) && stock[j].group == g
  {
    var groups := KeysOf(DiscountedRows(stock), StockGroup);
    var r := DiscountGroups(stock, groups);
    assert MapSeq(r, DiscountGroupName) == groups;
    KeysOfFilter(stock, IsDiscounted, StockGroup);
    r
  }

  /** `d` is group `d.group`'s row: it sums the group's red-label pieces,
      holds the group's total pieces and the share of the one in the other,
      and (with non-negative quantities) has no more discounted pieces than
      the group holds. */
  ghost predicate IsDiscountGroupOf(stock: seq<StockRow>, d: DiscountGroup)
  {
    && d.discountedWarehouse == SumWhere(DiscountedRows(stock), StockGroup, Warehouse, d.group)
    && d.discountedRayon == SumWhere(DiscountedRows(stock), StockGroup, Rayon, d.group)
    && d.totalDiscounted == d.discountedWarehouse + d.discountedRayon
    && d.totalPcs == SumWhere(stock, StockGroup, Pcs, d.group)
    && IsShareOf(d.percent, d.totalDiscounted, d.totalPcs)
    && (NonNegative(stock) ==> 0 <= d.totalDiscounted <= d.totalPcs)
  }

  lemma DiscountGroupForFacts(stock: seq<StockRow>, g: string)
    ensures IsDiscountGroupOf(stock, DiscountGroupFor(stock, g))
  {
    var d := DiscountGroupFor(stock, g);
    assert d.totalDiscounted == SumWhere(DiscountedRows(stock), StockGroup, Warehouse, g) + SumWhere(DiscountedRows(stock), StockGroup, Rayon, g);
    assert d.totalPcs == SumWhere(stock, StockGroup, Pcs, g);
    if NonNegative(stock) {
      DiscountWithinGroup(stock, g);
    }
  }

  /** With non-negative quantities, a group's red-label pieces are within
      the group's pieces. */
  lemma {:induction false} DiscountWithinGroup(stock: seq<StockRow>, g: string)
    requires NonNegative(stock)
    ensures 0 <= SumWhere(DiscountedRows(stock), StockGroup, Warehouse, g) + SumWhere(DiscountedRows(stock), StockGroup, Rayon, g)
              <= SumWhere(stock, StockGroup, Pcs, g)
  {
    var dr := DiscountedRows(stock);
    SumWhereFilterLe(stock, IsDiscounted, StockGroup, Warehouse, g);
    SumWhereFilterLe(stock, IsDiscounted, StockGroup, Rayon, g);
    DiscountedNonNegative(stock);
    SumWhereBounds(dr, StockGroup, Warehouse, g);
    SumWhereBounds(dr, StockGroup, Rayon, g);
    SumWherePcs(stock, g);
  }

  /** Every row of the discount table is its group's row. */
  lemma DiscountTableRows(stock: seq<StockRow>)
    ensures forall d :: d in DiscountTable(stock) ==> IsDiscountGroupOf(stock, d)
  {
    forall d | d in DiscountTable(stock) ensures IsDiscountGroupOf(stock, d) {
      DiscountGroupForFacts(stock, d.group);
    }
  }

  lemma {:induction false} DiscountGroupsSum(stock: seq<StockRow>, groups: seq<string>)
    ensures Sum(DiscountGroups(stock, groups), DiscountGroupTotal)
         == SumOverKeys(DiscountedRows(stock), StockGroup, Warehouse, groups)
          + SumOverKeys(DiscountedRows(stock), StockGroup, Rayon, groups)
  {
    if |groups| > 0 {
      DiscountGroupsSum(stock, groups[1..]);
      assert DiscountGroups(stock, groups)[1..] == DiscountGroups(stock, groups[1..]);
    }
  }

  /** Conservation: the per-group discounted pieces add up to the store's
      discounted quantity. */
  lemma DiscountTableConserve(stock: seq<StockRow>)
    ensures Sum(DiscountTable(stock), DiscountGroupTotal) == DiscountedQty(stock)
  {
    var d := DiscountedRows(stock);
    DiscountGroupsSum(stock, KeysOf(d, StockGroup));
    GroupSumsConserve(d, StockGroup, Warehouse);
    GroupSumsConserve(d, StockGroup, Rayon);
  }
}
