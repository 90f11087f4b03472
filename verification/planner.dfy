/** The whole planner: the merch-group table (capacity joined with
    fragmentation), the store KPIs, and the pipeline from the two uploaded
    reports to every table, halting on the first report with missing
    columns. */
module Planner {
  import opened Seqs
  import opened Grouping
  import opened Records
  import opened Schema
  import opened Cleaning
  import opened BestSellers
  import opened Replenishment
  import opened Capacity
  import opened Fragmentation
  import opened Discount

  /** One row of the merch-group table: the capacity plan, the group's
      fragmented pieces (0 when it has none), its total pieces and the
      fragmented share (no number for a group without pieces). */
  datatype MerchRow = MerchRow(plan: GroupPlan, fragmentedPcs: int, totalPcs: int, fragmentation: Option<real>)

  function MerchRowFor(stock: seq<StockRow>, g: string): MerchRow
  {
    var plan := PlanFor(stock, g);
    var frag := FragmentedPcs(stock, g);
    var total := plan.rayon + plan.warehouse;
    MerchRow(plan, frag, total, PercentOrNone(frag, total))
  }

  /** The merch-group row of each group, in group order.
      Written as its own recursion rather than as a `MapSeq`, so that its
      ensures can say what each row holds. */
  function MerchRowsFor(stock: seq<StockRow>, groups: seq<string>): (r: seq<MerchRow>)
    ensures |r| == |groups|
    ensures forall i :: 0 <= i < |groups| ==> r[i] == MerchRowFor(stock, groups[i])
  {
    if |groups| == 0 then [] else [MerchRowFor(stock, groups[0])] + MerchRowsFor(stock, groups[1..])
  }

  /** The merch-group table: one row per merch group of the stock report,
      carrying exactly the capacity table's rows in the same order. */
  function MerchTable(stock: seq<StockRow>): (r: seq<MerchRow>)
    ensures MapSeq(r, MerchPlan) == Plans(stock)
  {
    MerchRowsFor(stock, KeysOf(stock, StockGroup))
  }

  function MerchPlan(m: MerchRow): GroupPlan { m.plan }
  function MerchPush(m: MerchRow): int { m.plan.push }
  function MerchFragmented(m: MerchRow): int { m.fragmentedPcs }

  lemma {:induction false} MerchPushSum(ms: seq<MerchRow>)
    ensures Sum(ms, MerchPush) == Sum(MapSeq(ms, MerchPlan), PlanPush)
  {
    if |ms| > 0 {
      MerchPushSum(ms[1..]);
      assert MapSeq(ms, MerchPlan)[1..] == MapSeq(ms[1..], MerchPlan);
    }
  }

  lemma {:induction false} MerchFragmentedSum(stock: seq<StockRow>, groups: seq<string>)
    requires NonNegative(stock)
    ensures 0 <= Sum(MerchRowsFor(stock, groups), MerchFragmented) <= SumOverKeys(stock, StockGroup, Pcs, groups)
  {
    if |groups| > 0 {
      MerchFragmentedSum(stock, groups[1..]);
      assert MerchRowsFor(stock, groups)[1..] == MerchRowsFor(stock, groups[1..]);
      FragmentedWithinGroup(stock, groups[0]);
    }
  }

  /** `m` is the merch row of its group: its fragmented pieces, its total
      pieces, a fragmented share that is missing exactly for a group without
      pieces and otherwise the percentage of fragmented pieces, and, with
      non-negative quantities, fragmented pieces between zero and the
      group's pieces. */
  ghost predicate IsMerchRowOf(stock: seq<StockRow>, m: MerchRow)
  {
    var g := m.plan.group;
    && m.fragmentedPcs == FragmentedPcs(stock, g)
    && m.totalPcs == SumWhere(stock, StockGroup, Pcs, g)
    && IsShareOf(m.fragmentation, m.fragmentedPcs, m.totalPcs)
    && (NonNegative(stock) ==> 0 <= m.fragmentedPcs <= m.totalPcs)
  }

  lemma {:induction false} MerchRowTotal(stock: seq<StockRow>, g: string)
    ensures MerchRowFor(stock, g).totalPcs == SumWhere(stock, StockGroup, Pcs, g)
  {
    SumWherePcs(stock, g);
  }

  lemma MerchRowBounded(stock: seq<StockRow>, g: string)
    requires NonNegative(stock)
    ensures 0 <= MerchRowFor(stock, g).fragmentedPcs <= SumWhere(stock, StockGroup, Pcs, g)
  {
    FragmentedWithinGroup(stock, g);
  }

  lemma MerchRowForFacts(stock: seq<StockRow>, g: string)
    ensures IsMerchRowOf(stock, MerchRowFor(stock, g))
  {
    MerchRowTotal(stock, g);
    if NonNegative(stock) {
      MerchRowBounded(stock, g);
    }
  }

  /** Every row of the merch-group table is the merch row of its group. */
  lemma MerchRows(stock: seq<StockRow>)
    ensures forall i :: 0 <= i < |MerchTable(stock)| ==> IsMerchRowOf(stock, MerchTable(stock)[i])
  {
    var groups := KeysOf(stock, StockGroup);
    var r := MerchRowsFor(stock, groups);
    assert MerchTable(stock) == r;
    forall i | 0 <= i < |r| ensures IsMerchRowOf(stock, r[i]) {
      MerchRowForFacts(stock, groups[i]);
    }
  }

  /** The store's key figures. */
  datatype Kpis = Kpis(
    totalRayon: int,
    totalWarehouse: int,
    totalPush: int,
    totalFragmented: int,
    discountedQty: int,
    warehouseShare: Option<real>,
    rayonOccupancy: real,
    occupancyAfterPush: real,
    fragmentationShare: Option<real>,
    discountedShare: Option<real>)

  /** The KPI block from the store totals. The warehouse, fragmented and
      discounted shares are percentages of the store's pieces, missing when
      the store has none; the two occupancies are percentages of the total
      floor capacity, 34667 pieces. */
  function KpisOf(rayon: int, warehouse: int, push: int, frag: int, discounted: int): (k: Kpis)
    ensures k.totalRayon == rayon && k.totalWarehouse == warehouse && k.totalPush == push
    ensures k.totalFragmented == frag && k.discountedQty == discounted
    ensures IsShareOf(k.warehouseShare, warehouse, warehouse + rayon)
    ensures IsPercentOf(k.rayonOccupancy, rayon, 34667)
    ensures IsPercentOf(k.occupancyAfterPush, rayon + push, 34667)
    ensures IsShareOf(k.fragmentationShare, frag, warehouse + rayon)
    ensures IsShareOf(k.discountedShare, discounted, warehouse + rayon)
  {
    var capacity := TotalCapacity();
    TotalCapacityValue();
    Kpis(rayon, warehouse, push, frag, discounted,
         PercentOrNone(warehouse, warehouse + rayon),
         Percent(rayon, capacity),
         Percent(rayon + push, capacity),
         PercentOrNone(frag, warehouse + rayon),
         PercentOrNone(discounted, warehouse + rayon))
  }

  /** The store's KPIs: the floor and backroom totals of the stock report,
      the total push and fragmented pieces of the merch-group table, the
      red-label pieces, and the shares `KpisOf` derives from these totals. */
  function ComputeKpis(stock: seq<StockRow>): (k: Kpis)
    ensures k.totalRayon == Sum(stock, Rayon) && k.totalWarehouse == Sum(stock, Warehouse)
    ensures k.totalPush == Sum(MerchTable(stock), MerchPush)
    ensures k.totalFragmented == Sum(MerchTable(stock), MerchFragmented)
    ensures k.discountedQty == DiscountedQty(stock)
    ensures k == KpisOf(k.totalRayon, k.totalWarehouse, k.totalPush, k.totalFragmented, k.discountedQty)
  {
    var merch := MerchTable(stock);
    KpisOf(Sum(stock, Rayon), Sum(stock, Warehouse), Sum(merch, MerchPush), Sum(merch, MerchFragmented),
           DiscountedQty(stock))
  }

  /** The KPIs agree with the tables: the totals are the sums of the
      capacity table's columns, the push never exceeds the backroom stock,
      and with non-negative quantities the push, the fragmented pieces and
      the discounted pieces are each between zero and the store's pieces. */
  lemma KpiBounds(stock: seq<StockRow>)
    ensures var k := ComputeKpis(stock);
      && k.totalRayon == Sum(Plans(stock), PlanRayon)
      && k.totalWarehouse == Sum(Plans(stock), PlanWarehouse)
      && k.totalPush == Sum(Plans(stock), PlanPush)
      && k.totalPush <= k.totalWarehouse
      && (NonNegative(stock) ==>
            && 0 <= k.totalPush
            && 0 <= k.totalFragmented <= k.totalWarehouse + k.totalRayon
            && 0 <= k.discountedQty <= k.totalWarehouse + k.totalRayon)
  {
    var merch := MerchTable(stock);
    PlansConserve(stock);
    TotalPushBounded(stock);
    MerchPushSum(merch);
    if NonNegative(stock) {
      MerchFragmentedSum(stock, KeysOf(stock, StockGroup));
      GroupSumsConserve(stock, StockGroup, Pcs);
      SumPcs(stock);
      DiscountedQtyBounded(stock);
    }
  }

  /** Why the pipeline halted: the canonical columns one report lacks. */
  datatype SchemaError = SalesColumnsMissing(names: seq<string>) | StockColumnsMissing(names: seq<string>)

  /** Every table the planner shows. */
  datatype Report = Report(
    bestSellers: seq<BestSeller>,
    replenishment: seq<Replenishment>,
    merch: seq<MerchRow>,
    kpis: Kpis,
    discountByGroup: seq<DiscountGroup>)

  /** The tables of two standardised, cleaned reports. */
  function Tables(sales: seq<SalesRow>, stock: seq<StockRow>): Report
  {
    Report(BestSellerTable(sales, stock), ReplenishmentTable(stock), MerchTable(stock),
           ComputeKpis(stock), DiscountTable(stock))
  }

  /** The pipeline. The headers decide whether the reports can be read at
      all (the sales report is checked first, and its failure stops the run
      before the stock report is looked at); the rows, already read by their
      canonical columns, are cleaned and turned into the tables. */
  function Analyse(salesHeaders: seq<string>, stockHeaders: seq<string>,
                   sales: seq<SalesRow>, stock: seq<StockRow>): (r: Result<Report, SchemaError>)
    ensures StandardizeSales(salesHeaders).Failure? ==>
              r == Failure(SalesColumnsMissing(StandardizeSales(salesHeaders).error))
    ensures StandardizeSales(salesHeaders).Success? && StandardizeStock(stockHeaders).Failure? ==>
              r == Failure(StockColumnsMissing(StandardizeStock(stockHeaders).error))
    ensures r.Success? <==> StandardizeSales(salesHeaders).Success? && StandardizeStock(stockHeaders).Success?
    ensures r.Success? ==> r.value == Tables(CleanSales(sales), CleanStock(stock))
  {
    match StandardizeSales(salesHeaders)
    case Failure(missing) => Failure(SalesColumnsMissing(missing))
    case Success(_) =>
      match StandardizeStock(stockHeaders)
      case Failure(missing) => Failure(StockColumnsMissing(missing))
      case Success(_) => Success(Tables(CleanSales(sales), CleanStock(stock)))
  }

  /** No best-seller row carries the excluded product code, once the sales
      report is cleaned. */
  lemma BestSellersExclude(sales: seq<SalesRow>, stock: seq<StockRow>)
    ensures var t := BestSellerTable(CleanSales(sales), stock);
      forall i :: 0 <= i < |t| ==> KeyKept(t[i].key)
  {
    var clean := CleanSales(sales);
    var t := BestSellerTable(clean, stock);
    assert forall i :: 0 <= i < |clean| ==> KeyKept(SalesKey(clean[i]));
    KeysOfAll(clean, SalesKey, KeyKept);
    BestSellerKeys(clean, stock);
    MapSeqAll(t, RowKey, KeyKept);
  }

  /** No replenishment row carries the excluded product code, once the stock
      report is cleaned. */
  lemma ReplenishmentExcludes(stock: seq<StockRow>)
    ensures var t := ReplenishmentTable(CleanStock(stock));
      forall i :: 0 <= i < |t| ==> KeyKept(t[i].key)
  {
    var clean := CleanStock(stock);
    var b := Blocked(clean);
    var u := Unsorted(clean);
    var t := ReplenishmentTable(clean);
    assert forall i :: 0 <= i < |b| ==> KeyKept(StockKey(b[i])) by {
      forall i | 0 <= i < |b| ensures KeyKept(StockKey(b[i])) {
        assert b[i] in clean;
      }
    }
    KeysOfAll(b, StockKey, KeyKept);
    MapMembersPermutation(u, t, ReplenishmentKey);
    MapSeqAll(t, ReplenishmentKey, KeyKept);
  }

  /** Rows of the excluded product code never reach the best-seller or the
      replenishment table of a run. */
  lemma AnalyseExcludes(salesHeaders: seq<string>, stockHeaders: seq<string>,
                        sales: seq<SalesRow>, stock: seq<StockRow>)
    requires Analyse(salesHeaders, stockHeaders, sales, stock).Success?
    ensures var r := Analyse(salesHeaders, stockHeaders, sales, stock).value;
      && (forall i :: 0 <= i < |r.bestSellers| ==> r.bestSellers[i].key.code != ExcludedCode)
      && (forall i :: 0 <= i < |r.replenishment| ==> r.replenishment[i].key.code != ExcludedCode)
  {
    BestSellersExclude(sales, CleanStock(stock));
    ReplenishmentExcludes(stock);
  }
}
