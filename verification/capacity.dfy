/** Capacity and feasibility per merch group: floor and backroom stock
    summed per group, the group's floor capacity from a fixed table, and the
    number of pieces that can be moved to the floor today. */
module Capacity {
  import opened Seqs
  import opened Grouping
  import opened Records

  /** One entry of the fixed capacity table. */
  datatype CapacityEntry = CapacityEntry(group: string, capacity: int)

  /** The floor capacity, in pieces, of each known merch group. */
  const CapacityTable: seq<CapacityEntry> := [
    CapacityEntry("BG", 9694),
    CapacityEntry("BU", 8429),
    CapacityEntry("CK", 7823),
    CapacityEntry("CU", 7298),
    CapacityEntry("EV", 129),
    CapacityEntry("ST", 1294)
  ]

  function EntryCapacity(e: CapacityEntry): int { e.capacity }

  /** The store's total floor capacity. */
  function TotalCapacity(): int
  {
    Sum(CapacityTable, EntryCapacity)
  }

  lemma {:induction false} TotalCapacityValue()
    ensures TotalCapacity() == 34667
  {
    var t := CapacityTable;
    assert t[1..][1..][1..][1..][1..][1..] == [];
  }

  /** The capacity of the first entry of `table` for group `g`, if any. */
  function LookupCapacity(table: seq<CapacityEntry>, g: string): (r: Option<int>)
    ensures r.None? <==> forall i :: 0 <= i < |table| ==> table[i].group != g
    ensures r.Some? ==> CapacityEntry(g, r.value) in table
  {
    if |table| == 0 then None
    else if table[0].group == g then Some(table[0].capacity)
    else LookupCapacity(table[1..], g)
  }

  /** The left join of a group onto the capacity table: None for a group the
      table does not list (a missing value in the joined table). */
  function CapacityOf(g: string): (r: Option<int>)
    ensures r.Some? ==> r.value > 0
  {
    LookupCapacity(CapacityTable, g)
  }

  /** Free floor space: capacity minus floor stock, never below zero. */
  function Headroom(capacity: int, rayon: int): (h: int)
    ensures h >= 0 && h >= capacity - rayon
    ensures h == 0 || h == capacity - rayon
  {
    if capacity - rayon > 0 then capacity - rayon else 0
  }

  /** The pieces to push to the floor today: the smaller of the free space
      and the backroom stock. Without a capacity the free space is missing,
      the row-wise minimum skips it, and all backroom stock is pushed. */
  function PushToday(capacity: Option<int>, rayon: int, warehouse: int): (p: int)
    ensures p <= warehouse
    ensures capacity.Some? ==> p <= Headroom(capacity.value, rayon)
    ensures capacity.Some? ==> p == warehouse || p == Headroom(capacity.value, rayon)
    ensures capacity.None? ==> p == warehouse
    ensures warehouse >= 0 ==> p >= 0
  {
    match capacity
    case None => warehouse
    case Some(c) =>
      var h := Headroom(c, rayon);
      if h <= warehouse then h else warehouse
  }

  /** One row of the capacity table, after the missing values of groups
      without capacity have been filled with 0. */
  datatype GroupPlan = GroupPlan(
    group: string,
    rayon: int,
    warehouse: int,
    capacity: int,
    occupancy: real,
    push: int,
    occupancyAfterPush: real)

  /** The capacity-table row of a group from its floor and backroom sums and
      its listed capacity, if any. */
  function PlanFrom(g: string, rayon: int, warehouse: int, cap: Option<int>): (p: GroupPlan)
    requires cap.Some? ==> cap.value > 0
    ensures p.group == g && p.rayon == rayon && p.warehouse == warehouse
    ensures p.push == PushToday(cap, rayon, warehouse)
    ensures cap.Some? ==> p.capacity == cap.value
    ensures cap.Some? ==> p.occupancy == Percent(rayon, cap.value)
    ensures cap.Some? ==> p.occupancyAfterPush == Percent(rayon + p.push, cap.value)
    ensures cap.None? ==> p.capacity == 0 && p.occupancy == 0.0 && p.occupancyAfterPush == 0.0
  {
    var push := PushToday(cap, rayon, warehouse);
    match cap
    case None => GroupPlan(g, rayon, warehouse, 0, 0.0, push, 0.0)
    case Some(c) => GroupPlan(g, rayon, warehouse, c, Percent(rayon, c), push, Percent(rayon + push, c))
  }

  function PlanFor(stock: seq<StockRow>, g: string): GroupPlan
  {
    PlanFrom(g, SumWhere(stock, StockGroup, Rayon, g), SumWhere(stock, StockGroup, Warehouse, g), CapacityOf(g))
  }

  /** The capacity-table row of each group, in group order.
      Written as its own recursion rather than as a `MapSeq`, so that its
      ensures can say what each row holds. */
  function PlansFor(stock: seq<StockRow>, groups: seq<string>): (r: seq<GroupPlan>)
    ensures |r| == |groups|
    ensures forall i :: 0 <= i < |groups| ==> r[i] == PlanFor(stock, groups[i])
  {
    if |groups| == 0 then [] else [PlanFor(stock, groups[0])] + PlansFor(stock, groups[1..])
  }

  /** The capacity table: one row per merch group of the stock report. */
  function Plans(stock: seq<StockRow>): (r: seq<GroupPlan>)
    ensures NoDups(MapSeq(r, PlanGroup))
    ensures forall g :: g in MapSeq(r, PlanGroup) <==> exists j :: 0 <= j < |stock| && stock[j].group == g
  {
    var groups := KeysOf(stock, StockGroup);
    var r := PlansFor(stock, groups);
    assert MapSeq(r, PlanGroup) == groups;
    r
  }

  function PlanGroup(p: GroupPlan): string { p.group }
  function PlanRayon(p: GroupPlan): int { p.rayon }
  function PlanWarehouse(p: GroupPlan): int { p.warehouse }
  function PlanPush(p: GroupPlan): int { p.push }

  /** `p` is the capacity row of its group: the group's sums; the pieces
      to push, the smaller of the free space and the backroom stock for a
      listed group and all backroom stock otherwise, so never more than the
      backroom stock or the free space; for a listed group its capacity and
      the floor occupancy before and after the push as percentages of it;
      for an unlisted group capacity and occupancies filled with 0. */
  ghost predicate IsPlanOf(stock: seq<StockRow>, p: GroupPlan)
  {
    && p.rayon == SumWhere(stock, StockGroup, Rayon, p.group)
    && p.warehouse == SumWhere(stock, StockGroup, Warehouse, p.group)
    && IsPlanWith(p, CapacityOf(p.group))
    && (NonNegative(stock) ==> p.push >= 0)
  }

  /** The push, capacity and occupancy columns of a row, given the group's
      listed capacity, if any. */
  ghost predicate IsPlanWith(p: GroupPlan, cap: Option<int>)
  {
    && p.push == PushToday(cap, p.rayon, p.warehouse)
    && p.push <= p.warehouse
    && (cap.Some? ==>
          && p.capacity == cap.value
          && p.capacity > 0
          && p.push <= Headroom(p.capacity, p.rayon)
          && p.occupancy == Percent(p.rayon, p.capacity)
          && p.occupancyAfterPush == Percent(p.rayon + p.push, p.capacity))
    && (cap.None? ==>
          p.capacity == 0 && p.push == p.warehouse && p.occupancy == 0.0 && p.occupancyAfterPush == 0.0)
  }

  lemma PlanFromFacts(g: string, rayon: int, warehouse: int, cap: Option<int>)
    requires cap.Some? ==> cap.value > 0
    ensures IsPlanWith(PlanFrom(g, rayon, warehouse, cap), cap)
  {
  }

  lemma PlanForFacts(stock: seq<StockRow>, g: string)
    ensures IsPlanOf(stock, PlanFor(stock, g))
  {
    var rayon := SumWhere(stock, StockGroup, Rayon, g);
    var warehouse := SumWhere(stock, StockGroup, Warehouse, g);
    var cap := CapacityOf(g);
    var p := PlanFrom(g, rayon, warehouse, cap);
    assert p == PlanFor(stock, g);
    PlanFromFacts(g, rayon, warehouse, cap);
    if NonNegative(stock) {
      SumWhereBounds(stock, StockGroup, Warehouse, g);
    }
  }

  /** Every row of the capacity table is the plan of its group. */
  lemma PlanRows(stock: seq<StockRow>)
    ensures forall p :: p in Plans(stock) ==> IsPlanOf(stock, p)
  {
    var groups := KeysOf(stock, StockGroup);
    var r := PlansFor(stock, groups);
    forall p | p in Plans(stock) ensures IsPlanOf(stock, p) {
      var i :| 0 <= i < |r| && r[i] == p;
      PlanForFacts(stock, groups[i]);
    }
  }

  lemma {:induction false} PlansForSums(stock: seq<StockRow>, groups: seq<string>)
    ensures Sum(PlansFor(stock, groups), PlanRayon) == SumOverKeys(stock, StockGroup, Rayon, groups)
    ensures Sum(PlansFor(stock, groups), PlanWarehouse) == SumOverKeys(stock, StockGroup, Warehouse, groups)
  {
    if |groups| > 0 {
      PlansForSums(stock, groups[1..]);
      assert PlansFor(stock, groups)[1..] == PlansFor(stock, groups[1..]);
    }
  }

  /** Conservation: the per-group floor and backroom sums add up to the
      store totals. */
  lemma PlansConserve(stock: seq<StockRow>)
    ensures Sum(Plans(stock), PlanRayon) == Sum(stock, Rayon)
    ensures Sum(Plans(stock), PlanWarehouse) == Sum(stock, Warehouse)
  {
    PlansForSums(stock, KeysOf(stock, StockGroup));
    GroupSumsConserve(stock, StockGroup, Rayon);
    GroupSumsConserve(stock, StockGroup, Warehouse);
  }

  lemma {:induction false} PushSumBounded(ps: seq<GroupPlan>)
    requires forall i :: 0 <= i < |ps| ==> ps[i].push <= ps[i].warehouse
    ensures Sum(ps, PlanPush) <= Sum(ps, PlanWarehouse)
  {
    if |ps| > 0 {
      PushSumBounded(ps[1..]);
    }
  }

  /** The total push never exceeds the store's backroom stock, and is not
      negative when no quantity is. */
  lemma TotalPushBounded(stock: seq<StockRow>)
    ensures Sum(Plans(stock), PlanPush) <= Sum(stock, Warehouse)
    ensures NonNegative(stock) ==> Sum(Plans(stock), PlanPush) >= 0
  {
    var ps := Plans(stock);
    forall i | 0 <= i < |ps| ensures IsPlanOf(stock, ps[i]) {
      PlanRows(stock);
      assert ps[i] in ps;
    }
    PushSumBounded(ps);
    PlansConserve(stock);
    if NonNegative(stock) {
      SumNonNegative(ps, PlanPush);
    }
  }
}
