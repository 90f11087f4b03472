/** Immediate replenishment: the keys whose stock sits entirely in the
    backroom (warehouse stock, nothing on the floor), with the value tied up
    there and an urgency level, most valuable first. */
module Replenishment {
  import opened Seqs
  import opened Grouping
  import opened Records

  /** The row filter: stock in the warehouse and none on the sales floor. */
  predicate FullyBlocked(r: StockRow)
  {
    r.warehouse > 0 && r.rayon == 0
  }

  datatype Urgency = Normal | High | Critical

  /** The urgency bands of the summed warehouse quantity: below 3 is
      normal, 3 to 8 is high, above 8 is critical. */
  function UrgencyOf(warehouse: int): (u: Urgency)
    ensures u == Normal <==> warehouse < 3
    ensures u == High <==> 3 <= warehouse <= 8
    ensures u == Critical <==> 8 < warehouse
  {
    if warehouse < 3 then Normal else if warehouse <= 8 then High else Critical
  }

  function Severity(u: Urgency): nat
  {
    match u
    case Normal => 0
    case High => 1
    case Critical => 2
  }

  /** More stock waiting never lowers the urgency. */
  lemma UrgencyMonotone(a: int, b: int)
    requires a <= b
    ensures Severity(UrgencyOf(a)) <= Severity(UrgencyOf(b))
  {
  }

  /** A row of the replenishment table. */
  datatype Replenishment = Replenishment(
    key: ItemKey,
    warehouse: int,
    rayon: int,
    locationQty: int,
    cash: real,
    valueAtRisk: real,
    urgency: Urgency)

  /** The aggregate of one key over the fully blocked rows. */
  function Aggregate(blocked: seq<StockRow>, k: ItemKey): Replenishment
    requires CountWhere(blocked, StockKey, k) > 0
  {
    var w := SumWhere(blocked, StockKey, Warehouse, k);
    var c := MeanWhere(blocked, StockKey, Cash, k);
    Replenishment(k, w, SumWhere(blocked, StockKey, Rayon, k), SumWhere(blocked, StockKey, LocationQty, k),
                  c, w as real * c, UrgencyOf(w))
  }

  /** The aggregate of each key over the blocked rows, in key order.
      Written as its own recursion rather than as a `MapSeq`, so that its
      ensures can say what each row holds. */
  function Aggregates(blocked: seq<StockRow>, keys: seq<ItemKey>): (r: seq<Replenishment>)
    requires forall i :: 0 <= i < |keys| ==> CountWhere(blocked, StockKey, keys[i]) > 0
    ensures |r| == |keys|
    ensures forall i :: 0 <= i < |keys| ==> r[i] == Aggregate(blocked, keys[i])
  {
    if |keys| == 0 then [] else [Aggregate(blocked, keys[0])] + Aggregates(blocked, keys[1..])
  }

  predicate RiskGeq(a: Replenishment, b: Replenishment) { a.valueAtRisk >= b.valueAtRisk }

  function ReplenishmentKey(r: Replenishment): ItemKey { r.key }

  /** The fully blocked rows of the stock report. */
  function Blocked(stock: seq<StockRow>): (r: seq<StockRow>)
    ensures forall x :: x in r <==> x in stock && x.warehouse > 0 && x.rayon == 0
  {
    Filter(stock, FullyBlocked)
  }

  /** The per-key aggregates, before sorting. */
  function Unsorted(stock: seq<StockRow>): (r: seq<Replenishment>)
    ensures MapSeq(r, ReplenishmentKey) == KeysOf(Blocked(stock), StockKey)
  {
    var keys := KeysOf(Blocked(stock), StockKey);
    KeysOfCountPositive(Blocked(stock), StockKey);
    Aggregates(Blocked(stock), keys)
  }

  /** Each unsorted row is the aggregate of its own non-empty group. */
  lemma UnsortedRows(stock: seq<StockRow>, x: Replenishment)
    requires x in Unsorted(stock)
    ensures CountWhere(Blocked(stock), StockKey, x.key) > 0 && x == Aggregate(Blocked(stock), x.key)
  {
    KeysOfCountPositive(Blocked(stock), StockKey);
  }

  /** The replenishment table, by value at risk (descending). */
  function ReplenishmentTable(stock: seq<StockRow>): (r: seq<Replenishment>)
    ensures multiset(r) == multiset(Unsorted(stock))
    ensures forall i, j :: 0 <= i <= j < |r| ==> r[i].valueAtRisk >= r[j].valueAtRisk
  {
    var r := SortDesc(Unsorted(stock), RiskGeq);
    SortedAll(r, RiskGeq);
    r
  }

  /** `x` aggregates the fully blocked rows `b` of its key: the group is
      non-empty, the warehouse sum is positive, the floor is empty, the value
      at risk is the warehouse sum times the mean price, and the urgency is
      the band of the warehouse sum. */
  ghost predicate IsReplenishmentOf(b: seq<StockRow>, x: Replenishment)
  {
    && CountWhere(b, StockKey, x.key) > 0
    && x.warehouse == SumWhere(b, StockKey, Warehouse, x.key)
    && x.locationQty == SumWhere(b, StockKey, LocationQty, x.key)
    && x.cash == MeanWhere(b, StockKey, Cash, x.key)
    && x.warehouse > 0
    && x.rayon == 0
    && x.valueAtRisk == x.warehouse as real * x.cash
    && x.urgency == UrgencyOf(x.warehouse)
  }

  /** Over fully blocked rows, every group's aggregate is a replenishment row
      of that group. */
  lemma AggregateOfBlocked(b: seq<StockRow>, k: ItemKey)
    requires forall j :: 0 <= j < |b| ==> FullyBlocked(b[j])
    requires CountWhere(b, StockKey, k) > 0
    ensures IsReplenishmentOf(b, Aggregate(b, k))
  {
    CountWhereZeroAbsent(b, StockKey, k);
    var j :| 0 <= j < |b| && StockKey(b[j]) == k;
    SumWherePositive(b, StockKey, Warehouse, k, j);
    SumWhereZero(b, StockKey, Rayon, k);
  }

  /** Every row of the table aggregates the fully blocked rows of its key. */
  lemma ReplenishmentRows(stock: seq<StockRow>)
    ensures forall i :: 0 <= i < |ReplenishmentTable(stock)| ==> IsReplenishmentOf(Blocked(stock), ReplenishmentTable(stock)[i])
  {
    var r := ReplenishmentTable(stock);
    forall i | 0 <= i < |r| ensures IsReplenishmentOf(Blocked(stock), r[i]) {
      assert r[i] in multiset(Unsorted(stock));
      UnsortedRows(stock, r[i]);
      AggregateOfBlocked(Blocked(stock), r[i].key);
    }
  }

  /** A row with stock on the floor (or none in the warehouse) never
      reaches the table: removing it changes nothing. */
  lemma IgnoresStockedRows(a: seq<StockRow>, x: StockRow, b: seq<StockRow>)
    requires !FullyBlocked(x)
    ensures ReplenishmentTable(a + [x] + b) == ReplenishmentTable(a + b)
  {
    FilterDropRejected(a, x, b, FullyBlocked);
  }

  /** The table has one row per key. */
  lemma ReplenishmentKeysDistinct(stock: seq<StockRow>)
    ensures NoDups(MapSeq(ReplenishmentTable(stock), ReplenishmentKey))
  {
    MapNoDupsPermutation(Unsorted(stock), ReplenishmentTable(stock), ReplenishmentKey);
  }

  /** The keys of the table are exactly the keys of the fully blocked rows. */
  lemma ReplenishmentKeys(stock: seq<StockRow>)
    ensures forall k :: k in MapSeq(ReplenishmentTable(stock), ReplenishmentKey) <==>
                        exists j :: 0 <= j < |stock| && FullyBlocked(stock[j]) && StockKey(stock[j]) == k
  {
    var u := Unsorted(stock);
    var t := ReplenishmentTable(stock);
    var keys := KeysOf(Blocked(stock), StockKey);
    MapMembersPermutation(u, t, ReplenishmentKey);
    assert forall k :: k in MapSeq(t, ReplenishmentKey) <==> k in keys;
    KeysOfFilter(stock, FullyBlocked, StockKey);
  }
}
