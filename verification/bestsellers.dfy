/** The best-seller table: sales summed per (code, group, colour) key,
    sorted by quantity sold, left-joined onto the stock summary of the same
    key, and flagged as blocked when stock waits in the backroom while the
    sales floor is (almost) empty. */
module BestSellers {
  import opened Seqs
  import opened Grouping
  import opened Records

  /** A row of the grouped sales table. */
  datatype SoldTotal = SoldTotal(key: ItemKey, qtySold: int)

  /** A row of the grouped stock summary: summed quantities, mean unit price. */
  datatype StockSummary = StockSummary(key: ItemKey, warehouse: int, rayon: int, cash: real)

  /** A row of the final table; `cash` is the mean price cut to an integer. */
  datatype BestSeller = BestSeller(key: ItemKey, qtySold: int, warehouse: int, rayon: int, cash: int, blocked: bool)

  /** The blocked-best-seller rule: stock in the warehouse and at most three
      pieces on the floor. */
  predicate IsBlocked(warehouse: int, rayon: int)
  {
    warehouse > 0 && rayon <= 3
  }

  /** `astype(int)` on a float: truncation toward zero. */
  function TruncToInt(x: real): (r: int)
    ensures 0.0 <= x ==> 0 <= r && r as real <= x < r as real + 1.0
    ensures x < 0.0 ==> r <= 0 && r as real - 1.0 < x <= r as real
  {
    if x >= 0.0 then x.Floor else -((-x).Floor)
  }

  /** The sold total of each key, in key order.
      Written as its own recursion rather than as a `MapSeq`, so that its
      ensures can say what each row holds. */
  function SoldTotals(sales: seq<SalesRow>, keys: seq<ItemKey>): (r: seq<SoldTotal>)
    ensures |r| == |keys|
    ensures forall i :: 0 <= i < |keys| ==> r[i] == SoldTotal(keys[i], SumWhere(sales, SalesKey, QtySold, keys[i]))
  {
    if |keys| == 0 then []
    else [SoldTotal(keys[0], SumWhere(sales, SalesKey, QtySold, keys[0]))] + SoldTotals(sales, keys[1..])
  }

  function Summarise(stock: seq<StockRow>, k: ItemKey): StockSummary
    requires CountWhere(stock, StockKey, k) > 0
  {
    StockSummary(k, SumWhere(stock, StockKey, Warehouse, k), SumWhere(stock, StockKey, Rayon, k), MeanWhere(stock, StockKey, Cash, k))
  }

  /** The stock summary of each key, in key order.
      Written as its own recursion rather than as a `MapSeq`, so that its
      ensures can say what each row holds. */
  function Summaries(stock: seq<StockRow>, keys: seq<ItemKey>): (r: seq<StockSummary>)
    requires forall i :: 0 <= i < |keys| ==> CountWhere(stock, StockKey, keys[i]) > 0
    ensures |r| == |keys|
    ensures forall i :: 0 <= i < |keys| ==> r[i] == Summarise(stock, keys[i])
  {
    if |keys| == 0 then [] else [Summarise(stock, keys[0])] + Summaries(stock, keys[1..])
  }

  /** The stock summary: one row per key occurring in the stock report. */
  function StockSummaryTable(stock: seq<StockRow>): (r: seq<StockSummary>)
    ensures forall s :: s in r ==> CountWhere(stock, StockKey, s.key) > 0 && s == Summarise(stock, s.key)
    ensures forall k :: CountWhere(stock, StockKey, k) > 0 ==> exists i :: 0 <= i < |r| && r[i].key == k
  {
    var keys := KeysOf(stock, StockKey);
    KeysOfCountPositive(stock, StockKey);
    var r := Summaries(stock, keys);
    assert forall k :: CountWhere(stock, StockKey, k) > 0 ==> k in keys by {
      forall k | CountWhere(stock, StockKey, k) > 0 ensures k in keys {
        if k !in keys {
          CountWhereAbsent(stock, StockKey, k);
        }
      }
    }
    r
  }

  /** The summary row of key `k`, if there is one. */
  function FindSummary(ss: seq<StockSummary>, k: ItemKey): (r: Option<StockSummary>)
    ensures r.None? <==> forall i :: 0 <= i < |ss| ==> ss[i].key != k
    ensures r.Some? ==> r.value in ss && r.value.key == k
  {
    if |ss| == 0 then None
    else if ss[0].key == k then Some(ss[0])
    else FindSummary(ss[1..], k)
  }

  /** One row of the left join, with missing stock columns filled with 0. */
  function Join(t: SoldTotal, s: Option<StockSummary>): (r: BestSeller)
    ensures r.key == t.key && r.qtySold == t.qtySold
    ensures s.None? ==> r.warehouse == 0 && r.rayon == 0 && r.cash == 0 && !r.blocked
    ensures s.Some? ==> r.warehouse == s.value.warehouse && r.rayon == s.value.rayon
    ensures s.Some? ==> r.cash == TruncToInt(s.value.cash)
    ensures r.blocked <==> r.warehouse > 0 && r.rayon <= 3
  {
    var warehouse := if s.Some? then s.value.warehouse else 0;
    var rayon := if s.Some? then s.value.rayon else 0;
    var cash := if s.Some? then s.value.cash else 0.0;
    BestSeller(t.key, t.qtySold, warehouse, rayon, TruncToInt(cash), IsBlocked(warehouse, rayon))
  }

  /** Each sold total joined with its key's stock summary, if any.
      Written as its own recursion rather than as a `MapSeq`, so that its
      ensures can say what each row holds. */
  function JoinAll(ts: seq<SoldTotal>, ss: seq<StockSummary>): (r: seq<BestSeller>)
    ensures |r| == |ts|
    ensures forall i :: 0 <= i < |ts| ==> r[i] == Join(ts[i], FindSummary(ss, ts[i].key))
  {
    if |ts| == 0 then [] else [Join(ts[0], FindSummary(ss, ts[0].key))] + JoinAll(ts[1..], ss)
  }

  predicate QtyGeq(a: SoldTotal, b: SoldTotal) { a.qtySold >= b.qtySold }

  function TotalQty(t: SoldTotal): int { t.qtySold }

  function BestSellerQty(b: BestSeller): int { b.qtySold }

  /** The sales totals per key, in descending order of quantity sold. */
  function SortedTotals(sales: seq<SalesRow>): (r: seq<SoldTotal>)
    ensures multiset(r) == multiset(SoldTotals(sales, KeysOf(sales, SalesKey)))
    ensures forall i, j :: 0 <= i <= j < |r| ==> r[i].qtySold >= r[j].qtySold
  {
    var r := SortDesc(SoldTotals(sales, KeysOf(sales, SalesKey)), QtyGeq);
    SortedAll(r, QtyGeq);
    r
  }

  /** The best-seller table, sorted by quantity sold (descending). */
  function BestSellerTable(sales: seq<SalesRow>, stock: seq<StockRow>): (r: seq<BestSeller>)
    ensures |r| == |KeysOf(sales, SalesKey)|
    ensures forall i, j :: 0 <= i <= j < |r| ==> r[i].qtySold >= r[j].qtySold
  {
    JoinAll(SortedTotals(sales), StockSummaryTable(stock))
  }

  /** Every row of the table is one sales key's totals: the quantity sold is
      the key's sales sum, the stock columns are the key's stock sums (0 when
      the key has no stock), the price is the truncated mean (0 without
      stock), and the blocked flag follows the blocked rule. */
  lemma BestSellerRows(sales: seq<SalesRow>, stock: seq<StockRow>)
    ensures var r := BestSellerTable(sales, stock);
      forall i :: 0 <= i < |r| ==>
        && r[i].qtySold == SumWhere(sales, SalesKey, QtySold, r[i].key)
        && r[i].warehouse == SumWhere(stock, StockKey, Warehouse, r[i].key)
        && r[i].rayon == SumWhere(stock, StockKey, Rayon, r[i].key)
        && r[i].cash == (if CountWhere(stock, StockKey, r[i].key) > 0 then TruncToInt(MeanWhere(stock, StockKey, Cash, r[i].key)) else 0)
        && (r[i].blocked <==> r[i].warehouse > 0 && r[i].rayon <= 3)
  {
    var r := BestSellerTable(sales, stock);
    var sorted := SortedTotals(sales);
    var totals := SoldTotals(sales, KeysOf(sales, SalesKey));
    var ss := StockSummaryTable(stock);
    forall i | 0 <= i < |r|
      ensures r[i].qtySold == SumWhere(sales, SalesKey, QtySold, r[i].key)
      ensures r[i].warehouse == SumWhere(stock, StockKey, Warehouse, r[i].key)
      ensures r[i].rayon == SumWhere(stock, StockKey, Rayon, r[i].key)
      ensures r[i].cash == (if CountWhere(stock, StockKey, r[i].key) > 0 then TruncToInt(MeanWhere(stock, StockKey, Cash, r[i].key)) else 0)
    {
      var t := sorted[i];
      assert t in multiset(totals);
      var a :| 0 <= a < |totals| && totals[a] == t;
      var k := t.key;
      if FindSummary(ss, k).None? {
        if CountWhere(stock, StockKey, k) > 0 {
          assert false;
        }
        forall j | 0 <= j < |stock| ensures StockKey(stock[j]) != k {
          if StockKey(stock[j]) == k {
            CountWherePositive(stock, StockKey, k, j);
            assert false;
          }
        }
        SumWhereAbsent(stock, StockKey, Warehouse, k);
        SumWhereAbsent(stock, StockKey, Rayon, k);
      }
    }
  }

  /** A key without any stock row gets empty stock columns and is never
      flagged. */
  lemma BestSellerUnmatched(sales: seq<SalesRow>, stock: seq<StockRow>, i: int)
    requires 0 <= i < |BestSellerTable(sales, stock)|
    requires forall j :: 0 <= j < |stock| ==> StockKey(stock[j]) != BestSellerTable(sales, stock)[i].key
    ensures var b := BestSellerTable(sales, stock)[i];
      b.warehouse == 0 && b.rayon == 0 && b.cash == 0 && !b.blocked
  {
    var k := BestSellerTable(sales, stock)[i].key;
    BestSellerRows(sales, stock);
    SumWhereAbsent(stock, StockKey, Warehouse, k);
    SumWhereAbsent(stock, StockKey, Rayon, k);
    CountWhereAbsent(stock, StockKey, k);
  }

  function RowKey(b: BestSeller): ItemKey { b.key }

  function TotalKey(t: SoldTotal): ItemKey { t.key }

  /** The join keeps each sales total's key in place. */
  lemma JoinAllKeys(ts: seq<SoldTotal>, ss: seq<StockSummary>)
    ensures MapSeq(JoinAll(ts, ss), RowKey) == MapSeq(ts, TotalKey)
  {
  }

  /** Sorting reorders the per-key totals: the keys stay distinct and are
      exactly the sales keys. */
  lemma SortedTotalsKeys(sales: seq<SalesRow>)
    ensures NoDups(MapSeq(SortedTotals(sales), TotalKey))
    ensures forall k :: k in MapSeq(SortedTotals(sales), TotalKey) <==> k in KeysOf(sales, SalesKey)
  {
    var keys := KeysOf(sales, SalesKey);
    var totals := SoldTotals(sales, keys);
    assert MapSeq(totals, TotalKey) == keys;
    MapNoDupsPermutation(totals, SortedTotals(sales), TotalKey);
    MapMembersPermutation(totals, SortedTotals(sales), TotalKey);
  }

  /** The table has one row per sales key: its keys are distinct and are
      exactly the keys occurring in the sales report. */
  lemma BestSellerKeys(sales: seq<SalesRow>, stock: seq<StockRow>)
    ensures NoDups(MapSeq(BestSellerTable(sales, stock), RowKey))
    ensures forall k :: k in MapSeq(BestSellerTable(sales, stock), RowKey) <==> k in KeysOf(sales, SalesKey)
  {
    JoinAllKeys(SortedTotals(sales), StockSummaryTable(stock));
    SortedTotalsKeys(sales);
  }

  lemma {:induction false} JoinAllQty(ts: seq<SoldTotal>, ss: seq<StockSummary>)
    ensures Sum(JoinAll(ts, ss), BestSellerQty) == Sum(ts, TotalQty)
  {
    if |ts| > 0 {
      JoinAllQty(ts[1..], ss);
      assert JoinAll(ts, ss)[1..] == JoinAll(ts[1..], ss);
    }
  }

  lemma {:induction false} SoldTotalsQty(sales: seq<SalesRow>, keys: seq<ItemKey>)
    ensures Sum(SoldTotals(sales, keys), TotalQty) == SumOverKeys(sales, SalesKey, QtySold, keys)
  {
    if |keys| > 0 {
      SoldTotalsQty(sales, keys[1..]);
      assert SoldTotals(sales, keys)[1..] == SoldTotals(sales, keys[1..]);
    }
  }

  /** Conservation: the table's quantities add up to the sales report's
      total quantity sold. */
  lemma BestSellerQtyConserved(sales: seq<SalesRow>, stock: seq<StockRow>)
    ensures Sum(BestSellerTable(sales, stock), BestSellerQty) == Sum(sales, QtySold)
  {
    var keys := KeysOf(sales, SalesKey);
    JoinAllQty(SortedTotals(sales), StockSummaryTable(stock));
    SumPermutation(SortedTotals(sales), SoldTotals(sales, keys), TotalQty);
    SoldTotalsQty(sales, keys);
    GroupSumsConserve(sales, SalesKey, QtySold);
  }
}
