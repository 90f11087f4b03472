/** A worked example: one stock row of code `A1`, lower-case
    group `bg` and colour `red`, five pieces in the backroom, none on the
    floor, unit price 100 and the red label spelled in lower case. */
module Scenario {
  import opened Seqs
  import opened Text
  import opened Grouping
  import opened Records
  import opened Schema
  import opened Cleaning
  import opened Replenishment
  import opened Discount
  import opened Planner

  const Raw: StockRow := StockRow("A1", "bg", "red", 5, 0, 100.0, 5, "kirmizi")

  const Clean: StockRow := StockRow("A1", "BG", "RED", 5, 0, 100.0, 5, "KIRMIZI")

  lemma NormalKeyOf(s: string, u: string)
    requires Upper(s) == u && Trimmed(u)
    ensures NormalKey(s) == u
  {
    TrimFixed(u);
  }

  lemma GroupNormalised()
    ensures NormalKey("bg") == "BG"
  {
    assert Upper("bg") == "BG";
    NormalKeyOf("bg", "BG");
  }

  lemma ColorNormalised()
    ensures NormalKey("red") == "RED"
  {
    assert Upper("red") == "RED";
    NormalKeyOf("red", "RED");
  }

  lemma LabelNormalised()
    ensures NormalKey("kirmizi") == "KIRMIZI"
  {
    assert Upper("kirmizi") == "KIRMIZI";
    NormalKeyOf("kirmizi", "KIRMIZI");
  }

  lemma CleanedAs(r: StockRow, code: string, group: string, color: string, tag: string)
    requires Trim(r.code) == code && NormalKey(r.group) == group
    requires NormalKey(r.color) == color && NormalKey(r.labelType) == tag
    ensures CleanStockRow(r) == r.(code := code, group := group, color := color, labelType := tag)
  {
  }

  lemma RowCleaned()
    ensures CleanStockRow(Raw) == Clean
  {
    TrimFixed("A1");
    GroupNormalised();
    ColorNormalised();
    LabelNormalised();
    CleanedAs(Raw, "A1", "BG", "RED", "KIRMIZI");
  }

  /** Cleaning upper-cases the group, colour and label and keeps the row. */
  lemma ScenarioCleaned()
    ensures CleanStock([Raw]) == [Clean]
  {
    RowCleaned();
    TrimFixed("A1");
    CleanStockSingle(Raw);
  }

  /** The row is blocked stock worth 500 at risk, with high urgency. */
  lemma ScenarioReplenishment()
    ensures ReplenishmentTable([Clean]) == [Replenishment(StockKey(Clean), 5, 0, 5, 100.0, 500.0, High)]
  {
    var stock := [Clean];
    var k := StockKey(Clean);
    var expected := Replenishment(k, 5, 0, 5, 100.0, 500.0, High);
    assert stock[1..] == [];
    FilterAll(stock, FullyBlocked);
    assert Blocked(stock) == stock;
    assert KeysOf(stock, StockKey) == [k];
    assert CountWhere(stock, StockKey, k) == 1;
    assert SumWhere(stock, StockKey, Warehouse, k) == 5;
    assert SumWhere(stock, StockKey, Rayon, k) == 0;
    assert SumWhere(stock, StockKey, LocationQty, k) == 5;
    assert SumWhereReal(stock, StockKey, Cash, k) == 100.0;
    assert MeanWhere(stock, StockKey, Cash, k) == 100.0;
    assert Aggregate(stock, k) == expected;
    assert Unsorted(stock) == [expected];
    assert SortDesc([expected], RiskGeq) == [expected] by {
      assert [expected][1..] == [];
    }
  }

  /** The group's discount row counts all five pieces, the whole group. */
  lemma ScenarioDiscount()
    ensures DiscountTable([Clean]) == [DiscountGroup("BG", 5, 0, 5, 5, Some(100.0))]
  {
    var stock := [Clean];
    assert stock[1..] == [];
    FilterAll(stock, IsDiscounted);
    assert DiscountedRows(stock) == stock;
    assert KeysOf(stock, StockGroup) == ["BG"];
    assert SumWhere(stock, StockGroup, Warehouse, "BG") == 5;
    assert SumWhere(stock, StockGroup, Rayon, "BG") == 0;
    assert SumWhere(stock, StockGroup, Pcs, "BG") == 5;
    assert PercentOrNone(5, 5) == Some(100.0);
    assert DiscountGroupFor(stock, "BG") == DiscountGroup("BG", 5, 0, 5, 5, Some(100.0));
  }

  /** The whole pipeline on this row, once both header rows are accepted. */
  lemma ScenarioEndToEnd(salesHeaders: seq<string>, stockHeaders: seq<string>)
    requires StandardizeSales(salesHeaders).Success? && StandardizeStock(stockHeaders).Success?
    ensures Analyse(salesHeaders, stockHeaders, [], [Raw]).Success?
    ensures Analyse(salesHeaders, stockHeaders, [], [Raw]).value.replenishment
         == [Replenishment(ItemKey("A1", "BG", "RED"), 5, 0, 5, 100.0, 500.0, High)]
    ensures Analyse(salesHeaders, stockHeaders, [], [Raw]).value.discountByGroup
         == [DiscountGroup("BG", 5, 0, 5, 5, Some(100.0))]
  {
    ScenarioCleaned();
    ScenarioReplenishment();
    ScenarioDiscount();
  }
}
