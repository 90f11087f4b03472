/** The cleaning stage: normalising the key columns of both reports and
    dropping the rows of the excluded product code. */
module Cleaning {
  import opened Seqs
  import opened Text
  import opened Records

  /** The code is only stripped; Merch Group and Color are upper-cased and
      stripped (`.str.upper().str.strip()`). */
  function CleanSalesRow(r: SalesRow): SalesRow
  {
    r.(code := Trim(r.code), group := NormalKey(r.group), color := NormalKey(r.color))
  }

  /** As for sales, and the `EtiketTip` label is upper-cased and stripped too. */
  function CleanStockRow(r: StockRow): StockRow
  {
    r.(code := Trim(r.code), group := NormalKey(r.group), color := NormalKey(r.color),
       labelType := NormalKey(r.labelType))
  }

  predicate KeepSales(r: SalesRow) { r.code != ExcludedCode }
  predicate KeepStock(r: StockRow) { r.code != ExcludedCode }

  /** A key column value after cleaning: stripped and upper case. */
  predicate IsNormalKey(s: string)
  {
    Trimmed(s) && IsUpper(s)
  }

  /** A key whose product code is not the excluded one. */
  predicate KeyKept(k: ItemKey) { k.code != ExcludedCode }

  predicate IsCleanSales(r: SalesRow)
  {
    Trimmed(r.code) && r.code != ExcludedCode && IsNormalKey(r.group) && IsNormalKey(r.color)
  }

  predicate IsCleanStock(r: StockRow)
  {
    Trimmed(r.code) && r.code != ExcludedCode && IsNormalKey(r.group) && IsNormalKey(r.color)
    && IsNormalKey(r.labelType)
  }

  /** `.str.upper().str.strip()`: the upper-cased stripped value, which is a
      normal key, and a normal key is left as it is. */
  function NormalKey(s: string): (r: string)
    ensures r == Upper(Trim(s))
    ensures IsNormalKey(r)
    ensures IsNormalKey(s) ==> r == s
  {
    var t := Trim(Upper(s));
    UpperTrimCommute(s);
    UpperIsUpper(Trim(s));
    if IsNormalKey(s) then
      UpperOfUpper(s);
      TrimFixed(s);
      t
    else t
  }

  /** A stripped value is left as it is by stripping. */
  lemma {:induction false} TrimFixed(s: string)
    requires Trimmed(s)
    ensures Trim(s) == s
  {
    assert s == [] + s + [];
    TrimPadded([], s, []);
  }

  /** The sales report after cleaning: every row normalised, and none with
      the excluded code. */
  function CleanSales(rows: seq<SalesRow>): (r: seq<SalesRow>)
    ensures forall i :: 0 <= i < |r| ==> IsCleanSales(r[i])
  {
    var mapped := MapSeq(rows, CleanSalesRow);
    var r := Filter(mapped, KeepSales);
    forall j | 0 <= j < |r| ensures IsCleanSales(r[j]) {
      var y := r[j];
      assert y in mapped && KeepSales(y);
      var i :| 0 <= i < |mapped| && mapped[i] == y;
      CleanSalesRowKept(rows[i]);
    }
    r
  }

  /** Exactly the rows whose stripped code is not the excluded code survive,
      each cleaned. */
  lemma CleanSalesMembers(rows: seq<SalesRow>)
    ensures forall x :: x in rows ==> (CleanSalesRow(x) in CleanSales(rows) <==> Trim(x.code) != ExcludedCode)
    ensures forall y :: y in CleanSales(rows) ==> exists x :: x in rows && y == CleanSalesRow(x)
  {
    var mapped := MapSeq(rows, CleanSalesRow);
    var r := Filter(mapped, KeepSales);
    forall y | y in r ensures exists x :: x in rows && y == CleanSalesRow(x) {
      var i :| 0 <= i < |mapped| && mapped[i] == y;
      assert rows[i] in rows;
    }
    forall x | x in rows ensures CleanSalesRow(x) in r <==> Trim(x.code) != ExcludedCode {
      var i :| 0 <= i < |rows| && rows[i] == x;
      assert mapped[i] in mapped;
    }
  }


  function CleanStock(rows: seq<StockRow>): (r: seq<StockRow>)
    ensures forall i :: 0 <= i < |r| ==> IsCleanStock(r[i])
  {
    var mapped := MapSeq(rows, CleanStockRow);
    var r := Filter(mapped, KeepStock);
    forall j | 0 <= j < |r| ensures IsCleanStock(r[j]) {
      var y := r[j];
      assert y in mapped && KeepStock(y);
      var i :| 0 <= i < |mapped| && mapped[i] == y;
      CleanStockRowKept(rows[i]);
    }
    r
  }

  /** Exactly the rows whose stripped code is not the excluded code survive,
      each cleaned. */
  lemma CleanStockMembers(rows: seq<StockRow>)
    ensures forall x :: x in rows ==> (CleanStockRow(x) in CleanStock(rows) <==> Trim(x.code) != ExcludedCode)
    ensures forall y :: y in CleanStock(rows) ==> exists x :: x in rows && y == CleanStockRow(x)
  {
    var mapped := MapSeq(rows, CleanStockRow);
    var r := Filter(mapped, KeepStock);
    forall y | y in r ensures exists x :: x in rows && y == CleanStockRow(x) {
      var i :| 0 <= i < |mapped| && mapped[i] == y;
      assert rows[i] in rows;
    }
    forall x | x in rows ensures CleanStockRow(x) in r <==> Trim(x.code) != ExcludedCode {
      var i :| 0 <= i < |rows| && rows[i] == x;
      assert mapped[i] in mapped;
    }
  }


  /** Cleaning works row by row and keeps the surviving rows in order. */
  lemma CleanSalesConcat(a: seq<SalesRow>, b: seq<SalesRow>)
    ensures CleanSales(a + b) == CleanSales(a) + CleanSales(b)
    ensures CleanSales([]) == []
  {
    MapConcat(a, b, CleanSalesRow);
    FilterConcat(MapSeq(a, CleanSalesRow), MapSeq(b, CleanSalesRow), KeepSales);
  }

  lemma CleanStockConcat(a: seq<StockRow>, b: seq<StockRow>)
    ensures CleanStock(a + b) == CleanStock(a) + CleanStock(b)
    ensures CleanStock([]) == []
  {
    MapConcat(a, b, CleanStockRow);
    FilterConcat(MapSeq(a, CleanStockRow), MapSeq(b, CleanStockRow), KeepStock);
  }

  /** One row: dropped exactly when its stripped code is the excluded code. */
  lemma {:induction false} CleanSalesSingle(x: SalesRow)
    ensures CleanSales([x]) == if Trim(x.code) == ExcludedCode then [] else [CleanSalesRow(x)]
  {
    assert MapSeq([x], CleanSalesRow) == [CleanSalesRow(x)];
  }

  lemma {:induction false} CleanStockSingle(x: StockRow)
    ensures CleanStock([x]) == if Trim(x.code) == ExcludedCode then [] else [CleanStockRow(x)]
  {
    assert MapSeq([x], CleanStockRow) == [CleanStockRow(x)];
  }

  /** Cleaning an already clean report changes nothing. */
  lemma {:induction false} CleanSalesIdempotent(rows: seq<SalesRow>)
    ensures CleanSales(CleanSales(rows)) == CleanSales(rows)
  {
    var c := CleanSales(rows);
    CleanSalesFixed(c);
  }

  /** A cleaned row that is kept satisfies the cleaning invariant. */
  lemma CleanSalesRowKept(x: SalesRow)
    requires KeepSales(CleanSalesRow(x))
    ensures IsCleanSales(CleanSalesRow(x))
  {
  }

  lemma CleanSalesRowFixed(x: SalesRow)
    requires IsCleanSales(x)
    ensures CleanSalesRow(x) == x
  {
    TrimFixed(x.code);
  }

  lemma CleanSalesFixed(rows: seq<SalesRow>)
    requires forall i :: 0 <= i < |rows| ==> IsCleanSales(rows[i])
    ensures CleanSales(rows) == rows
  {
    var mapped := MapSeq(rows, CleanSalesRow);
    forall i | 0 <= i < |rows| ensures mapped[i] == rows[i] {
      CleanSalesRowFixed(rows[i]);
    }
    assert mapped == rows;
    FilterAll(rows, KeepSales);
  }


  lemma {:induction false} CleanStockIdempotent(rows: seq<StockRow>)
    ensures CleanStock(CleanStock(rows)) == CleanStock(rows)
  {
    var c := CleanStock(rows);
    CleanStockFixed(c);
  }

  /** A cleaned row that is kept satisfies the cleaning invariant. */
  lemma CleanStockRowKept(x: StockRow)
    requires KeepStock(CleanStockRow(x))
    ensures IsCleanStock(CleanStockRow(x))
  {
  }

  lemma CleanStockRowFixed(x: StockRow)
    requires IsCleanStock(x)
    ensures CleanStockRow(x) == x
  {
    TrimFixed(x.code);
  }

  lemma CleanStockFixed(rows: seq<StockRow>)
    requires forall i :: 0 <= i < |rows| ==> IsCleanStock(rows[i])
    ensures CleanStock(rows) == rows
  {
    var mapped := MapSeq(rows, CleanStockRow);
    forall i | 0 <= i < |rows| ensures mapped[i] == rows[i] {
      CleanStockRowFixed(rows[i]);
    }
    assert mapped == rows;
    FilterAll(rows, KeepStock);
  }


  /** The code is compared after stripping but without upper-casing: a
      lower-case spelling of the excluded code survives cleaning. */
  lemma {:induction false} LowerCaseCodeKept(qty: int, group: string, color: string)
    ensures CleanSales([SalesRow(" w5lv19z8 ", qty, group, color)]) != []
  {
    var code := " w5lv19z8 ";
    assert code == " " + "w5lv19z8" + " ";
    TrimPadded(" ", "w5lv19z8", " ");
    assert "w5lv19z8" != ExcludedCode by {
      assert "w5lv19z8"[0] != ExcludedCode[0];
    }
  }
}
