/** Facts about the two concrete schemas: no header can be accepted for two
    fields, a padded upper-case header is still recognised, and a stock
    report without a price column is rejected naming that column. */
module SchemaFacts {
  import opened Seqs
  import opened Text
  import opened Schema

  lemma SalesAliasesLowered()
    ensures LowerAll(SalesSchema[0].aliases) == ["specialcode1", "special code"]
    ensures LowerAll(SalesSchema[1].aliases) == ["quantity", "qty"]
    ensures LowerAll(SalesSchema[2].aliases) == ["merch group", "top group"]
    ensures LowerAll(SalesSchema[3].aliases) == ["color", "renkkodu"]
  {
    assert Lower("Specialcode1") == "specialcode1";
    assert Lower("Special Code") == "special code";
    assert Lower("Quantity") == "quantity";
    assert Lower("Qty") == "qty";
    assert Lower("Merch Group") == "merch group";
    assert Lower("Top Group") == "top group";
    assert Lower("Color") == "color";
    assert Lower("RenkKodu") == "renkkodu";
  }

  /** The sales schema's fields accept disjoint sets of headers, so a
      successful standardisation names every canonical sales column. */
  lemma SalesSchemaDisjoint()
    ensures DisjointAliases(SalesSchema)
  {
    SalesAliasesLowered();
  }

  lemma StockAliasesLoweredA()
    ensures LowerAll(StockSchema[0].aliases) == ["specialcode1", "special code"]
    ensures LowerAll(StockSchema[1].aliases) == ["merch group", "top group"]
  {
    assert Lower("Specialcode1") == "specialcode1";
    assert Lower("Special Code") == "special code";
    assert Lower("Merch Group") == "merch group";
    assert Lower("Top Group") == "top group";
  }

  lemma StockAliasesLoweredB()
    ensures LowerAll(StockSchema[2].aliases) == ["color", "renkkodu"]
    ensures LowerAll(StockSchema[3].aliases) == ["warehouse", "wh"]
    ensures LowerAll(StockSchema[4].aliases) == ["rayon", "store"]
    ensures LowerAll(StockSchema[5].aliases) == ["cash", "price"]
  {
    assert Lower("Color") == "color";
    assert Lower("RenkKodu") == "renkkodu";
    assert Lower("Warehouse") == "warehouse";
    assert Lower("WH") == "wh";
    assert Lower("RAYON") == "rayon";
    assert Lower("Store") == "store";
    assert Lower("Cash") == "cash";
    assert Lower("Price") == "price";
  }

  lemma StockAliasesLoweredC()
    ensures LowerAll(StockSchema[6].aliases) == ["location: quantity", "location quantity", "location_qty"]
  {
    assert Lower("Location: Quantity") == "location: quantity";
    assert Lower("Location Quantity") == "location quantity";
    assert Lower("Location_Qty") == "location_qty";
  }

  lemma StockAliasesLoweredD()
    ensures LowerAll(StockSchema[7].aliases) == ["etikettip", "etiket tip", "label type"]
  {
    assert Lower("EtiketTip") == "etikettip";
    assert Lower("Etiket Tip") == "etiket tip";
    assert Lower("Label Type") == "label type";
  }

  /** No lower-cased alias of field `i` is one of a later field. */
  predicate DisjointFromLater(schema: seq<Field>, i: int)
    requires 0 <= i < |schema|
  {
    forall j, a :: i < j < |schema| && a in LowerAll(schema[i].aliases) ==> a !in LowerAll(schema[j].aliases)
  }

  lemma StockDisjointFirst()
    ensures DisjointFromLater(StockSchema, 0) && DisjointFromLater(StockSchema, 1)
  {
    StockAliasesLoweredA();
    StockAliasesLoweredB();
    StockAliasesLoweredC();
    StockAliasesLoweredD();
  }

  lemma StockDisjointSecond()
    ensures DisjointFromLater(StockSchema, 2) && DisjointFromLater(StockSchema, 3)
  {
    StockAliasesLoweredA();
    StockAliasesLoweredB();
    StockAliasesLoweredC();
    StockAliasesLoweredD();
  }

  lemma StockDisjointHigh()
    ensures DisjointFromLater(StockSchema, 4) && DisjointFromLater(StockSchema, 5)
    ensures DisjointFromLater(StockSchema, 6) && DisjointFromLater(StockSchema, 7)
  {
    StockAliasesLoweredB();
    StockAliasesLoweredC();
    StockAliasesLoweredD();
  }

  /** The stock schema's fields accept disjoint sets of headers, so a
      successful standardisation names every canonical stock column. */
  lemma StockSchemaDisjoint()
    ensures DisjointAliases(StockSchema)
  {
    StockDisjointFirst();
    StockDisjointSecond();
    StockDisjointHigh();
    forall i | 0 <= i < |StockSchema| ensures DisjointFromLater(StockSchema, i) {
    }
  }

  /** A successfully standardised sales header row holds every canonical
      sales column. */
  lemma SalesColumnsPresent(headers: seq<string>)
    requires StandardizeSales(headers).Success?
    ensures forall i :: 0 <= i < |SalesSchema| ==> SalesSchema[i].name in StandardizeSales(headers).value
  {
    SalesSchemaDisjoint();
    StandardizeComplete(headers, SalesSchema);
  }

  /** A successfully standardised stock header row holds every canonical
      stock column. */
  lemma StockColumnsPresent(headers: seq<string>)
    requires StandardizeStock(headers).Success?
    ensures forall i :: 0 <= i < |StockSchema| ==> StockSchema[i].name in StandardizeStock(headers).value
  {
    StockSchemaDisjoint();
    StandardizeComplete(headers, StockSchema);
  }

  /** Any header that strips and lower-cases to `specialcode1` is accepted as
      the code column of both reports. */
  lemma SpecialcodeAccepted(h: string)
    requires Lower(Trim(h)) == "specialcode1"
    ensures HeaderMatches(h, SalesSchema[0].aliases) && HeaderMatches(h, StockSchema[0].aliases)
  {
    SalesAliasesLowered();
    StockAliasesLoweredA();
  }

  /** Matching strips the header and ignores its case: an upper-case
      spelling of an alias, padded with any whitespace, is accepted. */
  lemma PaddedUpperHeaderMatches(before: string, after: string)
    requires AllSpace(before) && AllSpace(after)
    ensures HeaderMatches(before + "SPECIALCODE1" + after, SalesSchema[0].aliases)
  {
    TrimPadded(before, "SPECIALCODE1", after);
    assert Lower("SPECIALCODE1") == "specialcode1";
    assert Lower(Trim(before + "SPECIALCODE1" + after)) == "specialcode1";
    SpecialcodeAccepted(before + "SPECIALCODE1" + after);
  }

  /** A stock report without a price column, but with every other column,
      is rejected and the rejection names exactly the `Cash` column. */
  lemma MissingPriceColumn(headers: seq<string>)
    requires forall j :: 0 <= j < |headers| ==> !HeaderMatches(headers[j], ["Cash", "Price"])
    requires forall i :: 0 <= i < |StockSchema| && i != 5 ==> DetectColumn(headers, StockSchema[i].aliases).Some?
    ensures StandardizeStock(headers).Failure?
    ensures forall n :: n in StandardizeStock(headers).error <==> n == "Cash"
  {
    assert StockSchema[5].aliases == ["Cash", "Price"];
    assert DetectColumn(headers, StockSchema[5].aliases).None?;
  }
}
