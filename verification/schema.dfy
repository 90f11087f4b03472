/** Header resolution: matching each canonical field of a report against a
    list of accepted header spellings, and renaming the matched columns
    (`detect_column`, `standardize_sales_columns`,
    `standardize_stock_columns`). A table is represented here by its header
    row; the cells are not touched by this stage. */
module Schema {
  import opened Seqs
  import opened Text

  /** A canonical column name and the header spellings accepted for it. */
  datatype Field = Field(name: string, aliases: seq<string>)

  /** `[p.lower() for p in possible_names]`. */
  function LowerAll(aliases: seq<string>): seq<string>
  {
    seq(|aliases|, i requires 0 <= i < |aliases| => Lower(aliases[i]))
  }

  /** A header is accepted when, stripped and lower-cased, it equals one of
      the lower-cased aliases. The aliases are not stripped. */
  predicate HeaderMatches(header: string, aliases: seq<string>)
  {
    Lower(Trim(header)) in LowerAll(aliases)
  }

  /** Column `i` is the first column, in table order, that is accepted. */
  ghost predicate IsFirstMatch(headers: seq<string>, aliases: seq<string>, i: int)
  {
    && 0 <= i < |headers|
    && HeaderMatches(headers[i], aliases)
    && forall j :: 0 <= j < i ==> !HeaderMatches(headers[j], aliases)
  }

  function FirstMatchFrom(headers: seq<string>, aliases: seq<string>, from: nat): (r: Option<nat>)
    requires from <= |headers|
    ensures r.None? <==> forall j :: from <= j < |headers| ==> !HeaderMatches(headers[j], aliases)
    ensures r.Some? ==> from <= r.value < |headers| && HeaderMatches(headers[r.value], aliases)
    ensures r.Some? ==> forall j :: from <= j < r.value ==> !HeaderMatches(headers[j], aliases)
    decreases |headers| - from
  {
    if from == |headers| then None
    else if HeaderMatches(headers[from], aliases) then Some(from)
    else FirstMatchFrom(headers, aliases, from + 1)
  }

  /** `detect_column`: the first column whose header is accepted, or None. */
  function DetectColumn(headers: seq<string>, aliases: seq<string>): (r: Option<string>)
    ensures r.None? <==> forall j :: 0 <= j < |headers| ==> !HeaderMatches(headers[j], aliases)
    ensures r.Some? ==> exists i :: IsFirstMatch(headers, aliases, i) && headers[i] == r.value
  {
    match FirstMatchFrom(headers, aliases, 0)
    case None => None
    case Some(i) =>
      assert IsFirstMatch(headers, aliases, i);
      Some(headers[i])
  }

  /** The script's `mapping`: for each canonical field, in schema order, the
      column `detect_column` found for it. */
  function Mapping(headers: seq<string>, schema: seq<Field>): (m: seq<Option<string>>)
    ensures |m| == |schema|
    ensures forall i :: 0 <= i < |schema| ==> m[i] == DetectColumn(headers, schema[i].aliases)
  {
    if |schema| == 0 then []
    else [DetectColumn(headers, schema[0].aliases)] + Mapping(headers, schema[1..])
  }

  /** The canonical names, in schema order, of the fields from position
      `from` on whose column is missing. */
  function MissingFrom(schema: seq<Field>, m: seq<Option<string>>, from: nat): (r: seq<string>)
    requires |m| == |schema| && from <= |schema|
    ensures |r| <= |schema| - from
    ensures |r| == 0 <==> forall i :: from <= i < |schema| ==> m[i].Some?
    ensures forall n :: n in r <==> exists i :: from <= i < |schema| && schema[i].name == n && m[i].None?
    decreases |schema| - from
  {
    if from == |schema| then []
    else
      var rest := MissingFrom(schema, m, from + 1);
      if m[from].Some? then rest else [schema[from].name] + rest
  }

  /** Field `i` is the last field whose detected column is `h`; in the
      script's `{v: k for k, v in mapping.items()}` later entries overwrite
      earlier ones, so this field's name is the one `h` is renamed to. */
  ghost predicate LastToDetect(m: seq<Option<string>>, i: int, h: string)
  {
    && 0 <= i < |m|
    && m[i] == Some(h)
    && forall j :: i < j < |m| ==> m[j] != Some(h)
  }

  /** The name `h` gets from the first `upto` entries of the rename mapping. */
  function RenameUpTo(h: string, schema: seq<Field>, m: seq<Option<string>>, upto: nat): (r: string)
    requires |m| == |schema| && upto <= |schema|
    ensures (forall i :: 0 <= i < upto ==> m[i] != Some(h)) ==> r == h
    ensures forall i :: 0 <= i < upto && m[i] == Some(h) && (forall j :: i < j < upto ==> m[j] != Some(h))
                        ==> r == schema[i].name
  {
    if upto == 0 then h
    else if m[upto - 1] == Some(h) then schema[upto - 1].name
    else RenameUpTo(h, schema, m, upto - 1)
  }

  /** `df.rename(columns={v: k for k, v in mapping.items()})` applied to a
      header row. */
  function RenameAll(hs: seq<string>, schema: seq<Field>, m: seq<Option<string>>): (r: seq<string>)
    requires |m| == |schema|
    ensures |r| == |hs|
    ensures forall k :: 0 <= k < |hs| ==> r[k] == RenameUpTo(hs[k], schema, m, |schema|)
  {
    if |hs| == 0 then [] else [RenameUpTo(hs[0], schema, m, |schema|)] + RenameAll(hs[1..], schema, m)
  }

  /** Standardisation of one report's header row: fails with every missing
      canonical field, or renames each detected column to its canonical name
      and leaves every other column as it was. */
  function Standardize(headers: seq<string>, schema: seq<Field>): (r: Result<seq<string>, seq<string>>)
    ensures r.Failure? <==> exists i :: 0 <= i < |schema| && DetectColumn(headers, schema[i].aliases).None?
    ensures r.Failure? ==> |r.error| > 0
    ensures r.Failure? ==> forall n :: n in r.error <==>
              exists i :: 0 <= i < |schema| && schema[i].name == n && DetectColumn(headers, schema[i].aliases).None?
    ensures r.Success? ==> |r.value| == |headers|
    ensures r.Success? ==> forall k :: 0 <= k < |headers| && Some(headers[k]) !in Mapping(headers, schema) ==> r.value[k] == headers[k]
    ensures r.Success? ==>
              forall i, k :: 0 <= k < |headers| && LastToDetect(Mapping(headers, schema), i, headers[k]) ==>
                r.value[k] == schema[i].name
  {
    var m := Mapping(headers, schema);
    var missing := MissingFrom(schema, m, 0);
    if |missing| > 0 then Failure(missing)
    else
      Success(RenameAll(headers, schema, m))
  }

  /** No header can be accepted for two different fields: the lower-cased
      alias lists of distinct fields share no entry. */
  ghost predicate DisjointAliases(schema: seq<Field>)
  {
    forall i, j, a :: 0 <= i < j < |schema| && a in LowerAll(schema[i].aliases) ==> a !in LowerAll(schema[j].aliases)
  }

  /** With disjoint alias lists, a successful standardisation yields every
      canonical name as a header of the renamed table. */
  lemma {:induction false} StandardizeComplete(headers: seq<string>, schema: seq<Field>)
    requires DisjointAliases(schema)
    requires Standardize(headers, schema).Success?
    ensures forall i :: 0 <= i < |schema| ==> schema[i].name in Standardize(headers, schema).value
  {
    var r := Standardize(headers, schema).value;
    var m := Mapping(headers, schema);
    forall i | 0 <= i < |schema| ensures schema[i].name in r {
      var c := m[i].value;
      var k :| IsFirstMatch(headers, schema[i].aliases, k) && headers[k] == c;
      forall j | i < j < |schema| ensures m[j] != Some(c) {
        if m[j] == Some(c) {
          assert false;
        }
      }
      assert LastToDetect(m, i, headers[k]);
      assert r[k] == schema[i].name;
    }
  }

  /** The sales report's four canonical fields and their accepted headers. */
  const SalesSchema: seq<Field> := [
    Field("Specialcode1", ["Specialcode1", "Special Code"]),
    Field("Qty_Sold", ["Quantity", "Qty"]),
    Field("Merch Group", ["Merch Group", "Top Group"]),
    Field("Color", ["Color", "RenkKodu"])
  ]

  /** The stock report's eight canonical fields and their accepted headers. */
  const StockSchema: seq<Field> := [
    Field("Specialcode1", ["Specialcode1", "Special Code"]),
    Field("Merch Group", ["Merch Group", "Top Group"]),
    Field("Color", ["Color", "RenkKodu"]),
    Field("Warehouse", ["Warehouse", "WH"]),
    Field("RAYON", ["RAYON", "Store"]),
    Field("Cash", ["Cash", "Price"]),
    Field("Location_Quantity", ["Location: Quantity", "Location Quantity", "Location_Qty"]),
    Field("EtiketTip", ["EtiketTip", "Etiket Tip", "Label Type"])
  ]

  function StandardizeSales(headers: seq<string>): Result<seq<string>, seq<string>>
  {
    Standardize(headers, SalesSchema)
  }

  function StandardizeStock(headers: seq<string>): Result<seq<string>, seq<string>>
  {
    Standardize(headers, StockSchema)
  }
}
