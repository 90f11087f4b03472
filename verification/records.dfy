/** The rows of the two standardised reports, their grouping keys and the
    fixed constants of the report. Quantities are whole pieces; the unit
    price is an exact real. */
module Records {
  import opened Seqs

  /** One row of the sales report, by canonical column. */
  datatype SalesRow = SalesRow(code: string, qtySold: int, group: string, color: string)

  /** One row of the stock report, by canonical column: `warehouse` is the
      backroom quantity, `rayon` the sales-floor quantity, `labelType` the
      `EtiketTip` price-label colour. */
  datatype StockRow = StockRow(
    code: string,
    group: string,
    color: string,
    warehouse: int,
    rayon: int,
    cash: real,
    locationQty: int,
    labelType: string)

  /** The (Specialcode1, Merch Group, Color) grouping key. */
  datatype ItemKey = ItemKey(code: string, group: string, color: string)

  /** The one product code whose rows the script drops from both reports after cleaning. */
  const ExcludedCode: string := "W5LV19Z8"

  /** The `EtiketTip` value marking a discounted (red-label) product. */
  const DiscountLabel: string := "KIRMIZI"

  function SalesKey(r: SalesRow): ItemKey { ItemKey(r.code, r.group, r.color) }
  function StockKey(r: StockRow): ItemKey { ItemKey(r.code, r.group, r.color) }

  function QtySold(r: SalesRow): int { r.qtySold }
  function Warehouse(r: StockRow): int { r.warehouse }
  function Rayon(r: StockRow): int { r.rayon }
  function LocationQty(r: StockRow): int { r.locationQty }
  function Cash(r: StockRow): real { r.cash }
  function StockGroup(r: StockRow): string { r.group }

  /** The `Total_PCS` column: pieces in the backroom and on the floor. */
  function Pcs(r: StockRow): int { r.warehouse + r.rayon }

  /** Every backroom and floor quantity is non-negative. The script never
      checks or clamps this; bounds that need it take it as a hypothesis. */
  predicate NonNegative(stock: seq<StockRow>)
  {
    forall i :: 0 <= i < |stock| ==> stock[i].warehouse >= 0 && stock[i].rayon >= 0
  }

  /** `x` is `part` as a percentage of `whole`. */
  predicate IsPercentOf(x: real, part: int, whole: int)
  {
    x * whole as real == part as real * 100.0
  }

  /** `share` is `part` as a percentage of `whole`, missing exactly when the
      whole is zero. */
  predicate IsShareOf(share: Option<real>, part: int, whole: int)
  {
    (share.None? <==> whole == 0) && (share.Some? ==> IsPercentOf(share.value, part, whole))
  }

  /** `part / whole * 100` for a non-zero whole. */
  function Percent(part: int, whole: int): (r: real)
    requires whole != 0
    ensures IsPercentOf(r, part, whole)
  {
    part as real * 100.0 / whole as real
  }

  /** `part / whole * 100` as an unguarded float division: no number when
      the whole is zero (the script gets an infinity or NaN there). */
  function PercentOrNone(part: int, whole: int): (r: Option<real>)
    ensures IsShareOf(r, part, whole)
  {
    if whole == 0 then None else Some(Percent(part, whole))
  }
}
