# Store stock health planner — a Dafny model

This project models the analysis core of a store stock planner, a single
script (`app.py`) that reads two spreadsheet reports and derives from them
the tables a store manager acts on:

- a **sales report**: rows that each carry a product code, merch group and colour, with a quantity sold;
- a **stock report**: rows that each carry a product code, merch group and colour, with
  - backroom (`Warehouse`) and sales-floor (`RAYON`) quantities,
  - a unit price (`Cash`),
  - a location quantity,
  - a price-label colour (`EtiketTip`).

The same (code, group, colour) key can appear on several rows of either report; the tables sum or average over them.

The model covers the header check of the two reports and every step from their typed rows to the tables. Header resolution is modelled on its own; `Planner.Analyse` uses it only to decide whether the run halts, and takes the rows already typed, so which input column feeds which row field is not modelled:

- **Header resolution** (`Schema`, `SchemaFacts`). Each canonical column is matched against its list of accepted header spellings: stripped, case-insensitive, first column wins. A report that lacks a canonical column halts the run with the list of every missing column. Matched columns are renamed and other columns are kept as they are.
- **Cleaning** (`Text`, `Cleaning`). The product code is stripped. Group, colour and label are upper-cased and stripped. Rows of the excluded code `W5LV19Z8` are dropped.
- **Best sellers** (`BestSellers`). Sales are summed per (code, group, colour) key and sorted by quantity sold. They are left-joined onto the stock summary of the same key, with missing values filled with 0. A row is flagged as blocked when the backroom holds stock and the floor has at most three pieces.
- **Immediate replenishment** (`Replenishment`). These are the keys whose rows have backroom stock and nothing on the floor. Each gets its value at risk (backroom pieces × mean price) and an urgency band. The table is sorted by value at risk.
- **Capacity** (`Capacity`). Floor and backroom stock are summed per merch group. The group's floor capacity comes from a fixed six-entry table. The pieces to push today are the smaller of the free floor space and the backroom stock.
- **Fragmentation** (`Fragmentation`). A (group, code) pair with at most four pieces in total is fragmented. Each group's fragmented pieces are summed.
- **KPIs and merch table** (`Planner`). These are store totals and percentages, and the per-group table that joins capacity with fragmentation.
- **Discount per merch group** (`Discount`). Red-label (`KIRMIZI`) pieces are summed per group, with their share of the group's pieces.

`Grouping` and `Seqs` hold the generic `groupby`/sum/filter/sort machinery the
tables share. `Scenario` works one concrete row through the whole pipeline.

Tables are sequences of rows. Each pandas `groupby` is modelled as its keys plus a sum, count or mean over the rows carrying each key. Prices are exact reals. A percentage whose denominator can be zero is an `Option<real>`: the script divides without a guard, and `None` stands for the infinity or NaN it would produce.

Three behaviours of the script shape the model:

- **Product codes are stripped but not upper-cased** (app.py:85). So ` w5lv19z8 ` survives cleaning, while `W5LV19Z8` is dropped (`Cleaning.LowerCaseCodeKept`).
- **Quantities are not clamped.** A negative quantity flows into every sum unchanged. Bounds that need non-negative quantities take `Records.NonNegative` as a hypothesis.
- **Percentages are unguarded.** Where the denominator can be zero the model gives `None` in place of the infinity or NaN the script would produce.

## Model

| member | source | states |
|---|---|---|
| Schema.FirstMatchFrom | app.py:30-33 | the scan from a column on returns the first accepted column at or after it, or none exactly when no later column is accepted |
| Schema.DetectColumn | app.py:29-33 | `detect_column` returns None iff no stripped, lower-cased header equals a lower-cased alias; otherwise it returns the header of the first accepted column |
| Schema.Mapping | app.py:36-41 | the mapping holds, for every canonical field in order, the column detected for it |
| Schema.MissingFrom | app.py:42 | the missing list is empty iff every field was detected, and contains exactly the names of the undetected fields |
| Schema.RenameUpTo | app.py:46 | a header no field detected keeps its name; a detected header takes the name of the last field that detected it (later dict entries win) |
| Schema.RenameAll | app.py:46 | renaming works header by header and keeps the number and order of columns |
| Schema.Standardize | app.py:35-46 | fails iff some field is undetected, with a non-empty error naming exactly the undetected fields; on success keeps every column, renames detected columns to their field and leaves the others untouched |
| Schema.StandardizeComplete | app.py:42-46 | with disjoint alias lists, a successful standardisation contains every canonical column name |
| SchemaFacts.SalesSchemaDisjoint | app.py:36-41 | no header can be accepted for two different sales fields |
| SchemaFacts.StockSchemaDisjoint | app.py:49-62 | no header can be accepted for two different stock fields |
| SchemaFacts.SalesColumnsPresent | app.py:35-46 | a sales report that passes `StandardizeSales` has all four canonical columns after renaming |
| SchemaFacts.StockColumnsPresent | app.py:48-67 | a stock report that passes `StandardizeStock` has all eight canonical columns after renaming |
| SchemaFacts.SpecialcodeAccepted | app.py:29-33 | any header that, stripped and lower-cased, is `specialcode1` is accepted as the code column of both the sales and the stock report |
| SchemaFacts.PaddedUpperHeaderMatches | app.py:29-33 | `SPECIALCODE1` with any whitespace padding on either side is accepted as the code column |
| SchemaFacts.MissingPriceColumn | app.py:55-66 | a stock report without a `Cash`/`Price` header, but with every other column, is rejected and the error names exactly `Cash` |
| Text.Trim | app.py:31 | `str.strip()` leaves neither end whitespace |
| Text.TrimIsInfix | app.py:85 | the stripped string is the infix of the input left after removing whitespace at both ends |
| Text.TrimPadded | app.py:85 | stripping any whitespace padding around a stripped core returns exactly that core |
| Text.TrimIdempotent | app.py:85 | stripping twice is stripping once |
| Text.UpperTrimCommute | app.py:86-87 | upper-casing then stripping equals stripping then upper-casing |
| Cleaning.NormalKey | app.py:86-89 | the result is the upper-cased stripped input, which is stripped and upper-case, and a value already of that form is unchanged |
| Cleaning.CleanSales | app.py:84-92 | every surviving sales row has a stripped code other than the excluded one and normalised group and colour |
| Cleaning.CleanStock | app.py:84-93 | every surviving stock row has a stripped code other than the excluded one and normalised group, colour and label |
| Cleaning.CleanSalesMembers | app.py:84-92 | a sales row survives (cleaned) iff its stripped code is not `W5LV19Z8`, and every survivor is the cleaning of an input row |
| Cleaning.CleanStockMembers | app.py:84-93 | a stock row survives (cleaned) iff its stripped code is not `W5LV19Z8`, and every survivor is the cleaning of an input row |
| Cleaning.CleanSalesConcat | app.py:92 | cleaning works row by row and keeps the survivors in their original order |
| Cleaning.CleanStockConcat | app.py:93 | cleaning works row by row and keeps the survivors in their original order |
| Cleaning.CleanSalesSingle | app.py:85-92 | one sales row is dropped exactly when its stripped code is the excluded code |
| Cleaning.CleanStockSingle | app.py:85-93 | one stock row is dropped exactly when its stripped code is the excluded code |
| Cleaning.CleanSalesIdempotent | app.py:84-92 | cleaning a cleaned sales report changes nothing |
| Cleaning.CleanStockIdempotent | app.py:84-93 | cleaning a cleaned stock report changes nothing |
| Cleaning.LowerCaseCodeKept | app.py:84-92 | the code is compared after stripping only, so ` w5lv19z8 ` is not excluded |
| Grouping.KeysOf | app.py:100 | the groups of a groupby are distinct and are exactly the keys occurring in the table |
| Grouping.GroupSumsConserve | app.py:166-167 | the per-group sums of a column add up to the column total |
| Seqs.SortDesc | app.py:102 | sorting descending yields a permutation of its input that is ordered by the comparison |
| BestSellers.TruncToInt | app.py:126 | `astype(int)` truncates toward zero: the result is within one of the input, on the same side of zero |
| BestSellers.StockSummaryTable | app.py:105-113 | the stock summary has a row for a key iff the key has stock rows, holding that key's sums and mean price |
| BestSellers.FindSummary | app.py:115-119 | the join finds the summary row of a key, and none exactly when no summary row has that key |
| BestSellers.SortedTotals | app.py:98-103 | the per-key sales totals are reordered (a permutation) into non-increasing quantity sold |
| BestSellers.BestSellerTable | app.py:98-124 | one row per sales key, sorted by quantity sold, non-increasing |
| BestSellers.BestSellerRows | app.py:98-126 | each row's quantity is its key's sales sum, stock columns are its key's stock sums, price is the truncated mean (0 without stock), and it is blocked iff warehouse > 0 and rayon ≤ 3 |
| BestSellers.Join | app.py:113-126 | a joined row keeps the key and sold quantity, takes the stock sums and truncated price of the matching summary, or 0 for all three and no block flag without one, and is blocked iff warehouse > 0 and rayon ≤ 3 |
| BestSellers.BestSellerUnmatched | app.py:115-126 | a key without stock rows gets warehouse 0, rayon 0, price 0 and is not flagged |
| BestSellers.BestSellerKeys | app.py:98-103 | the table's keys are distinct and exactly the keys of the sales report |
| BestSellers.BestSellerQtyConserved | app.py:98-102 | the table's quantities add up to the sales report's total quantity sold |
| Replenishment.UrgencyOf | app.py:150-152 | below 3 pieces is NORMAL, 3 to 8 is HIGH, above 8 is CRITICAL, each iff |
| Replenishment.UrgencyMonotone | app.py:150-152 | more backroom pieces never lower the urgency |
| Replenishment.Blocked | app.py:139 | a row is kept iff it is in the report with backroom stock and nothing on the floor |
| Replenishment.Unsorted | app.py:138-147 | the unsorted table has exactly one row per key of the fully blocked rows, each key once |
| Replenishment.ReplenishmentTable | app.py:138-155 | the table is a permutation of the per-key aggregates sorted by value at risk, non-increasing |
| Replenishment.AggregateOfBlocked | app.py:138-152 | a key's aggregate over fully blocked rows has positive warehouse, zero rayon, the key's sums and mean price, value at risk warehouse × mean price, and its urgency band |
| Replenishment.ReplenishmentRows | app.py:138-155 | every row of the table is the aggregate of the fully blocked rows of its key |
| Replenishment.IgnoresStockedRows | app.py:139 | a row with floor stock or no backroom stock has no effect on the table |
| Replenishment.ReplenishmentKeysDistinct | app.py:140 | the table has one row per key |
| Replenishment.ReplenishmentKeys | app.py:138-147 | a key appears in the table iff some stock row with that key has warehouse > 0 and rayon == 0 |
| Capacity.TotalCapacityValue | app.py:160-163 | the store's total floor capacity is 34667 |
| Capacity.LookupCapacity | app.py:169 | the lookup finds a group's table entry, and none exactly when the table does not list the group |
| Capacity.CapacityOf | app.py:160-169 | every listed capacity is positive |
| Capacity.Headroom | app.py:173 | the free space `(capacity − rayon).clip(lower=0)` is non-negative and is the larger of 0 and capacity − rayon |
| Capacity.PushToday | app.py:173-174 | the push is at most the backroom stock and at most the free space, is one of the two, is all backroom stock for an unlisted group, and is non-negative for non-negative stock |
| Capacity.PlanFrom | app.py:172-195 | from a group's sums and listed capacity, the row pushes the smaller of the free space and the backroom stock and gives the occupancy before and after the push as percentages of the capacity; without a listed capacity both occupancies and the capacity are 0 |
| Capacity.Plans | app.py:165-170 | the capacity table has one row per merch group of the stock report, each group once |
| Capacity.PlanRows | app.py:165-195 | every row holds its group's floor and backroom sums; for a listed group, its capacity, a push equal to the smaller of the free floor space and the backroom stock, and the floor occupancy before and after the push as percentages of the capacity; for an unlisted group, capacity 0, the whole backroom stock as push and both occupancies 0 |
| Capacity.PlansConserve | app.py:165-167 | the per-group floor and backroom sums add up to the store totals |
| Capacity.TotalPushBounded | app.py:173-174 | the total push is at most the store's backroom stock and non-negative for non-negative stock |
| Records.Percent | app.py:172-177 | a percentage times its whole is its part times 100 |
| Records.PercentOrNone | app.py:197 | an unguarded percentage has no value iff the whole is zero, and otherwise times the whole is the part times 100 |
| Fragmentation.PairRows | app.py:182-185 | each (group, code) pair's row carries the sum of its pieces |
| Fragmentation.FragmentedMembers | app.py:182-187 | a pair row is in the fragmented table iff the pair occurs, the row carries its total, and the total is at most 4 |
| Fragmentation.FragmentedRegroup | app.py:187-193 | a group's fragmented pieces (`FragmentedPcs`, the `Fragmented_PCS` column) are the pieces of exactly its small pairs |
| Fragmentation.FragmentedWithinGroup | app.py:182-197 | with non-negative quantities, a group's fragmented pieces are between 0 and the group's total pieces |
| Fragmentation.FragmentedAbsent | app.py:189-195 | a group without a small pair gets 0 fragmented pieces (the fill after the join) |
| Fragmentation.FragmentThresholdBoundary | app.py:187 | a lone row of 4 pieces is fragmented and one of 5 is not |
| Discount.DiscountIgnoresOtherLabels | app.py:209-210 | a row whose label is not `KIRMIZI` does not change the discounted quantity (`DiscountedQty`) |
| Discount.DiscountCountsRedLabels | app.py:209-210 | a `KIRMIZI` row adds exactly its backroom and floor pieces to the discounted quantity |
| Discount.DiscountedQtyBounded | app.py:209-211 | with non-negative quantities, the discounted quantity is between 0 and the store's pieces |
| Discount.DiscountTable | app.py:230-237 | the per-group table has each group once, exactly the groups having a red-label row |
| Discount.DiscountGroupForFacts | app.py:230-255 | a group's row holds its red-label warehouse and floor sums, their total, the group's total pieces, and the share of it (none for zero pieces) |
| Discount.DiscountTableRows | app.py:230-255 | every row of the table is the discount row of its group |
| Discount.DiscountTableConserve | app.py:230-241 | the groups' discounted totals add up to the store's discounted quantity |
| Planner.MerchTable | app.py:165-197 | the merch table carries exactly the capacity table's rows, in order |
| Planner.MerchRows | app.py:195-197 | each merch row has its group's fragmented and total pieces, a share missing iff the group has no pieces, and fragmented pieces within the total for non-negative stock |
| Planner.KpiBounds | app.py:204-211 | the KPI totals equal the sums of the per-group table; the total push is at most the backroom stock; for non-negative stock the push, fragmented and discounted pieces lie between 0 and the store's pieces |
| Planner.KpisOf | app.py:209-222 | the warehouse, fragmented and discounted shares are percentages of the store's pieces, missing exactly when the store has none; the occupancy before and after the push are percentages of the 34667-piece total capacity |
| Planner.ComputeKpis | app.py:204-211 | the totals are the floor and backroom sums of the stock report, the push and fragmented sums of the merch-group table and the red-label pieces, and the shares are those `KpisOf` derives from them |
| Planner.Analyse | app.py:79-93 | a sales report with missing columns halts the run first, then a stock report with missing columns; otherwise the tables are those of the cleaned reports |
| Planner.BestSellersExclude | app.py:91-126 | after cleaning, no best-seller row has the excluded code `W5LV19Z8` |
| Planner.ReplenishmentExcludes | app.py:91-155 | after cleaning, no replenishment row has the excluded code `W5LV19Z8` |
| Planner.AnalyseExcludes | app.py:91-155 | in a run that passes the header check, neither the best-seller nor the replenishment table has a row with the excluded code |
| Scenario.ScenarioCleaned | app.py:84-89 | the row `A1`/`bg`/`red` with label `kirmizi` cleans to `A1`/`BG`/`RED`/`KIRMIZI` and is kept |
| Scenario.ScenarioReplenishment | app.py:138-155 | 5 backroom pieces, none on the floor, price 100 give value at risk 500 and urgency HIGH |
| Scenario.ScenarioDiscount | app.py:230-255 | the red-label row gives group BG 5 discounted pieces out of 5, 100 percent |
| Scenario.ScenarioEndToEnd | app.py:79-93 | through the whole pipeline, the raw row yields that replenishment row and that discount row |

## Left out

- Streamlit user interface:
  - the page, file uploaders, metrics, tables and download button;
  - the Excel reading and the `export_to_excel` writer;
  - the login gate.
  - The model starts from header rows and typed rows, and `st.error` plus `st.stop` become the failure value of `Planner.Analyse`.
- `astype(str)`: rows are already typed, so the string form of non-string cells is not modelled.
- Case mapping covers ASCII letters only. Python's `str.upper()`/`str.lower()` also map non-ASCII letters (such as Turkish `ı`/`İ`), which are left unchanged here. Whitespace stripping uses Python's full whitespace set.
- Floating point is modelled as exact reals:
  - Prices and means are exact.
  - An infinity or NaN from a zero denominator becomes `None`.
  - Rounding of the displayed percentages (`:.2f`) and `int(...)` of the displayed KPIs are not modelled.
- Key order:
  - pandas `groupby` emits its groups in sorted key order; the model emits them in order of first appearance.
  - `sort_values` uses an unstable quicksort; the model uses a stable insertion sort.
  - Contracts on table order therefore speak only of the sorted column, never of the order among ties or among the groups of an unsorted table.
- Column renames for display (`Specialcode1` → `Special Code`) and the emoji labels: the urgency is an enumeration and the blocked flag a boolean.
- Missing cells (NaN) in the input reports are not modelled: every quantity is a number. The only missing values modelled are those produced by the left joins and the unlisted capacity.
- Integer width: pandas sums quantities as 64-bit integers, and the model sums unbounded integers. An int64 overflow would need more than 9·10^18 pieces, so it is not modelled.
- Schema.DetectColumn: headers are strings; a non-string column label makes `detect_column` raise on `.strip()`, and that failure is not modelled.
- Planner.Analyse: takes the typed rows of both reports rather than building them from the renamed columns, so the wiring from a column to a row field is not modelled.
- Replenishment.UrgencyMonotone: its contract follows from `UrgencyOf`'s own contract, and it is stated as a reading aid rather than as proof work.
- Text.Trim: its own contract says only that the result is stripped. The full characterisation of `str.strip()` is split across `Text.TrimIsInfix` and `Text.TrimPadded`.
