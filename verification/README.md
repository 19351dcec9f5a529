# Heatmap data core, modelled in Dafny

The program reads a list of stock tickers and fetches each ticker's daily price history from the CafeF
provider. It summarises each series as last price, change, percentage change, mean volume and point
count. It then builds a treemap document: a flat list of tickers that have a percentage change, and
the same tickers grouped into sectors with a summed market cap.

This project models the pure data logic of `main.py` with the network, threads, pandas and plotting
removed:

- `symbols.dfy`: cleaning the ticker file (`read_symbols`).
- `series.dfy`: filtering and sorting one price series (`normalize_df`).
- `summary.dfy`: the per-ticker summary and the error record (`process_symbol`).
- `aggregate.dfy`: the flat list with its market-cap fallback, and the sector rollup (`build_tv_json_and_heatmap`).
- `heatmap.dfy`: the document, the fatal empty case and the run over all tickers.
- `seqs.dfy`: a generic filter-map and a real sum, which every filter and total above is built from.
- `wrappers.dfy`: `Option` and `Result`.
- `scenarios.dfy`: worked examples on concrete inputs.

Prices, volumes and caps are exact `real`s. A NaN or unparsable value is `None`. A payload is a
`Frame`: flags for which of the date, close and volume columns exist, plus rows of already-parsed
optional values.

### Behaviour a reader might not expect (the model follows the code)

- `normalize_df` does not remove rows that share a date, so duplicate dates are kept. The model
  treats the pandas sort as unstable: any date-sorted arrangement of the surviving rows is acceptable.
- `df["date"]` on a frame with no `date` column raises `KeyError('date')` (main.py:44). An empty
  payload is such a frame, since `pd.DataFrame([])` has no columns. `process_symbol` turns the
  exception into an error record whose message is `'date'`. `Normalize` returns `Failure("'date'")`
  exactly when the date column is missing.
- The market-cap estimate tests truthiness (main.py:150). A zero mean volume or a zero price therefore
  gives no cap rather than a cap of 0.
- A sector's cap is reported only when its total is strictly positive (main.py:181).

## Model

| member | source | states |
|---|---|---|
| Symbols.Strip | main.py:63 | a non-empty stripped line starts and ends with non-whitespace, and it is never longer than the line |
| Symbols.TrimStartSpec | main.py:63 | trimming the front removes a prefix made only of whitespace and keeps the rest unchanged |
| Symbols.TrimEndSpec | main.py:63 | trimming the back removes a suffix made only of whitespace and keeps the rest unchanged |
| Symbols.StripSpec | main.py:63 | the stripped line is a contiguous middle part of the line, with only whitespace cut off on either side, and it is empty exactly when the line is all whitespace |
| Symbols.CanonChar | main.py:64 | after upper-casing and replacing `.` with `-`, no character is a dot or lower-case letter; whitespace and `#` are neither created nor removed; other clean characters are unchanged; `.` becomes `-` and a lower-case ASCII letter becomes its upper-case letter |
| Symbols.SymbolOf | main.py:63-64 | a line yields no ticker exactly when its stripped form is empty or starts with `#`; otherwise the ticker is non-empty, has no leading `#`, no surrounding space, no dot, no lower-case letter, and is no longer than the line; character by character it is the stripped line upper-cased with `.` replaced by `-` |
| Symbols.SymbolOfNone | main.py:63 | a line yields no ticker exactly when it is all whitespace or its stripped form starts with `#` |
| Symbols.CanonClean | main.py:64 | upper-casing and replacing dots in a stripped line that is not a comment gives a clean ticker |
| Symbols.CleanSymbols | main.py:61-64 | there are never more tickers than lines, and every ticker is clean in the sense above |
| Symbols.ReadSymbols | main.py:61-64 | the line-by-line loop produces exactly the cleaned list |
| Symbols.StripIdempotentOnTrimmed | main.py:63 | a string with no whitespace at either end strips to itself |
| Symbols.SymbolOfClean | main.py:63-64 | a clean ticker cleans to itself |
| Symbols.CleanSymbolsConcat | main.py:63-64 | cleaning keeps file order: cleaning two blocks of lines back to back gives the two cleaned blocks back to back |
| Symbols.CleanSymbolsMembership | main.py:63-64 | a ticker is emitted exactly when some line cleans to it |
| Symbols.CleanSymbolsIdempotent | main.py:61-64 | cleaning an already cleaned list changes nothing |
| Series.Insert | main.py:57 | inserting into a date-sorted list keeps it sorted and adds exactly that row |
| Series.SortByDate | main.py:57 | the sorted rows are in non-decreasing date order and are a permutation of the input |
| Series.Normalize | main.py:44-57 | fails with message `'date'` exactly when the date column is missing; otherwise keeps the column flags and returns a date-sorted permutation of exactly the rows that have a date and, when a close column exists, a close |
| Series.NormalisationRows | main.py:54-57 | every normalised row has a date and, when there is a close column, a close; every surviving input row is kept; the count equals the number of survivors |
| Series.NormalisationUnique | main.py:57 | when dates are strictly increasing there is only one sorted arrangement, so the unstable sort cannot change the result |
| Summary.Mean | main.py:127-129 | the mean exists exactly for a non-empty list, and the mean times the count is the sum |
| Summary.MeanWithinBounds | main.py:127-129 | the mean lies within any bounds that hold for every value |
| Summary.PctChange | main.py:123-124 | the percentage change is null exactly when the first close is 0; otherwise applying it to the first close gives the last close |
| Summary.Summarize | main.py:119-130 | the record has no error; the point count is the row count, or 0 without a close column; the price is the last close; the change is last minus first; the percentage change is guarded by the first close; the mean volume is over the present volumes; the record is well formed |
| Summary.ProcessSymbol | main.py:115-132 | the record is well formed and carries the symbol; it has an error exactly when the fetch failed or the date column is missing; a failure gives the all-null record with that error and zero points; a payload with a date column gives the summary of some date-sorted arrangement of its surviving rows |
| Summary.NormalisedCloseComplete | main.py:54-57 | every row of a normalised series has a close when the close column exists |
| Summary.SummaryIgnoresTieOrder | main.py:57 | the point count and the mean volume do not depend on how the sort orders rows with equal dates; with strictly increasing dates the whole summary does not either |
| Summary.ProcessSymbolCounts | main.py:118-130 | for a payload with a date column, in terms of the raw rows: no error, the point count is the number of surviving rows, and the mean volume is over the survivors' volumes |
| Aggregate.ResolveCap | main.py:146-156 | a present map value wins; otherwise a cap exists exactly when the mean volume and the price are both present and non-zero, and then it is their product, which is non-zero |
| Aggregate.MakeEntry | main.py:141-169 | the name and sector come from the sector map when it has the symbol, otherwise the symbol and `Unknown`; price, change, percentage change, point count and mean volume are copied; the cap is the resolved one |
| Aggregate.Flatten | main.py:136-169 | there are never more entries than results, and each entry is built from a result that has a percentage change |
| Aggregate.FlattenOrigins | main.py:137-169 | every entry of the filtered list is built from a result that has a percentage change |
| Aggregate.FlattenMembership | main.py:137-169 | an entry is in the flat list exactly when some result with a percentage change builds it |
| Aggregate.FlattenConcat | main.py:137-169 | flattening keeps result order |
| Aggregate.FlattenEmpty | main.py:137-140 | the flat list is empty exactly when no result has a percentage change |
| Aggregate.FlattenPermutation | main.py:137-169 | reordering the results reorders the flat list without changing its entries or their multiplicity |
| Aggregate.SectorKey | main.py:173 | the bucket name is never empty, and a non-empty sector is its own bucket name, and an empty sector goes to `Unknown` |
| Aggregate.CapTotalAppend | main.py:176-177 | adding an entry adds its cap to the total when present and nothing otherwise |
| Aggregate.MembersMembership | main.py:172-175 | an entry is in sector `k` exactly when it is in the flat list and its sector key is `k` |
| Aggregate.MembersOfAbsentSector | main.py:174 | a sector that has no bucket yet has no members |
| Aggregate.AddEntryMembers | main.py:172-175 | after one fold step every bucket holds exactly its sector's entries so far, in order, and is not empty |
| Aggregate.AddEntryTotals | main.py:176-177 | after one fold step every bucket's total is the sum of its members' present caps |
| Aggregate.AddEntryGroups | main.py:172-177 | one fold step keeps the table a grouping of the entries seen so far |
| Aggregate.GroupIsGrouping | main.py:171-177 | the fold gives one bucket per sector key, never empty, holding exactly that sector's entries in flat order, with the sum of their present caps; every entry's sector has a bucket |
| Aggregate.AddEntryCount | main.py:172-175 | one fold step keeps the sector names distinct and adds exactly one item |
| Aggregate.GroupCount | main.py:171-177 | the buckets hold as many entries in all as the flat list |
| Aggregate.SectorCap | main.py:181 | a sector cap is reported exactly when the total is positive, and then equals the total |
| Aggregate.ReportsOfGrouping | main.py:179-182 | the reports of a grouping table have distinct names, list exactly their sector's entries, are never empty, and carry the reported total of their members' caps |
| Aggregate.ReportsCover | main.py:179-182 | every entry's sector has a report |
| Aggregate.ReportsAreRollUp | main.py:179-182 | the reports of a grouping table are a rollup of the flat list |
| Aggregate.RollUpSpec | main.py:171-182 | distinct sector names; each sector holds exactly its entries in flat order and is not empty; every entry's sector appears; the item counts add up to the flat length; each cap is the sum of the present member caps when positive, else null |
| Aggregate.EntryInExactlyOneSector | main.py:172-175 | an entry is in a sector's items exactly when that sector is its own sector key |
| Aggregate.NoCapsMeansNullSector | main.py:176-181 | a sector none of whose members has a cap reports a null cap |
| Aggregate.RollUpSector | main.py:171-182 | each sector of the rollup lists exactly its entries, is not empty, and carries the reported total of its members' caps |
| Aggregate.RollUpCovers | main.py:172-175 | every flat entry's sector is a sector of the rollup |
| Aggregate.CapTotalPermutation | main.py:176-177 | a sector's cap total does not depend on the order of its members |
| Aggregate.MatchingSector | main.py:171-182 | for two flat lists that are permutations of each other, every sector of one has a sector of the same name in the other, with the same members counted with multiplicity and the same cap |
| Aggregate.RollUpPermutation | main.py:171-182 | the sector rollup does not depend on flat-list order up to member order, in both directions |
| Heatmap.BuildDocument | main.py:135-195 | the run aborts with `No valid items to plot (no data)` exactly when no result has a percentage change; otherwise the document carries the fixed data source and notes, the range and timestamp given, a non-empty flat list and its sector rollup |
| Heatmap.ProcessAll | main.py:248-252 | one well-formed result per symbol, carrying that symbol, with an error exactly when its fetch failed or its payload had no date column; each result is that symbol's `process_symbol` outcome |
| Heatmap.FlatEntriesHaveData | main.py:137-140 | every flat entry comes from an error-free result and has a price, a change and at least one point |
| Heatmap.AllFailuresFatal | main.py:193-195 | when every fetch fails, in any arrival order, or there are no symbols, the run aborts |
| Heatmap.ArrivalOrderIrrelevant | main.py:248-254 | the order results arrive in does not decide whether the run aborts; when it does not, the two documents have the same metadata, the same flat entries with multiplicity, and sectors that match by name, members and cap |
| Scenarios.AaaNormalised | main.py:54-57 | a two-day payload delivered newest first comes out oldest first |
| Scenarios.AaaSummary | main.py:115-130 | closes 10 then 12 summarise to price 12, change 2, percentage change 20, two points |
| Scenarios.FailedFetchScenario | main.py:131-132 | a failed fetch gives the all-null record carrying the error |
| Scenarios.TwoSymbolRun | main.py:137-169 | of one good and one failed result, only the good one is flattened, under its own name and `Unknown`, with cap 1000 × 12 = 12000 |
| Scenarios.MissingDateScenario | main.py:44 | a payload without a date column records the error `'date'` |
| Scenarios.NonPositiveSectorScenario | main.py:176-182 | a sector whose caps sum to 0 reports a null cap |

## Left out

- Fetching (`fetch_history`, main.py:23-27) is a network call. Each symbol's outcome is a parameter: the parsed payload, or an error message. A `Failure` stands for the request's error and also for any exception `normalize_df` raises before the date lookup, such as `c.lower()` on a non-string column name (main.py:32).
- The thread pool and `as_completed` (main.py:248-252) are modelled only through their effect: the results arrive as any permutation of the per-symbol results (`IsArrivalOrder`).
- Column renaming, the volume alias search, `to_datetime(dayfirst=True)` and `to_numeric` coercion (main.py:31-52) are pandas parsing. Rows arrive already parsed into optional date, close and volume. The open, high and low columns are not modelled because nothing downstream reads them.
- The sector and market-cap loaders (main.py:67-112) parse CSV files with pandas. Their outputs are the finite maps `SectorMap` and `CapMap`.
- Treemap construction, the HTML and JSON writes, `print` and `datetime.now()` (main.py:184-219) are presentation and I/O. The timestamp is a parameter of `BuildDocument`.
- `main`'s argument parsing and file-presence handling (main.py:222-246) are command-line plumbing. `RANGE_TO_DAYS` only sets the request size, so it does not appear. The range name is a parameter.
- IEEE floating point is not modelled: NaN is `None` and arithmetic is exact. The permutation results about totals and means hold over exact arithmetic only.
- Python's `str.upper()` is modelled on ASCII letters only. Non-ASCII case mappings, including those that change a string's length, are not modelled.
- Aggregate.RollUpSpec: it does not state that sectors are listed in order of first appearance in the flat list, as Python's dictionary order makes them. `Reports` lists them in the fold's key order, but no lemma ties that order to first appearance.
