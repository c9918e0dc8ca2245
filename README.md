# Crypto Sentinel dashboard: source tables and search filter

This project models the logic of the Crypto Sentinel dashboard (kiddstats).
The dashboard collects listing and signal events from three upstream
sources: CoinMarketCap signals, Ourbit listings and MEXC listings. It shows
them in three tables, one per source, under a single search box. It also has
a status panel with the global record count and one count per source.

The model covers:

- `types.dfy` (module `Types`): the closed `DataSource` enum and the
  `ListingEntry` record. Every required field is a plain value. The two
  optional fields are `Option<string>`. The record's `type` field is named
  `kind`, because `type` is a Dafny keyword.
- `text.dfy` (module `Text`): lower-casing (`LowerChar`, `Lower`) and
  substring search (`Contains`, the behaviour of JavaScript's
  `String.prototype.includes`). `Contains` is proved equal to an index-based
  definition (`Occurs`).
- `subsequences.dfy` (module `Subsequences`): order-preserving
  subsequences. This is what `Array.prototype.filter` can return.
- `app.dfy` (module `App`): the three filtered tables of `App.tsx`, written
  once as `Partition(entries, filter, src)`. It also holds the per-source
  counts of the status panel (`BySource`, `SourceCount`, `DatabaseStatus`)
  and the properties relating them.

The entry list and the filter text are plain inputs. In the application they
are React state.

## Model

| member | source | states |
|---|---|---|
| Types.SourceName | types.ts:2-6 | gives each source its string value, a non-empty upper-case identifier made of `A`..`Z` and `_` |
| Types.SourcesAreClosed | types.ts:2-6 | there are exactly three sources, all distinct, and every `DataSource` value is one of them |
| Types.SourceNameInjective | types.ts:2-6 | two sources have the same string value iff they are the same source |
| Text.LowerChar | App.tsx:22 | the result is never an upper-case ASCII letter; `A`..`Z` map to `a`..`z`; every other character is unchanged |
| Text.Lower | App.tsx:22 | lower-casing keeps the length, and the result has no upper-case ASCII letter |
| Text.LowerSlice | App.tsx:22 | lower-casing a slice gives the same slice of the lower-cased string |
| Text.LowerIdempotent | App.tsx:22 | lower-casing an already lower-cased string changes nothing |
| Text.OccursStep | App.tsx:22 | a needle occurs in a text iff it is a prefix of the text or occurs in the text's tail |
| Text.Contains | App.tsx:22 | `includes`: the search is true exactly when the needle occurs at some index of the text (both directions, empty needle included) |
| Text.ContainsEmpty | App.tsx:22 | every string contains the empty string, so an empty search box filters out nothing |
| Text.ContainsTransitive | App.tsx:22 | a substring of a substring of a text is a substring of that text |
| Text.OccursAtLower | App.tsx:22 | an occurrence at index `i` stays an occurrence at `i` after lower-casing both strings |
| Text.ContainsLower | App.tsx:22 | if `g` contains `f`, then lower-case `g` contains lower-case `f` |
| Subsequences.SubsequenceLength | App.tsx:22 | a subsequence is never longer than the sequence it comes from |
| Subsequences.SubsequenceMultiset | App.tsx:22 | a subsequence adds no element and no extra copy of one |
| App.MatchesFilter | App.tsx:22 | an entry matches iff the lower-cased filter occurs in its lower-cased symbol or in its lower-cased title; an empty filter matches every entry |
| App.Keeps | App.tsx:22 | a kept entry has the target source; with an empty filter, an entry is kept iff it has the target source |
| App.Partition | App.tsx:21-34 | never longer than the input; an entry is returned iff it is in the input, has the target source, and its lower-cased symbol or lower-cased title contains the lower-cased filter |
| App.PartitionIsSubsequence | App.tsx:22 | the table is an order-preserving subsequence of the input |
| App.PartitionMultiplicity | App.tsx:22 | a kept entry appears in the table exactly as often as in the input, and any other entry does not appear |
| App.BySource | App.tsx:87 | an entry is returned iff it is in the input and has the given source |
| App.SourceCount | App.tsx:85-96 | the count of one source is at most the global record count, and it is positive iff some entry has that source |
| App.EmptyFilterIsBySource | App.tsx:21-34 | with an empty filter, a table equals the entries of its source, in order |
| App.CaseInsensitive | App.tsx:22 | two filters with the same lower-case form (e.g. "btc" and "BTC") give identical tables |
| App.LowerFilterSameResult | App.tsx:22 | filtering with the lower-cased filter gives the same table as the filter itself |
| App.FilterMonotone | App.tsx:22 | if lower-case `f` occurs in lower-case `g`, the table for `g` is a subsequence of the table for `f` (the argument uses only containment between the lower-cased strings) |
| App.FilterMonotoneExact | App.tsx:22 | if filter `f` itself occurs in filter `g`, the table for `g` is a subsequence of the table for `f` |
| App.FilterMonotoneExample | App.tsx:22 | the table for "xbtc" is a subsequence of the table for "BTC", although "xbtc" does not contain "BTC" |
| App.FilteredWithinSource | App.tsx:21-34 | any filtered table is a subsequence of its source's entries, holds no copy that list lacks, and is never longer than that source's count |
| App.SourcesPartitionEntries | App.tsx:83-95 | the entries of the three sources together are exactly the input, counting repeats |
| App.SourceCountsSum | App.tsx:83-95 | the three per-source counts add up to the global record count |
| App.EmptyFilterExactlyOne | App.tsx:21-34 | with an empty filter, each input entry is in the table of its own source and in no other |
| App.EmptyFilterCoversEntries | App.tsx:21-34 | with an empty filter, the three table lengths add up to the number of entries |
| App.SourceTables | App.tsx:21-34 | each of the three tables is an order-preserving subsequence of the input holding every copy of each matching entry of its source and nothing else; each is at most its source's count; with an empty filter their lengths add up to the input length |
| App.DatabaseStatus | App.tsx:80-96 | the global count is the input length; each per-source figure is the count of its own source (CMC, MEXC, Ourbit); the three add up to the global count; each is positive iff some entry has that source |
| App.SearchExample | App.tsx:21-24 | with one CMC "BTC" entry and one MEXC "ETH" entry, searching the CMC table for "btc" returns only the BTC entry |

## Left out

- Unicode case mapping: JavaScript's `toLowerCase` applies full Unicode case mapping. `Text.LowerChar` folds only the ASCII letters `A`..`Z`. For text outside ASCII the model differs from the browser, and the five facts below hold for the model only.
- Text.Lower: keeps the length only under ASCII folding. In the browser `"İ".toLowerCase()` is two code units long, so the program does not keep the length.
- Text.LowerSlice: commutes with slicing only under per-character folding. JavaScript's final-sigma rule makes the lower-case form of a letter depend on what follows it, so the program does not commute with slicing.
- Text.OccursAtLower: keeps the index only under ASCII folding. In the browser `"İ".toLowerCase()` is two code units, so `"x"` occurs in `"İx"` at index 1 but in its lower-case form at index 2. The helper `Text.LowerSliceAt` has the same restriction.
- Text.ContainsLower: holds only under ASCII folding. In the browser `"ΑΣ".includes("Σ")` is true, but `"ΑΣ".toLowerCase()` is `"ας"`, `"Σ".toLowerCase()` is `"σ"`, and `"ας"` does not contain `"σ"`.
- App.FilterMonotoneExact: holds only under ASCII folding, because it goes through `Text.ContainsLower`. By the same example, an entry with symbol `"ΑΣ"` is in the table for filter `"ΑΣ"` but not in the table for filter `"Σ"`, although `"Σ"` occurs in `"ΑΣ"`. `App.FilterMonotone`, stated on the lower-cased filters, does not depend on the folding.
- Loading the entry list: `storageService.getAll()` (App.tsx:13-19) is not part of this model. The entry list is an input, and persistence, deduplication and upsert are not modelled.
- The sync trigger: `SyncControl` (App.tsx:68) is not part of this model.
- The chart: `Charts` (App.tsx:73) is not part of this model, so date bucketing is not modelled.
- React machinery: `useState`, `useEffect` and the `useMemo` caching (App.tsx:10-34) are left out. Caching does not change the values computed, which are the pure functions modelled here.
- Rendering: all JSX markup (App.tsx:36-135) is left out.
- `ChartDataPoint` and `SyncStats` (types.ts:19-29) are declared but no modelled logic uses them, so they are left out.
- JavaScript strings are sequences of UTF-16 code units. Dafny's `string` is a sequence of Unicode scalar values. This matters only for characters outside the Basic Multilingual Plane, which the ASCII-only folding leaves alone anyway.
