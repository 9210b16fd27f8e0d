# BinoDive analysis engine in Dafny

BinoDive analyses an Amazon market from three CSV exports: a keyword analysis
(phrases, search volume, relevance, brand flag and one ranking column per ASIN),
business data (one row per ASIN with brand, revenue and so on) and product data.
From them it builds an analysis session with the following parts:

- the keyword list;
- one competitor per ASIN, scored by the share of the market search volume
  (SV) of the keywords that rank it in the top 30;
- the products;
- a root-word index of the keyword phrases;
- a histogram of competitor strength tiers.

The user can soft-delete and restore keywords, root words, competitors and
products. Every change is recorded in four soft-delete sets and the metrics are
recomputed.

This project models that core:

- **`CalculationEngine`** of the backend (`engine.dfy`) as a `Session` class
  whose fields the methods update in place. Every method is proved equal to a
  specification function on values:
  - `Metrics` (`metrics.dfy`) specifies `recalculateMetrics` and its helpers;
  - `RootIndex` (`root_index.dfy`) specifies `extractRootWords` and
    `calculateRootKeywords`;
  - `Cascade` (`cascade.dfy`) specifies the delete and restore cascades;
  - `Initial` (`initial.dfy`) specifies `processInitialData`.

  The properties the engine promises are proved as lemmas about those
  functions.
- **`DataProcessor`** of the backend (`data_processor.dfy`): a `Store` class
  holding the session map. Its update methods fix the order of the engine
  calls, and `getAnalysisData` builds the market summary. The summary's
  revenue total relies on the locale heuristic that rewrites revenue strings,
  which is in `Revenue` (`revenue.dfy`).
- **`CSVParser`** of the backend (`csv_parser.dfy`):
  - `parseEuropeanNumber` over exact decimals;
  - the per-row rules of the three parsers, applied to records already split
    into cells.
- **`ServerDataProcessor`** of the front end (`server_processor.dfy`). It is a
  second, independent engine:
  - its character-level CSV line splitter;
  - its three line-based file parsers;
  - `combineData`, which builds an analysis from the rows;
  - its flag-only `updateKeywords` and its `recalculateMetrics`.
- **`analysisReducer`** of the front end (`analysis_reducer.dfy`): the page's
  state machine over seven fields and twelve actions.

Shared modules:

- `model.dfy`: the records of the shared types.
- `text.dfy` and `numbers.dfy`: the JavaScript string and number built-ins
  the code relies on, including `trim`, `split`, `toLowerCase`, `replace`,
  `parseInt`, `parseFloat` and `Math.round`.
- `wrappers.dfy`: `Option` and `Result`.

Behaviour the model keeps exactly as the code has it:

- **Root deletion.** It stores the root word as given but matches phrases
  against its lower-case form. The rebuilt index therefore has no record for
  the lower-case word.
- **`updateKeywords` of the front end.** Its recalculation recomputes the
  strengths and tiers but leaves the tier histogram as it was.
- **Root restore.** It un-deletes a phrase that has the root and no other
  deleted root, even when that phrase was deleted directly.
- **Order.** Roots, competitors and products are processed one at a time in
  list order. Only the first competitor or product with an ASIN has its flag
  changed, as `find` does.
- **`recalculateMetrics`.**
  - It never removes stale `competitorMetrics` entries.
  - It leaves the strength of soft-deleted competitors untouched.
  - Its top-30 test `ranking && ranking <= 30` lets negative rankings through.
- **`getAnalysisData`.** It reports the size of the deleted-phrase set, which
  can count phrases that are not in the keyword list.
- **Re-marking after a root deletion.** `deleteRootKeywords` re-marks the index
  with `if (has) isDeleted = true`, whereas `restoreRootKeywords` assigns the
  membership test. Both rebuild the records unmarked first, so both equal
  "flag iff the word is in the deleted-root set". The model uses one function,
  `Cascade.MarkRoots`, for both.

Percentages are exact `real` values (`100 * part / total`). `Math.round` of a
non-negative ratio is computed in integers. The clock, which gives a listing
its age in months, is a parameter `listingAge`.

## Model

Paths are relative to the repository root.

| member | source | states |
|---|---|---|
| Metrics.StrengthLevelOf | backend/src/services/calculationEngine.ts:12-17 | The tier is "Molto Forte" iff p >= 80, "Forte" iff 65 <= p < 80, "Medio" iff 30 <= p < 65, "Debole" iff p < 30 (inclusive lower bounds) |
| Metrics.StrengthLevelMonotone | backend/src/services/calculationEngine.ts:12-17 | A larger percentage never gets a weaker tier |
| Metrics.VariationCount | backend/src/services/calculationEngine.ts:285-293 | Exactly 1 for an empty list, and the number of variation ASINs when there are any |
| Metrics.CalculateRelevance | backend/src/services/calculationEngine.ts:275-283 | Brand keywords get 0, others keep their relevance |
| Metrics.ActiveMembers | backend/src/services/calculationEngine.ts:165-167 | The active keywords are exactly those whose phrase is not in the deleted set, in list order |
| Metrics.VolumeConservation | backend/src/services/calculationEngine.ts:165-173 | Active and soft-deleted keywords partition the list and its search volume |
| Metrics.Top30Members | backend/src/services/calculationEngine.ts:185-188 | The top-30 keywords of an ASIN are exactly those whose ranking for it is non-zero and at most 30 (negative rankings included) |
| Metrics.Top30WithinTotal | backend/src/services/calculationEngine.ts:185-193 | With non-negative volumes, the top-30 SV lies between 0 and the total |
| Metrics.BrandWithinTotal | backend/src/services/calculationEngine.ts:175-177 | With non-negative volumes, the brand SV lies between 0 and the total |
| Metrics.BrandWithinMarket | backend/src/services/calculationEngine.ts:170-177 | With non-negative volumes, brandSV <= totalMarketSV |
| Metrics.PercentBounds | backend/src/services/calculationEngine.ts:195-197 | A part between 0 and the whole is between 0 and 100 percent, and 0 for an empty market |
| Metrics.SummaryCountsActive | backend/src/services/calculationEngine.ts:218-249 | The four tier counts sum to the number of competitors not soft-deleted |
| Metrics.CountActiveIsCardinality | backend/src/services/calculationEngine.ts:227-229 | The active count is the number of list positions holding a competitor that is not soft-deleted |
| Metrics.SyncThenScore | backend/src/services/calculationEngine.ts:152-209 | Syncing flags then scoring is the one-step re-score; syncing changes neither the active ASINs nor their number |
| Metrics.ActiveAsinsSnoc | backend/src/services/calculationEngine.ts:180-184 | The set of active ASINs grows by the last competitor exactly when it is not soft-deleted |
| Metrics.UpdatedMetricsSnoc | backend/src/services/calculationEngine.ts:203-208 | One more competitor in the loop: an active one sets its `competitorMetrics` entry, a deleted one changes nothing |
| Metrics.SyncKeepsVolume | backend/src/services/calculationEngine.ts:152-177 | Resyncing flags changes neither which keywords are active nor their volumes |
| Metrics.RecalculatedFlags | backend/src/services/calculationEngine.ts:152-162 | After a recalculation every keyword, competitor and product flag equals membership of its phrase or ASIN in its soft-delete set |
| Metrics.RecalculatedMarket | backend/src/services/calculationEngine.ts:165-177 | totalMarketSV is the SV of the keywords not soft-deleted (everything minus the deleted ones); brandSV the same over brand keywords |
| Metrics.RecalculatedCompetitor | backend/src/services/calculationEngine.ts:180-209 | An active competitor gets 100*top30SV/totalMarketSV (0 for an empty market), in [0,100] when no search volume is negative, its tier and a mirroring metrics entry, every other field kept; a soft-deleted one keeps its strength fields |
| Metrics.RecalculatedKeepsStaleMetrics | backend/src/services/calculationEngine.ts:203-208 | Metrics entries of ASINs that are not active competitors are kept unchanged |
| Metrics.RecalculatedSummary | backend/src/services/calculationEngine.ts:211-249 | Each histogram count is the number of active competitors with that new tier, and the counts sum to their number |
| Metrics.RecalculatedProduct | backend/src/services/calculationEngine.ts:251-273 | Every product, deleted or not, gets the active phrases ranking it in 1..30 (or negative) as a subsequence of the keywords' phrases, their count and a competitor-like strength; its ASIN and other fields are kept and it is flagged deleted iff its ASIN is |
| Metrics.MatchingInKeywordOrder | backend/src/services/calculationEngine.ts:255-262 | The matching phrases of a product appear in the order of the keyword list (a subsequence of its phrases) |
| Metrics.MatchingPhrase | backend/src/services/calculationEngine.ts:255-262 | A phrase is among a product's matching phrases iff an active keyword with it ranks the product in the top 30 |
| Metrics.RecalculateIdempotent | backend/src/services/calculationEngine.ts:150-216 | Recalculating twice gives the same data and calculations as recalculating once |
| RootIndex.RootsAreWords | backend/src/services/calculationEngine.ts:295-302 | Every extracted root is longer than two characters, is not a stop word and has no white space |
| RootIndex.KeepRootsMembers | backend/src/services/calculationEngine.ts:300-301 | A word is kept iff it is longer than two characters and not a stop word |
| RootIndex.ExtractRedDogLeash | backend/src/services/calculationEngine.ts:295-302 | "red dog leash" yields the roots red, dog, leash |
| RootIndex.ExtractRedCatLeash | backend/src/services/calculationEngine.ts:295-302 | "red cat leash" yields the roots red, cat, leash |
| RootIndex.AddKeywordContents | backend/src/services/calculationEngine.ts:320-344 | Adding a keyword's roots adds exactly those roots (in first-seen order) and lists its phrase once under each |
| RootIndex.TableWellFormed | backend/src/services/calculationEngine.ts:309-345 | The root map's insertion order lists each key once and exactly its keys; each entry's related phrases are distinct and its brand and non-brand counts add up to its occurrences |
| RootIndex.TableKeys | backend/src/services/calculationEngine.ts:317-345 | A root has an entry iff it is a root of some active phrase |
| RootIndex.TableRelated | backend/src/services/calculationEngine.ts:341-343 | An entry's related phrases are exactly the active phrases containing its root, without duplicates |
| RootIndex.FinishFacts | backend/src/services/calculationEngine.ts:350-367 | A record copies its root, totalSV, brand and non-brand counts and related phrases from the entry; totalCount = brandCount + nonBrandCount, brandPercentage in [0,100], not marked deleted |
| RootIndex.SortBySV | backend/src/services/calculationEngine.ts:371 | The sort is a permutation whose totals are non-increasing, and stable: for every total, the records with that total keep their order |
| RootIndex.InsertStable | backend/src/services/calculationEngine.ts:371 | Inserting a record after the records of greater or equal total appends it to those of its own total and leaves the others' order alone |
| RootIndex.InsertSorted | backend/src/services/calculationEngine.ts:371 | Inserting into a sorted list keeps it sorted |
| RootIndex.RootKeywordsDistinct | backend/src/services/calculationEngine.ts:304-372 | No two records of the index share a root word |
| RootIndex.RootKeywordsSound | backend/src/services/calculationEngine.ts:304-372 | Every record is for a root of an active phrase |
| RootIndex.RootKeywordsComplete | backend/src/services/calculationEngine.ts:304-372 | Every root of an active phrase has a record |
| RootIndex.RootKeywordsRoots | backend/src/services/calculationEngine.ts:304-372 | The index holds one record per root of an active phrase and no other, and no two records share a word |
| RootIndex.RootKeywordsRecords | backend/src/services/calculationEngine.ts:341-367 | Every record has totalCount = brandCount + nonBrandCount, brandPercentage in [0,100], is unmarked and lists exactly the active phrases containing its root, without duplicates |
| RootIndex.TableSums | backend/src/services/calculationEngine.ts:317-344 | An entry's totalSV, brand and non-brand counts and relevance sum are the sums over the active keywords of search volume, brand/non-brand flag and relevance, each counted once per occurrence of the root among the phrase's roots |
| RootIndex.RootCounted | backend/src/services/calculationEngine.ts:317-344 | A root of some active phrase occurs at least once in total |
| RootIndex.EntryAggregates | backend/src/services/calculationEngine.ts:347-368 | The record finished from an entry has those sums as totalSV, brandCount and nonBrandCount, totalCount at least 1, averageRelevance the rounded relevance sum over totalCount and brandPercentage the rounded brand share |
| RootIndex.RootKeywordsAggregates | backend/src/services/calculationEngine.ts:304-372 | Every record of the index holds those occurrence-weighted sums, counts, average relevance and brand percentage for its root |
| RootIndex.RepeatedRootExample | backend/src/services/calculationEngine.ts:317-344 | For the single keyword "dog dog bed" the root dog counts twice: twice the search volume, two occurrences, and the phrase listed once |
| Numbers.RoundPercentBounds | backend/src/services/calculationEngine.ts:355 | A rounded percentage of a part between 0 and the whole lies in [0,100] |
| Cascade.CompetitorSets | backend/src/services/calculationEngine.ts:84-108 | Deleting or restoring competitors adds or removes exactly the listed ASINs in deletedCompetitors and leaves the other sets alone |
| Cascade.ProductSets | backend/src/services/calculationEngine.ts:110-148 | Deleting or restoring products adds or removes the listed ASINs in both deletedProducts and deletedCompetitors; keyword and root sets unchanged |
| Cascade.RootSets | backend/src/services/calculationEngine.ts:28-29 | Deleting roots adds the words as given; restoring removes them |
| Cascade.CompetitorFlags | backend/src/services/calculationEngine.ts:90-93 | Only the first competitor with a listed ASIN gets its flag changed; later duplicates keep theirs |
| Cascade.ProductFlags | backend/src/services/calculationEngine.ts:116-119 | Only the first product with a listed ASIN gets its flag changed |
| Cascade.DeleteRootStepIs | backend/src/services/calculationEngine.ts:29-38 | One root deletion adds the root to the root set, and adds and flags every phrase containing its lower-case form |
| Cascade.RestoreRootStepIs | backend/src/services/calculationEngine.ts:55-72 | One root restore removes the root and un-deletes and unflags the phrases that contain it and no other deleted root |
| Cascade.DeleteRootsCover | backend/src/services/calculationEngine.ts:26-39 | After deleting roots every keyword whose roots include the lower-case form of one of them is soft-deleted and flagged |
| Cascade.DeleteRootsOnlyHits | backend/src/services/calculationEngine.ts:26-39 | A phrase newly soft-deleted by a root deletion contains one of the listed roots in lower case |
| Cascade.DeleteRootsActiveMiss | backend/src/services/calculationEngine.ts:26-39 | No keyword left active contains one of the deleted roots |
| Cascade.DeleteRootsDropRecords | backend/src/services/calculationEngine.ts:41-49 | The rebuilt index has no record for the lower-case form of any deleted root |
| Cascade.MarkRootsWords | backend/src/services/calculationEngine.ts:45-49 | Marking keeps the records' root words and flags exactly the records whose word is in the deleted-root set |
| Cascade.RestoreRootRule | backend/src/services/calculationEngine.ts:58-72 | For one root r a keyword is soft-deleted afterwards iff it was before and it lacks r or has another root still deleted |
| Cascade.RestoreExample | backend/src/services/calculationEngine.ts:52-73 | With "red dog leash" and "red cat leash" deleted through "dog" and "red", restoring "red" brings back only "red cat leash" |
| Initial.OrElse | backend/src/services/calculationEngine.ts:386-387 | JavaScript's `or` on strings: the first unless it is empty |
| Initial.NewCompetitor | backend/src/services/calculationEngine.ts:382-400 | Keeps the ASIN; the brand falls back from business row to product row to "Unknown"; at least one variation; flag clear; strength 0 and "Debole" until scored |
| Initial.TableKeysAreBusinessAsins | backend/src/services/calculationEngine.ts:380-402 | The competitor map has an entry for exactly the non-empty business ASINs |
| Initial.TableEntryFromLastRow | backend/src/services/calculationEngine.ts:380-402 | Every entry is built from the last business row with its ASIN (a later `set` replaces an earlier one) |
| Initial.InitialCompetitorsDistinct | backend/src/services/calculationEngine.ts:461 | No two initial competitors share an ASIN and none has an empty one |
| Initial.InitialCompetitorsFromRows | backend/src/services/calculationEngine.ts:380-402 | One initial competitor per distinct non-empty business ASIN, built from the last row with it |
| Initial.InitialRelevanceBounds | backend/src/services/calculationEngine.ts:405-412 | Every initial relevance is a whole number in [0,100], 0 for brand keywords, and `calculateRelevance` leaves it unchanged |
| Initial.InitialRelevanceExtremes | backend/src/services/calculationEngine.ts:407-411 | For a non-brand keyword with rankings: 100 when every ranking is in 1..30, 0 when none is |
| Initial.ProcessProductDefaults | backend/src/services/calculationEngine.ts:440-458 | A processed product always has a brand ("Unknown" by default) and a title ("Product <asin>" by default) |
| Initial.InitialMetrics | backend/src/services/calculationEngine.ts:461-481 | Right after processing nothing is soft-deleted, the market total is all keywords' SV, no root record is marked and every competitor is active with a metrics entry |
| Engine.Session.constructor | backend/src/services/dataProcessor.ts:36-60 | A new session holds the uploaded rows, empty processed data and zero calculations |
| Engine.FilterActive | backend/src/services/calculationEngine.ts:165-167 | Computes the active keywords |
| Engine.FilterBrand | backend/src/services/calculationEngine.ts:175-176 | Computes the brand keywords |
| Engine.FilterTop30 | backend/src/services/calculationEngine.ts:185-188 | Computes the keywords ranking an ASIN in the top 30 |
| Engine.SumVolumes | backend/src/services/calculationEngine.ts:170-173 | Computes the SV sum |
| Engine.AddRoots | backend/src/services/calculationEngine.ts:320-344 | Adds one keyword's roots to the root map as the specification table does |
| Engine.BuildRootTable | backend/src/services/calculationEngine.ts:309-345 | Builds the root map (insertion order and entries) of the active keywords |
| Engine.FinishRecords | backend/src/services/calculationEngine.ts:348-368 | One finished record per entry, in insertion order |
| Engine.CalculateRootKeywords | backend/src/services/calculationEngine.ts:304-372 | Returns the sorted root index of the session's active keywords: one record per root, with the occurrence-weighted sums of RootIndex.RootKeywordsAggregates, sorted stably by total search volume |
| Engine.ContainsRoot | backend/src/services/calculationEngine.ts:33-34 | True iff the phrase's roots include the lower-case root word |
| Engine.RestoresPhrase | backend/src/services/calculationEngine.ts:59-67 | True iff the phrase has the root and none of its other roots is in the deleted-root set |
| Engine.DeleteOneRoot | backend/src/services/calculationEngine.ts:28-39 | One outer iteration of the root deletion, on the session in place; nothing else changes |
| Engine.DeleteHits | backend/src/services/calculationEngine.ts:32-38 | Deletes and flags exactly the keywords whose phrase contains the root |
| Engine.RestoreOneRoot | backend/src/services/calculationEngine.ts:54-73 | One outer iteration of the root restore, on the session in place |
| Engine.RestoreHits | backend/src/services/calculationEngine.ts:58-72 | Un-deletes and unflags exactly the restorable keywords |
| Engine.ReindexRoots | backend/src/services/calculationEngine.ts:75-81 | Rebuilds the root index and marks the records whose word is soft-deleted |
| Engine.MarkRecords | backend/src/services/calculationEngine.ts:79-81 | Each record's flag becomes membership of its word in the deleted-root set |
| Engine.DeleteRootKeywords | backend/src/services/calculationEngine.ts:26-50 | The session's processed data becomes the root-deletion cascade of the old data; calculations and uploaded rows unchanged |
| Engine.RestoreRootKeywords | backend/src/services/calculationEngine.ts:52-82 | The processed data becomes the root-restore cascade of the old data |
| Engine.FindCompetitor | backend/src/services/calculationEngine.ts:90 | The position of the first competitor with the ASIN, or -1 |
| Engine.FindProduct | backend/src/services/calculationEngine.ts:116 | The position of the first product with the ASIN, or -1 |
| Engine.MarkCompetitor | backend/src/services/calculationEngine.ts:86-93 | Adds or removes the ASIN and sets the first matching competitor's flag |
| Engine.MarkProduct | backend/src/services/calculationEngine.ts:113-119 | Adds or removes the ASIN in deletedProducts and sets the first matching product's flag |
| Engine.DeleteCompetitors | backend/src/services/calculationEngine.ts:84-95 | The competitor soft-delete applied to every listed ASIN in order |
| Engine.RestoreCompetitors | backend/src/services/calculationEngine.ts:97-108 | The competitor restore applied to every listed ASIN in order |
| Engine.DeleteProducts | backend/src/services/calculationEngine.ts:110-128 | The product cascade (product and competitor) applied to every listed ASIN in order |
| Engine.RestoreProducts | backend/src/services/calculationEngine.ts:130-148 | The product restore cascade applied to every listed ASIN in order |
| Engine.SyncFlags | backend/src/services/calculationEngine.ts:152-162 | Every flag is set from its soft-delete set; nothing else changes |
| Engine.StrengthPercent | backend/src/services/calculationEngine.ts:195-197 | 100*part/total, or 0 for an empty market |
| Engine.ScoreActiveCompetitors | backend/src/services/calculationEngine.ts:180-209 | Scores the active competitors and sets their metrics entries, in place |
| Engine.UpdateStrengthSummary | backend/src/services/calculationEngine.ts:218-249 | The histogram becomes the tier counts of the active competitors |
| Engine.ScoreOneProduct | backend/src/services/calculationEngine.ts:253-272 | One product's matching phrases, count, strength and tier |
| Engine.RecalculateProductMetrics | backend/src/services/calculationEngine.ts:251-273 | Every product is scored against the active keywords |
| Engine.RecalculateMetrics | backend/src/services/calculationEngine.ts:150-216 | The session's data and calculations become the recalculated ones; the uploaded rows are unchanged |
| Engine.FindProductRow | backend/src/services/calculationEngine.ts:382 | The first product row with the ASIN, or -1 |
| Engine.BuildCompetitorTable | backend/src/services/calculationEngine.ts:378-402 | Builds the competitor map of the business rows |
| Engine.BuildCompetitors | backend/src/services/calculationEngine.ts:461 | The map's values in insertion order |
| Engine.ProcessInitialData | backend/src/services/calculationEngine.ts:374-482 | The session becomes the recalculation of the initial data built from its uploaded rows, from empty sets and zero calculations |
| DataProcessor.Store.constructor | backend/src/services/dataProcessor.ts:9 | The store holds the given sessions |
| DataProcessor.Store.UpdateKeywords | backend/src/services/dataProcessor.ts:100-138 | Unknown id: fails with "Session not found", nothing changes; else the deleted phrases are added, the restored ones removed, then a full recalculation |
| DataProcessor.Store.UpdateRootKeywords | backend/src/services/dataProcessor.ts:140-170 | Unknown id fails; else root deletion (skipped for an empty list), then root restore (likewise), then recalculation |
| DataProcessor.Store.UpdateCompetitors | backend/src/services/dataProcessor.ts:172-202 | Unknown id fails; else competitor deletion, then restore, then recalculation |
| DataProcessor.Store.UpdateProducts | backend/src/services/dataProcessor.ts:204-231 | Unknown id fails; else the product cascades, deletions first, and the calculations are left unchanged |
| DataProcessor.Store.GetAnalysisData | backend/src/services/dataProcessor.ts:287-353 | Unknown id gives nothing; else the summary and the session's own lists |
| DataProcessor.FilterActiveCompetitors | backend/src/services/dataProcessor.ts:297-299 | Computes the competitors not soft-deleted |
| DataProcessor.SumRevenue | backend/src/services/dataProcessor.ts:302-335 | Computes the sum of the normalised revenue amounts of the given competitors |
| DataProcessor.UpdatedKeywordFlag | backend/src/services/dataProcessor.ts:114-128 | After `updateKeywords` a keyword is flagged iff its phrase is restored by neither list and was deleted or is named for deletion: restoration wins |
| DataProcessor.KeywordsRoundTrip | backend/src/services/dataProcessor.ts:114-123 | Restoring exactly the phrases just deleted gives the set back when none was deleted before |
| DataProcessor.RootsUpdatedSets | backend/src/services/dataProcessor.ts:150-157 | The deleted words join the deleted-root set, the restored ones leave it; competitors and products untouched; empty lists change nothing |
| DataProcessor.CompetitorsUpdatedSets | backend/src/services/dataProcessor.ts:182-189 | Only deletedCompetitors changes, and only by the listed ASINs; keywords and products untouched |
| DataProcessor.ProductsUpdatedSets | backend/src/services/dataProcessor.ts:213-221 | The ASINs join or leave both deletedProducts and deletedCompetitors; keywords and roots untouched |
| DataProcessor.SummaryCounts | backend/src/services/dataProcessor.ts:293-346 | totalKeywords plus the soft-deleted keywords of the list is the list length; uniqueBrands counts exactly the brands of the active competitors and is at most their number; deletedKeywords is the set's size |
| DataProcessor.StaleDeletedCount | backend/src/services/dataProcessor.ts:344 | The deleted-keyword count is the size of the set, which can exceed the number of soft-deleted keywords in the list |
| Revenue.GroupedDecimal | backend/src/services/dataProcessor.ts:312-320 | A European "1.234,56" and an American "1,234.56" with the same digits are rewritten to the same "1234.56" |
| Revenue.GroupedDecimalValue | backend/src/services/dataProcessor.ts:312-333 | Both readings give the value of the digit groups plus the decimals |
| Revenue.SingleComma | backend/src/services/dataProcessor.ts:321-326 | A single comma followed by at most two characters is the decimal point |
| Revenue.CommaThousands | backend/src/services/dataProcessor.ts:321-330 | Three or more comma groups, or two with a last of three or more characters, are thousands groups and the commas vanish |
| Revenue.DotsKept | backend/src/services/dataProcessor.ts:312-331 | Text without a comma is left as it is after stripping |
| Revenue.NormalizeMembers | backend/src/services/dataProcessor.ts:309-331 | The rewritten text holds only characters of the stripped text, and a dot in place of a comma |
| Revenue.NoSymbolsLeft | backend/src/services/dataProcessor.ts:309 | No currency symbol or white space is left |
| Revenue.SymbolPrefixIgnored | backend/src/services/dataProcessor.ts:309 | Currency symbols and white space before the amount make no difference |
| Revenue.TotalRevenueAppend | backend/src/services/dataProcessor.ts:302-335 | The total is the sum over the competitors, and appending one adds its amount; no revenue text adds 0 |
| Revenue.SymbolExample | backend/src/services/dataProcessor.ts:305-320 | A currency symbol, "1", a group separator, "234", the other separator and "56" become "1234.56" |
| Revenue.EuroExample | backend/src/services/dataProcessor.ts:305-320 | "€1.234,56" becomes "1234.56" |
| Revenue.DollarExample | backend/src/services/dataProcessor.ts:305-320 | "$1,234.56" becomes "1234.56" |
| Revenue.ExampleValue | backend/src/services/dataProcessor.ts:302-335 | A competitor with "€1.234,56" adds 1234.56, one without revenue nothing |
| CsvParser.EuropeanBlank | backend/src/services/csvParser.ts:73-78 | Text that trims to nothing reads as 0 |
| CsvParser.EuropeanSpacesIgnored | backend/src/services/csvParser.ts:78 | Surrounding white space makes no difference |
| CsvParser.EuropeanComma | backend/src/services/csvParser.ts:80-85 | With a comma: dots before it dropped, the digits after it the fraction, anything from a second comma ignored |
| CsvParser.EuropeanThousands | backend/src/services/csvParser.ts:89-95 | Without a comma, a dot followed by three or more digits, or several dots, separate thousands |
| CsvParser.EuropeanDecimal | backend/src/services/csvParser.ts:96-98 | Without a comma, one dot followed by at most two digits is a decimal point |
| CsvParser.EuropeanDigits | backend/src/services/csvParser.ts:96-98 | A run of digits reads as the whole number it spells |
| CsvParser.EuropeanExamples | backend/src/services/csvParser.ts:76-97 | "24.779,36" is 24779.36, "1,234" is 1.234, "1.487" is 1487, "1.234.567" is 1234567, "1.5" is 1.5 |
| CsvParser.Rankings | backend/src/services/csvParser.ts:13-20 | Fills the rankings with exactly the "B0" columns whose cell reads as an integer |
| CsvParser.RankingsDomain | backend/src/services/csvParser.ts:16-19 | A column is ranked iff its header starts with "B0" and its cell reads as an integer (so it is non-empty) |
| CsvParser.RankingsKeepZeroAndNegative | backend/src/services/csvParser.ts:17-18 | A ranking of 0 or a negative one is kept |
| CsvParser.BrandWordMeansBrand | backend/src/services/csvParser.ts:51-54 | A non-blank brand word makes the row a brand row and is stored trimmed; without one, a row is a brand row iff "Is_Brand" is "true" in any case or "1" |
| CsvParser.BrandFlagAnyCase | backend/src/services/csvParser.ts:51 | "TRUE", "True" and "true" all mark a brand row |
| CsvParser.VariationPieces | backend/src/services/csvParser.ts:168-171 | One variation per comma plus one, each trimmed and without a comma; none for an empty cell |
| CsvParser.VariationsRoundTrip | backend/src/services/csvParser.ts:168-171 | Trimmed, comma-free ASINs survive being joined with commas and read back |
| CsvParser.ParsedAppend | backend/src/services/csvParser.ts:12-57 | Rows keep their order: parsing a concatenation parses each part in turn |
| CsvParser.ParsedMembers | backend/src/services/csvParser.ts:12-57 | The result holds exactly the converted rows that pass the filter |
| CsvParser.KeywordRowKept | backend/src/services/csvParser.ts:47-57 | A record yields a keyword row iff it has a phrase and a positive search volume |
| CsvParser.BusinessRowKept | backend/src/services/csvParser.ts:128-141 | A record yields a business row iff its "ASIN" cell is non-empty |
| CsvParser.ProductRowKept | backend/src/services/csvParser.ts:173-187 | A record yields a product row iff its "ASIN" cell is non-empty |
| ServerDataProcessor.ParseCsvLine | frontend/src/lib/serverDataProcessor.ts:181-201 | The loop computes the field list of the specification scan |
| ServerDataProcessor.ScanQuotes | frontend/src/lib/serverDataProcessor.ts:189-190 | The splitter is inside quotes iff it has read an odd number of quote characters |
| ServerDataProcessor.FieldCount | frontend/src/lib/serverDataProcessor.ts:181-201 | A line has one field more than commas outside quotes |
| ServerDataProcessor.ScanFields | frontend/src/lib/serverDataProcessor.ts:189-199 | No field holds a quote character and every field is trimmed |
| ServerDataProcessor.PlainLine | frontend/src/lib/serverDataProcessor.ts:181-201 | A quote-free line splits like `split(',')` with every piece trimmed |
| ServerDataProcessor.QuotedField | frontend/src/lib/serverDataProcessor.ts:189-196 | A quoted middle field keeps its commas: a,"q",d has the three trimmed fields |
| ServerDataProcessor.HeaderNames | frontend/src/lib/serverDataProcessor.ts:95 | One header per comma plus one |
| ServerDataProcessor.CellRanking | frontend/src/lib/serverDataProcessor.ts:112-119 | A ranking is contributed only under a "B0" header, and only a positive one |
| ServerDataProcessor.RowRankings | frontend/src/lib/serverDataProcessor.ts:112-119 | The loop computes the specification's rankings, header by header |
| ServerDataProcessor.RankingsPositive | frontend/src/lib/serverDataProcessor.ts:112-119 | Every ranking is positive, sits under a "B0" header and is the value read there |
| ServerDataProcessor.RankingKept | frontend/src/lib/serverDataProcessor.ts:112-119 | A "B0" header with a positive integer value, not repeated later, gets that ranking |
| ServerDataProcessor.BrandFlagOnly | frontend/src/lib/serverDataProcessor.ts:106-107 | Only the fourth value, "true" in any case or "1", makes a brand row; the brand word does not |
| ServerDataProcessor.RowsOfAppend | frontend/src/lib/serverDataProcessor.ts:98-122 | A line gives a row iff it has enough values; rows keep the order of the lines |
| ServerDataProcessor.RowsOfAllShort | frontend/src/lib/serverDataProcessor.ts:100 | A line with fewer values than headers is skipped |
| ServerDataProcessor.ParseKeywordAnalysis | frontend/src/lib/serverDataProcessor.ts:91-125 | The loop computes the keyword rows of the file, or the error |
| ServerDataProcessor.ParseBusinessData | frontend/src/lib/serverDataProcessor.ts:127-156 | The loop computes the business rows of the file, or the error |
| ServerDataProcessor.ParseProductData | frontend/src/lib/serverDataProcessor.ts:158-179 | The loop computes the product rows (at least two values each), or the error |
| ServerDataProcessor.TooFewLines | frontend/src/lib/serverDataProcessor.ts:92-93 | Each parser fails with its own message iff the file has fewer than two non-blank lines |
| ServerDataProcessor.BlankLinesDropped | frontend/src/lib/serverDataProcessor.ts:92 | A file of white space alone has no line |
| ServerDataProcessor.ClientLevel | frontend/src/lib/serverDataProcessor.ts:262-265 | "Molto Forte" iff p >= 40, "Forte" iff 25 <= p < 40, "Medio" iff 10 <= p < 25, "Debole" iff p < 10 |
| ServerDataProcessor.ScoreCompetitors | frontend/src/lib/serverDataProcessor.ts:252-266 | The loop scores every competitor as the specification does |
| ServerDataProcessor.ScoredCompetitor | frontend/src/lib/serverDataProcessor.ts:252-266 | Scoring keeps each competitor's identity and sets its tier from its percentage, which lies in [0,100] for non-negative volumes |
| ServerDataProcessor.RankedAsinsMembers | frontend/src/lib/serverDataProcessor.ts:220-223 | An ASIN is collected iff some keyword row ranks it |
| ServerDataProcessor.CollectAsins | frontend/src/lib/serverDataProcessor.ts:220-223 | The loop collects exactly the ranked ASINs |
| ServerDataProcessor.AsinList | frontend/src/lib/serverDataProcessor.ts:226 | Lists every collected ASIN exactly once |
| ServerDataProcessor.FindFirst | frontend/src/lib/serverDataProcessor.ts:227-228 | `find` gives the first row with the ASIN, and nothing only when no row has it |
| ServerDataProcessor.NewCompetitorDefaults | frontend/src/lib/serverDataProcessor.ts:230-248 | The brand falls back from business row to product row to "Unknown"; without a business row the business fields are empty |
| ServerDataProcessor.CombineData | frontend/src/lib/serverDataProcessor.ts:203-318 | Builds the analysis from an enumeration of the ranked ASINs |
| ServerDataProcessor.CombinedCompetitors | frontend/src/lib/serverDataProcessor.ts:219-249 | Exactly one competitor per distinct ASIN ranked by some keyword row |
| ServerDataProcessor.CombinedStrengthSummary | frontend/src/lib/serverDataProcessor.ts:311-316 | The tier counts add up to the number of competitors |
| ServerDataProcessor.CombinedMarket | frontend/src/lib/serverDataProcessor.ts:289-305 | A fresh analysis deletes nothing: all keywords count towards the market SV and the keyword total |
| ServerDataProcessor.CombinedCompetitor | frontend/src/lib/serverDataProcessor.ts:252-260 | Every competitor is scored against all keywords; its strength lies in [0,100] for non-negative volumes |
| ServerDataProcessor.ProductDefaults | frontend/src/lib/serverDataProcessor.ts:269-287 | A product is titled "<brand> Product" and lists its one variation ASIN, if any |
| ServerDataProcessor.RecalculateMetrics | frontend/src/lib/serverDataProcessor.ts:320-350 | Computes the recalculated analysis |
| ServerDataProcessor.UnflaggedMembers | frontend/src/lib/serverDataProcessor.ts:321 | The active keywords are exactly those whose flag is clear, in order |
| ServerDataProcessor.FlagConservation | frontend/src/lib/serverDataProcessor.ts:321-346 | Flagged and unflagged keywords split the list and its SV |
| ServerDataProcessor.RecalculatedMarket | frontend/src/lib/serverDataProcessor.ts:320-347 | totalKeywords + deletedKeywords is the list length, the market SV is the SV of the unflagged keywords, 0 <= brandSV <= market SV for non-negative volumes, and the keyword, product and root lists and the tier histogram are unchanged |
| ServerDataProcessor.RecalculatedCompetitor | frontend/src/lib/serverDataProcessor.ts:325-337 | Every competitor is rescored against the unflagged keywords only, with a strength in [0,100] for non-negative volumes |
| ServerDataProcessor.RecalculateIdempotent | frontend/src/lib/serverDataProcessor.ts:320-350 | Recalculating twice gives what recalculating once gives |
| ServerDataProcessor.RecalculateAfterCombine | frontend/src/lib/serverDataProcessor.ts:289-350 | Recalculating a fresh analysis changes only its revenue total, which it then takes from the competitors instead of all business rows |
| ServerDataProcessor.ReflagRules | frontend/src/lib/serverDataProcessor.ts:75-82 | Only the flags change: listed deletions are flagged, listed restorations cleared, and restoration wins for a phrase in both |
| ServerDataProcessor.SessionStore.constructor | frontend/src/lib/serverDataProcessor.ts:36 | The store starts empty |
| ServerDataProcessor.SessionStore.GetAnalysisData | frontend/src/lib/serverDataProcessor.ts:66-68 | The stored analysis, or nothing for an unknown id |
| ServerDataProcessor.SessionStore.UpdateKeywords | frontend/src/lib/serverDataProcessor.ts:70-89 | Unknown id: nothing, store unchanged; else the reflagged and recalculated analysis, stored under the same id |
| ServerDataProcessor.EmptyUpdate | frontend/src/lib/serverDataProcessor.ts:70-89 | An update with empty lists only recalculates |
| AnalysisReducer.ErrorRules | frontend/src/hooks/useAnalysis.tsx:76-119 | Starts, successes, clear and reset clear the error, failures record their message, progress keeps it |
| AnalysisReducer.BusyFlags | frontend/src/hooks/useAnalysis.tsx:78-107 | Each busy flag is raised by its start, lowered by its success or failure or a reset, and otherwise kept |
| AnalysisReducer.DataAndId | frontend/src/hooks/useAnalysis.tsx:82-115 | Data is replaced only by load/update success and dropped by reset; the id is set only by upload success and dropped by reset |
| AnalysisReducer.ProgressRules | frontend/src/hooks/useAnalysis.tsx:78-95 | Upload start and failure set 0, success 100, progress its payload; other actions keep it |
| AnalysisReducer.ProgressStaysInRange | frontend/src/hooks/useAnalysis.tsx:78-95 | The progress stays in [0,100] as long as every reported progress does |
| AnalysisReducer.ReduceAllAppend | frontend/src/hooks/useAnalysis.tsx:76-119 | Dispatching two runs of actions is dispatching one after the other |
| AnalysisReducer.ResetForgets | frontend/src/hooks/useAnalysis.tsx:110-115 | After a reset the state depends only on the later actions |
| AnalysisReducer.ReduceIdempotent | frontend/src/hooks/useAnalysis.tsx:76-119 | Dispatching any action twice in a row equals dispatching it once |
| AnalysisReducer.ErrorThenClear | frontend/src/hooks/useAnalysis.tsx:94-109 | A failure followed by a clear leaves the failure's flags with no error |
| Text.TrimIsTrimmed | backend/src/services/csvParser.ts:78 | `trim` leaves no white space at either end and keeps only characters of its argument |
| Text.SplitJoin | backend/src/services/csvParser.ts:170 | Splitting joined pieces that do not hold the separator gives them back |
| Text.SplitWsJoin | backend/src/services/calculationEngine.ts:299 | Splitting words joined by single spaces on white space gives the words back |
| Numbers.ParseFloatDecimal | backend/src/services/csvParser.ts:85 | "digits.digits" reads as its exact value with `parseFloat` |
| Numbers.ParseIntDigits | backend/src/services/csvParser.ts:92 | A run of digits reads as its value with `parseInt` |

## Left out

- The clock: `calculateListingAge` and the listing age computed in `combineData` depend on the current date; the model takes the age as a parameter `listingAge`.
- File and process I/O: `processFiles` in both engines (reading and deleting uploaded files, `uuid` ids), `saveSession`, `loadSession` and `getSession`'s reload from disk, and every `console.log`. The store holds only the sessions already in memory.
- The CSV library's own parsing (quoting, header detection, `skipEmptyLines`) in the backend parser: its per-row rules work on records already split into named cells.
- `creationDate: new Date(...)`: dates are kept as their text.
- Floating point: percentages and parsed numbers are exact rationals, and `NaN` and `Infinity` never arise. Where the code writes `parseFloat(...) || 0`, an amount that would read as `NaN` reads as 0, as in the code.
- `ServerDataProcessor.RevenueAmount`, `ServerDataProcessor.BusinessRevenue` and `ServerDataProcessor.CompetitorRevenue`: the front end's two revenue totals (`combineData` and `recalculateMetrics`) apply `parseFloat` without `|| 0` and strip only "€" and ",". In the code, one revenue that `parseFloat` cannot read ("$1,234", "N/A") makes `totalRevenue` `NaN` for the whole analysis. The model instead adds 0 for that row.
- String length: JavaScript's `.length` counts UTF-16 code units, while the model counts characters. A character outside the Basic Multilingual Plane, such as an emoji, counts 2 in the code and 1 in the model. Three modelled tests depend on length:
  - `word.length > 2` in `extractRootWords`, modelled by `RootIndex.IsRoot`; the word "a😀" is a root in the code and not in the model;
  - `parts[1].length <= 2` in the revenue rewrite, modelled by `Revenue.CommasOnly`;
  - `parts[1].length > 2` in `parseEuropeanNumber`, modelled by `CsvParser.EuropeanWithoutComma`.
- `toLowerCase` covers ASCII and Latin-1 letters only.
- The insertion order of a JavaScript `Set`: `ServerDataProcessor.AsinList` returns the ranked ASINs in some order without repetition, and the lemmas about `combineData` hold for every such order.
- Aliasing of session objects: updates replace record values field by field rather than mutate shared objects, so two lists sharing one keyword object are not modelled.
- The reducer's writes to the browser's local storage, and the initial analysis id read from it (the initial state has none).
- The front end's competitor record: it carries the rating twice (`ratings` and `rating`) and the `creationDate` itself; the model keeps one `rating` and the listing age.
