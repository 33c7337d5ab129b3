# Maritime logistics dashboard: route scorer, HS-code lookup, tracking filter, scraper helpers

This project models, in Dafny, the four parts of the freight-tracing application
that hold real logic:

- **Route scorer and search history** (`maritime-logistics-dashboard/main.js`). The
  fixed `TRANSIT_DATA` table of sea and land legs. `calculateRoute` turns two legs
  into a plan whose total is sea + land + penalty. The ranking step of `updateResults`
  does four things:
  - it picks via-ports per origin;
  - it adds a 12-day penalty for Mumbai unless the mode is `Safest`;
  - in `Premium` mode it shortens the land leg, but never below one day;
  - it drops missing routes and sorts by total, keeping the input order on ties.

  The history keeps the latest entries first, capped at ten. The clear button empties it.
- **HS-code search and product list** (`maritime-logistics-dashboard/src/hsCodeLookup.js`).
  `searchHSCode` scores each item from substring tests, keeps positive scores,
  sorts them stably in descending order and keeps the first five. The user's
  product list supports add (newest first, capped at 50), delete by id, and export
  as CSV.
- **Live-tracking type filter** (`maritime-logistics-dashboard/src/liveTrackingFilter.js`).
  A set of active transport types that buttons toggle, and the fleet fixture
  filtered by that set in order.
- **Tariff-code helpers of the CBSA scraper** (`scripts/cbsa-scraper.py`).
  `_clean_hs_code` re-dots the digits of a code. `_extract_chapter` reads the
  chapter number. The de-duplication in `save_to_json` keeps the last entry per code.

Modules:

| file | module | contents |
|---|---|---|
| `numbers.dfy` | `Numbers` | `Min` and `Max`, shared by the other modules |
| `text.dfy` | `Text` | `toLowerCase`, `includes`, `split`/`join` on one character |
| `stable_sort.dfy` | `StableSort` | the stable numeric-comparator sort both rankings use |
| `route_scorer.dfy` | `RouteScorer` | transit table, route calculation, ranking, class `RouteHistory` |
| `hs_code_lookup.dfy` | `HsCodeLookup` | HS database, scoring, top-5 search, product list, CSV, class `HsLookup` |
| `tracking_filter.dfy` | `TrackingFilter` | fleet fixture, class `LiveTrackingFilter` |
| `hs_code_format.dfy` | `HsCodeFormat` | code cleaning, chapter extraction, de-duplication and saved metadata |

State that the source mutates is modelled by classes:
- `RouteHistory.entries` stands for the module-level `history` array.
- `HsLookup.userProducts` stands for `this.userProducts`.
- `LiveTrackingFilter.activeFilters` stands for the `Set`.

Their methods are proved against specification functions (`Saved`, `RankedRoutes`,
`WithAdded`, `WithoutId`, `Toggled`, `TopMatches`). The lemmas state what
the source promises about those functions.

The sort that `Array.prototype.sort` performs is stable. It is modelled by
`StableSort.SortBy`, an insertion sort. Its stability is stated as "for every key, the
subsequence of elements with that key is unchanged". The search sorts descending by
score, which is modelled as an ascending sort on the negated score.

## Model

| member | source | states |
|---|---|---|
| Text.Lower | maritime-logistics-dashboard/src/hsCodeLookup.js:96 | lower-casing keeps the length |
| Text.LowerSpec | maritime-logistics-dashboard/src/hsCodeLookup.js:96 | lower-casing leaves no upper-case letter, maps each upper-case letter to its lower-case form and changes no other character |
| Text.LowerIdempotent | maritime-logistics-dashboard/src/hsCodeLookup.js:96 | lower-casing twice is lower-casing once |
| Text.ContainsIffOccurs | maritime-logistics-dashboard/src/hsCodeLookup.js:103 | `includes` holds exactly when the substring occurs at some index |
| Text.Contains | maritime-logistics-dashboard/src/hsCodeLookup.js:103 | a string includes only substrings no longer than itself |
| Text.ContainsEmpty | maritime-logistics-dashboard/src/hsCodeLookup.js:103 | every string includes the empty string |
| Text.Split | maritime-logistics-dashboard/src/hsCodeLookup.js:97 | `split` yields at least one piece |
| Text.SplitAvoidsSep | maritime-logistics-dashboard/src/hsCodeLookup.js:97 | no piece of a split contains the separator |
| Text.JoinSplit | maritime-logistics-dashboard/src/hsCodeLookup.js:97 | joining the pieces of a split gives back the string |
| Text.SplitJoin | maritime-logistics-dashboard/src/hsCodeLookup.js:182-185 | splitting a join of separator-free pieces gives back the pieces |
| Text.Join | maritime-logistics-dashboard/src/hsCodeLookup.js:182-185 | the first piece starts the joined string and, when there are more pieces, the separator follows it directly |
| Text.JoinAvoids | maritime-logistics-dashboard/src/hsCodeLookup.js:182-185 | joining pieces that all lack a character other than the separator gives a string that lacks it too |
| StableSort.SortBy | maritime-logistics-dashboard/main.js:84 | the sort keeps the length |
| StableSort.SortBySorts | maritime-logistics-dashboard/main.js:84 | the sort's result is ascending by key and a permutation of its input |
| StableSort.SortByStable | maritime-logistics-dashboard/src/hsCodeLookup.js:132 | for every key, elements with that key keep their input order |
| StableSort.SortByConstantKey | maritime-logistics-dashboard/src/hsCodeLookup.js:132 | when all keys are equal the sort changes nothing |
| StableSort.WithKeyOfPrefix | maritime-logistics-dashboard/src/hsCodeLookup.js:133 | a prefix's per-key subsequence is a prefix of the whole one's |
| RouteScorer.CalculateRoute | maritime-logistics-dashboard/main.js:40-57 | no plan exactly when the `origin-via` or `via-destination` leg is missing; otherwise sea and land are the table values, and total is sea + land + penalty |
| RouteScorer.GeoPenalty | maritime-logistics-dashboard/main.js:71 | the penalty is 12 exactly when the origin is Mumbai and the mode is not Safest, and 0 otherwise |
| RouteScorer.AdjustForMode | maritime-logistics-dashboard/main.js:77-80 | Premium sets land to max(1, land - 1), keeps every other field and re-sums the total; any other mode leaves the plan unchanged |
| RouteScorer.ViaPorts | maritime-logistics-dashboard/main.js:66-69 | at most three candidate ports, and none exactly for an origin other than Shanghai, Mumbai and Rotterdam |
| RouteScorer.ViaPortsSailFromOrigin | maritime-logistics-dashboard/main.js:12-21 | every candidate via-port has a sea leg from its origin in the table |
| RouteScorer.PlanVia | maritime-logistics-dashboard/main.js:74-82 | a port yields a plan exactly when both of its legs exist; the plan is for this origin, destination and port, with the table's sea leg, the mode's penalty, a land leg of at least one day and total = sea + land + penalty |
| RouteScorer.Viable | maritime-logistics-dashboard/main.js:73-83 | map-then-filter yields no more plans than candidate ports |
| RouteScorer.ViableSpec | maritime-logistics-dashboard/main.js:73-83 | the kept plans are those for the ports with both legs, in port order, each a plan of this origin, destination and mode |
| RouteScorer.ViablePortsSpec | maritime-logistics-dashboard/main.js:75-76 | a candidate port is kept exactly when both of its legs exist |
| RouteScorer.ViablePortsWithin | maritime-logistics-dashboard/main.js:83 | only candidate ports are kept |
| RouteScorer.RankedRoutes | maritime-logistics-dashboard/main.js:73-84 | there are no more results than candidate ports of the origin |
| RouteScorer.RankedRoutesSpec | maritime-logistics-dashboard/main.js:66-84 | the results are ascending by total; each is a correct plan; a candidate port appears exactly when both legs exist; equal totals keep port order |
| RouteScorer.UnknownOriginHasNoRoutes | maritime-logistics-dashboard/main.js:66-69 | an origin other than Shanghai, Mumbai and Rotterdam yields no results |
| RouteScorer.ShanghaiTorontoLegs | maritime-logistics-dashboard/main.js:12-21 | Shanghai to Toronto gives 19 days via PrinceRupert, 23 via Vancouver, and no plan via LA |
| RouteScorer.ShanghaiTorontoStandard | maritime-logistics-dashboard/main.js:66-84 | Shanghai to Toronto in Standard mode ranks PrinceRupert (19) before Vancouver (23) |
| RouteScorer.MumbaiTorontoByMode | maritime-logistics-dashboard/main.js:71-80 | Mumbai to Toronto via Halifax takes 43 days in Standard, 42 in Premium and 31 in Safest |
| RouteScorer.Saved | maritime-logistics-dashboard/main.js:29-36 | the new entry is first and the old entries follow in order; exactly one is dropped, the oldest, when the list was at the cap; a list within the cap stays within it |
| RouteScorer.ScoreViaPorts | maritime-logistics-dashboard/main.js:73-83 | the map/filter loop yields exactly the viable plans in port order |
| RouteScorer.RouteHistory.constructor | maritime-logistics-dashboard/main.js:27 | the history starts as the stored entries |
| RouteScorer.RouteHistory.SaveToHistory | maritime-logistics-dashboard/main.js:29-36 | the new history is `Saved(old history, entry)`: the entry is at index 0, and the cap holds if it held before |
| RouteScorer.RouteHistory.Clear | maritime-logistics-dashboard/main.js:396-399 | the history becomes empty |
| RouteScorer.RouteHistory.UpdateResults | maritime-logistics-dashboard/main.js:66-94 | the results are the ranked routes; an empty result leaves history unchanged, otherwise exactly the best plan is saved |
| HsCodeLookup.LongWordsSpec | maritime-logistics-dashboard/src/hsCodeLookup.js:97 | exactly the pieces longer than two characters are kept |
| HsCodeLookup.LongWordsAppend | maritime-logistics-dashboard/src/hsCodeLookup.js:97 | the word filter distributes over concatenation, so kept words stay in query order and a repeated word is kept (and scored) once per occurrence |
| HsCodeLookup.ScoreOf | maritime-logistics-dashboard/src/hsCodeLookup.js:99-127 | the nested accumulation loops compute the score: 100 for a raw code match, 50 for a description match, 20 per (word, keyword) hit, 30 for a chapter or heading match |
| HsCodeLookup.AddKeywordHits | maritime-logistics-dashboard/src/hsCodeLookup.js:113-119 | the inner keyword loop adds 20 for each keyword that contains the word |
| HsCodeLookup.Score | maritime-logistics-dashboard/src/hsCodeLookup.js:99-127 | the score is a multiple of ten, at least 20 per (word, keyword) hit and at most 180 more than that; a raw code or full-code match alone gives at least 100 |
| HsCodeLookup.ScoreItems | maritime-logistics-dashboard/src/hsCodeLookup.js:99-128 | every database item is scored, in database order |
| HsCodeLookup.ScoreAll | maritime-logistics-dashboard/src/hsCodeLookup.js:99-128 | one scored entry per database item |
| HsCodeLookup.ScoreAllAt | maritime-logistics-dashboard/src/hsCodeLookup.js:99-128 | the i-th scored entry is the i-th item with its score |
| HsCodeLookup.EmptyQueryScore | maritime-logistics-dashboard/src/hsCodeLookup.js:102-125 | an empty query scores 180 on every item: code, description and chapter all match and there are no words |
| HsCodeLookup.Positive | maritime-logistics-dashboard/src/hsCodeLookup.js:131 | exactly the entries with a positive score are kept |
| HsCodeLookup.PositiveAppend | maritime-logistics-dashboard/src/hsCodeLookup.js:131 | the score filter distributes over concatenation, so it keeps order and repetitions |
| HsCodeLookup.PositiveWithKey | maritime-logistics-dashboard/src/hsCodeLookup.js:131 | for every positive score, the filter keeps all entries of that score in their original order |
| HsCodeLookup.TopMatchesSpec | maritime-logistics-dashboard/src/hsCodeLookup.js:130-133 | at most five results, all with positive scores and taken from the scored list, in non-increasing score order; for every score, the results with that score are a prefix of the scored list's entries with that score, in the same order; a positive entry is left out only when five results are returned and it scores no more than the fifth |
| HsCodeLookup.TopMatches | maritime-logistics-dashboard/src/hsCodeLookup.js:130-133 | never more than five results |
| HsCodeLookup.EmptyQueryTopMatches | maritime-logistics-dashboard/src/hsCodeLookup.js:130-133 | with an empty query the search returns the first five items (all of them when fewer), in database order, each scoring 180 |
| HsCodeLookup.EmptyQueryRanked | maritime-logistics-dashboard/src/hsCodeLookup.js:130-133 | with an empty query the filter drops nothing and the sort moves nothing, so the result is a prefix of the scored database |
| HsCodeLookup.AllPositive | maritime-logistics-dashboard/src/hsCodeLookup.js:131 | the filter keeps a list whose scores are all positive unchanged |
| HsCodeLookup.HsLookup.constructor | maritime-logistics-dashboard/src/hsCodeLookup.js:81-84 | the lookup holds the fixed database and the stored products |
| HsCodeLookup.HsLookup.SearchHsCode | maritime-logistics-dashboard/src/hsCodeLookup.js:95-134 | the results are the top matches of the scored database: at most five, positive, database items with their scores, in non-increasing order |
| HsCodeLookup.WithAdded | maritime-logistics-dashboard/src/hsCodeLookup.js:148-151 | the new product is first and the previous list follows; the length is min(n + 1, 50) |
| HsCodeLookup.HsLookup.AddProduct | maritime-logistics-dashboard/src/hsCodeLookup.js:136-155 | the product is built from the data, id and date; the list becomes `WithAdded(old list, product)` and holds at most 50 products |
| HsCodeLookup.WithoutId | maritime-logistics-dashboard/src/hsCodeLookup.js:158 | a product remains exactly when it was present and has a different id |
| HsCodeLookup.WithoutIdAppend | maritime-logistics-dashboard/src/hsCodeLookup.js:158 | deletion keeps order: it distributes over concatenation |
| HsCodeLookup.WithoutAbsentId | maritime-logistics-dashboard/src/hsCodeLookup.js:158 | deleting an id that no product has changes nothing |
| HsCodeLookup.HsLookup.DeleteProduct | maritime-logistics-dashboard/src/hsCodeLookup.js:157-160 | the list becomes `WithoutId(old list, id)`, so no product with that id remains |
| HsCodeLookup.HsLookup.GetProducts | maritime-logistics-dashboard/src/hsCodeLookup.js:162-164 | the list itself is returned |
| HsCodeLookup.CsvLines | maritime-logistics-dashboard/src/hsCodeLookup.js:182-185 | one header line plus one line per product |
| HsCodeLookup.CsvRow | maritime-logistics-dashboard/src/hsCodeLookup.js:172-184 | a row starts with the quoted product name followed by a comma |
| HsCodeLookup.ProductsCsv | maritime-logistics-dashboard/src/hsCodeLookup.js:166-187 | the export is empty exactly when there are no products; otherwise it starts with the header line followed by a newline |
| HsCodeLookup.ProductsCsvLines | maritime-logistics-dashboard/src/hsCodeLookup.js:166-187 | the export is empty exactly when there are no products; otherwise, when no cell contains a newline, splitting on newlines gives the header line followed by one row per product, in list order |
| HsCodeLookup.RowAvoidsNewline | maritime-logistics-dashboard/src/hsCodeLookup.js:184 | a row of newline-free cells, each quoted, holds no newline |
| HsCodeLookup.HsLookup.ExportProductsCsv | maritime-logistics-dashboard/src/hsCodeLookup.js:166-169 | the export is empty exactly when the product list is empty |
| TrackingFilter.Toggled | maritime-logistics-dashboard/src/liveTrackingFilter.js:7-13 | `t` flips membership and no other type changes |
| TrackingFilter.ToggleTwice | maritime-logistics-dashboard/src/liveTrackingFilter.js:7-13 | toggling twice restores the set |
| TrackingFilter.OfTypes | maritime-logistics-dashboard/src/liveTrackingFilter.js:21 | the shown vessels are exactly the fleet's vessels whose type is active |
| TrackingFilter.OfTypesAppend | maritime-logistics-dashboard/src/liveTrackingFilter.js:21 | the filter keeps fleet order: it distributes over concatenation |
| TrackingFilter.OfTypesAll | maritime-logistics-dashboard/src/liveTrackingFilter.js:21 | with every present type active, the whole list is shown unchanged |
| TrackingFilter.FleetCounts | maritime-logistics-dashboard/src/liveTrackingFilter.js:24-165 | the fixture has 3 sea, 3 air and 3 rail vessels and no other type, which are the counts on the buttons at lines 182, 194 and 206 |
| TrackingFilter.DefaultShowsWholeFleet | maritime-logistics-dashboard/src/liveTrackingFilter.js:3-5 | a fresh panel shows the whole fleet in order |
| TrackingFilter.LiveTrackingFilter.constructor | maritime-logistics-dashboard/src/liveTrackingFilter.js:3-5 | sea, air and rail are active at first |
| TrackingFilter.LiveTrackingFilter.ToggleFilter | maritime-logistics-dashboard/src/liveTrackingFilter.js:7-13 | `t` flips membership and no other type changes |
| TrackingFilter.LiveTrackingFilter.IsFilterActive | maritime-logistics-dashboard/src/liveTrackingFilter.js:15-17 | true exactly when `t` is active |
| TrackingFilter.LiveTrackingFilter.GetFilteredVessels | maritime-logistics-dashboard/src/liveTrackingFilter.js:19-22 | the fleet filtered by the active set, in fleet order: exactly the fleet vessels of active types; none when no type is active |
| HsCodeFormat.Digits | scripts/cbsa-scraper.py:102 | only digits remain, and never more characters than the input |
| HsCodeFormat.CleanHsCode | scripts/cbsa-scraper.py:99-107 | fewer than six digits gives the digits alone; otherwise the length grows by three, and the digit groups d[0:2], d[2:4], d[4:6] and d[6:] are separated by dots at positions 2, 5 and 8 |
| HsCodeFormat.CleanHsCodeDots | scripts/cbsa-scraper.py:102-107 | below six digits the result has no dot; otherwise a character is a dot exactly at positions 2, 5 and 8 |
| HsCodeFormat.CleanHsCodeKeepsDigits | scripts/cbsa-scraper.py:102-107 | removing the non-digits from the cleaned code gives the input's digits |
| HsCodeFormat.CleanHsCodeIdempotent | scripts/cbsa-scraper.py:102-107 | cleaning a cleaned code changes nothing |
| HsCodeFormat.CleanSixDigits | scripts/cbsa-scraper.py:105-106 | exactly six digits come back dotted with a trailing dot |
| HsCodeFormat.FirstDigitRunEmpty | scripts/cbsa-scraper.py:111-112 | there is no first digit run exactly when the code has no digit |
| HsCodeFormat.FirstDigitRun | scripts/cbsa-scraper.py:111 | the first `\d+` match consists of digits and is no longer than the code |
| HsCodeFormat.FirstDigitRunSpec | scripts/cbsa-scraper.py:111 | the first `\d+` match is preceded only by non-digits, is all digits and is followed by a non-digit or the end; it is empty exactly when there is no digit |
| HsCodeFormat.ParseDecimal | scripts/cbsa-scraper.py:114 | the value of n digits is below 10^n |
| HsCodeFormat.ExtractChapter | scripts/cbsa-scraper.py:109-115 | the chapter is at most 99, and 0 when there is no digit |
| HsCodeFormat.ChapterOfCleanCode | scripts/cbsa-scraper.py:99-115 | the chapter of a cleaned code is the value of the input's first two digits (or of its only digit) |
| HsCodeFormat.ExtractChapterExamples | scripts/cbsa-scraper.py:109-115 | "84.71.30.00" has chapter 84 and "n/a" has chapter 0 |
| HsCodeFormat.Upsert | scripts/cbsa-scraper.py:195 | one dict assignment keeps the keys distinct, replaces the entry with that key in place or appends it, and leaves every other entry alone |
| HsCodeFormat.Dedup | scripts/cbsa-scraper.py:195-196 | the de-duplicated list has distinct codes |
| HsCodeFormat.DedupKeys | scripts/cbsa-scraper.py:195-196 | the codes appear once each, in order of first appearance |
| HsCodeFormat.DedupKeepsLast | scripts/cbsa-scraper.py:195-196 | for each code, the entry kept is the last one scraped with that code |
| HsCodeFormat.FirstOccurrencesSpec | scripts/cbsa-scraper.py:195-196 | first occurrences are distinct, cover exactly the input's codes, and number as many as the distinct codes |
| HsCodeFormat.SaveOutput | scripts/cbsa-scraper.py:192-206 | `total_codes` is the number of distinct codes; the codes are distinct, cover the scraped codes, and each is the last scraped entry with its code; the source is "CBSA", the version "1.0" and the timestamp the given one |

## Left out

- HTML rendering, DOM wiring, `updateHistoryUI`, the navigation handlers and all of `productManager.js`: these are view code only.
- `localStorage` reads and writes and their JSON parsing. The stored history and products are constructor parameters of any length. `main.js:27` does not catch malformed JSON, and the model does not claim any recovery from it.
- Clock and identifier values (`new Date().toISOString()`, `Date.now()`, `toLocaleDateString`, `datetime.now()`) are opaque parameters. The date formatter is a `string -> string` parameter.
- `aiAssistant.js` (network calls), `mapTracker.js` (map widget, floating-point drift), `portHub.js` and `torontoHub.js` (fixtures and timers) are not part of this model.
- The rest of `cbsa-scraper.py`: HTTP requests, HTML parsing, sleeps, file writes and PostgreSQL.
- Lower-casing is modelled for ASCII `A`-`Z` only, and Python's `\d` as ASCII `0`-`9`.
- Strings are sequences of Unicode code points, while JavaScript's `length` and `includes` count UTF-16 code units. "a😀" has length 3 in JavaScript and 2 here. This changes nothing on the all-ASCII database, but `Score` on arbitrary items can differ where a query word has an astral character: the "longer than two characters" test counts differently.
- Vessels carry only their id and type; positions, speeds and the other fixture fields are left out. Product weight and value are kept as the strings the form supplies.
- HsCodeLookup.HsLookup.ExportProductsCsv: states only the empty/non-empty case about the object's list. The line structure is proved about `ProductsCsv` in `ProductsCsvLines`. Cells are quoted without doubling embedded quotes, as the source does, so no CSV parse round trip is claimed.
- RouteScorer.RouteHistory.SaveToHistory: like the source, it removes at most one entry per save. A stored history longer than ten entries therefore stays over the cap, and the cap is only promised when it held before.
- Aliasing between the returned product or results and the object state is not modelled: values are immutable sequences and datatypes.
