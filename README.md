# Metrolist search and AMI estimator, modelled in Dafny

Metrolist is a housing-search web application. Users browse income-restricted
and market-rate listings and filter them by offer (rent or sale), location,
bedroom count, AMI (Area Median Income) eligibility, income ceiling and rental
price. An AMI estimator turns household size and income into an eligibility
percentage and a recommended search threshold.

This project models the two algorithmic parts of the application:

* **The search engine** (`src/components/Search/index.js`). It covers:
  * the filter tree and its defaults;
  * the sanitisation of persisted filters at load time;
  * the use of the estimator's recommendation as the AMI lower bound;
  * the merge of saved filters over the defaults;
  * the filter-change reducer `getNewFilters`;
  * the matching function `filterHomes`, at both listing and unit level;
  * `paginate` and `getAllHomes`;
  * the listing counts shown beside the filter options;
  * the merge of counted neighbourhoods and directions into the filters;
  * the fresh filter object built by "clear filters".
* **The AMI estimator result** (`src/components/AmiEstimator/_AmiEstimatorResult/index.js`). It covers:
  * the 100% AMI table;
  * `estimateAmi`;
  * `recommendAmi`;
  * `isAboveUpperBound`.

JavaScript's value semantics are written out where the code depends on them:

* `x || null` turns 0 into `null`.
* In `<`, `<=` and `>`, `null` reads as 0 and `NaN` makes every comparison false.
* A missing checkbox key counts as selected under `!== false`, but not under `=== true` or truthiness.
* `obj[null]` looks up the key `"null"`.
* `Array.prototype.sort()` without a comparator sorts numbers as strings.
* `Number.parseInt` and `parseFloat` read the longest numeric prefix.
* `++` on a missing key yields `NaN`.
* Writing a property on a number or on `undefined` throws a TypeError, because module code runs in strict mode.

The files, one module each (the first file also holds `Options`):

| file | module | models |
|---|---|---|
| `js_numbers.dfy` | `JsNumbers` | number slots (`null`, integer, `NaN`), comparisons, `parseInt`, `parseFloat`, `String(n)` |
| `ami_estimator.dfy` | `AmiEstimator` | the AMI table, `estimateAmi`, `recommendAmi`, `isAboveUpperBound` |
| `ami_examples.dfy` | `AmiExamples` | the estimator's default form answers carried through the estimate and the recommendation |
| `listings.dfy` | `Listings` | listings, units, the filter tree, `defaultFilters` |
| `string_order.dfy` | `StringOrder` | the default (string) sort order and the last element after sorting |
| `matching.dfy` | `Matching` | `filterHomes` |
| `pagination.dfy` | `Pagination` | `paginate`, `getAllHomes` |
| `listing_counts.dfy` | `ListingCounts` | `clearListingCounts`, `populateListingCounts` (a class over the counts object) |
| `filter_change.dfy` | `FilterChange` | `getNewFilters` |
| `saved_filters.dfy` | `SavedFilters` | load-time sanitisation, the AMI recommendation, the default merges, `clearFilters` |

The search keeps its filters in a typed record. Each checkbox group is a map from
option name to flag. `filterHomes` is a function: its three passes (filter, map,
filter) run fused, one listing at a time. The imperative parts of the source are
methods proved against specification functions:

* the listing-level AMI loop with its `break`;
* the `paginate` loop;
* the counts object that `populateListingCounts` updates in place;
* the key loops of the sanitisation, of `clearFilters` and of the count merge.

Modelling the default sort exactly shows one consequence of the code as written.
The "3+" bedroom test reads the last bedroom count after a string sort. A listing
whose units have 2 and 10 bedrooms therefore sorts as `[10, 2]`, and it does not
match "3+" at listing level, although its 10-bedroom unit passes the unit-level
test (`Matching.TenBedroomListingMissesThreePlus`). For bedroom counts below 10,
the last element is the true maximum (`Matching.ThreePlusWithSingleDigits`).

## Model

| member | source | states |
|---|---|---|
| JsNumbers.NullIfFalsy | src/components/Search/index.js:329 | `x \|\| null` is `null` exactly when the value is missing or 0, and otherwise the value itself |
| JsNumbers.LeNeverHoldsForNaN | src/components/Search/index.js:206-217 | no comparison with a `NaN` bound holds, in either direction |
| JsNumbers.LeOrGt | src/components/Search/index.js:206-217 | `a <= b` and `a > b` never both hold, and one of them holds exactly when neither side is `NaN`, so a `NaN` bound matches nothing |
| JsNumbers.ParseInt | src/components/Search/index.js:400 | `Number.parseInt(s, 10)` never yields `null`; it yields `NaN` exactly when, after whitespace and a sign, no digit follows |
| JsNumbers.ParseFloat | src/components/AmiEstimator/_AmiEstimatorResult/index.js:28 | `parseFloat` fails exactly when there is neither an integer part nor a fraction part with at least one digit |
| JsNumbers.ParseIntOfIntToString | src/components/Search/index.js:104 | `parseInt` reads back every integer that `String` wrote |
| JsNumbers.ParseIntOfLetter | src/components/Search/index.js:400 | text that starts with anything but whitespace, a sign or a digit reads as `NaN` |
| JsNumbers.ParseIntOfNaN | src/components/Search/index.js:104 | a stored `"NaN"` reads back as `NaN` |
| JsNumbers.ParseFloatOfDecimalString | src/components/AmiEstimator/_AmiEstimatorResult/index.js:28 | `parseFloat` reads back every whole number written in decimal |
| AmiEstimator.RemoveFirst | src/components/AmiEstimator/_AmiEstimatorResult/index.js:24 | `replace('+', '')` is one character shorter exactly when a `+` occurs |
| AmiEstimator.RemoveFirstOnlyFirst | src/components/AmiEstimator/_AmiEstimatorResult/index.js:24 | only the first `+` goes: the text before and after it is kept, and text without one is unchanged |
| AmiEstimator.StripCurrency | src/components/AmiEstimator/_AmiEstimatorResult/index.js:28 | the result is no longer than the input |
| AmiEstimator.StripCurrencyRemovesMarks | src/components/AmiEstimator/_AmiEstimatorResult/index.js:28 | no `$` or `,` remains, and every other character of the input does |
| AmiEstimator.StripCurrencyAppend | src/components/AmiEstimator/_AmiEstimatorResult/index.js:28 | stripping distributes over concatenation |
| AmiEstimator.StripCurrencyKeepsPlainText | src/components/AmiEstimator/_AmiEstimatorResult/index.js:28 | text without `$` or `,` is left unchanged |
| AmiEstimator.StripDollarComma | src/components/AmiEstimator/_AmiEstimatorResult/index.js:28 | a leading `$` and a thousands `,` are dropped and the digits around them joined |
| AmiEstimator.MaxIncome | src/components/AmiEstimator/_AmiEstimatorResult/index.js:14-29 | a ceiling exists exactly for the table's household sizes, and it is positive |
| AmiEstimator.Annualized | src/components/AmiEstimator/_AmiEstimatorResult/index.js:30-35 | income is multiplied by 12 exactly when the rate is "Monthly"; a failed parse stays failed |
| AmiEstimator.Floor | src/components/AmiEstimator/_AmiEstimatorResult/index.js:47 | `Math.floor`: the greatest integer not above x |
| AmiEstimator.Ceil | src/components/AmiEstimator/_AmiEstimatorResult/index.js:59 | `Math.ceil`: the least integer not below x |
| AmiEstimator.PercentageBounds | src/components/AmiEstimator/_AmiEstimatorResult/index.js:47 | the percentage p satisfies p·ceiling ≤ 100·income < (p+1)·ceiling |
| AmiEstimator.EstimateAmi | src/components/AmiEstimator/_AmiEstimatorResult/index.js:23-51 | an unparsable income gives 0; an unknown household size gives `NaN`; otherwise the floored percentage of the annualised income |
| AmiEstimator.RecommendAmi | src/components/AmiEstimator/_AmiEstimatorResult/index.js:53-63 | `NaN` stays `NaN`; 0 or below gives 0; above 0 gives the next multiple of 5 that is not below the estimate |
| AmiEstimator.AboveUpperBoundBoundary | src/components/AmiEstimator/_AmiEstimatorResult/index.js:65-67 | above the upper bound means at least 201%: 200 is not above it, 201 is |
| AmiEstimator.RecommendFixesMultiplesOfFive | src/components/AmiEstimator/_AmiEstimatorResult/index.js:58-59 | a non-negative multiple of 5 is recommended as itself |
| AmiEstimator.RecommendIdempotent | src/components/AmiEstimator/_AmiEstimatorResult/index.js:53-63 | recommending a recommendation changes nothing |
| AmiEstimator.RecommendationWithinShownRange | src/components/AmiEstimator/_AmiEstimatorResult/index.js:53-67 | whenever the recommendation is shown (estimate not above 200), it lies in [0, 200] |
| AmiEstimator.PercentageMonotone | src/components/AmiEstimator/_AmiEstimatorResult/index.js:47 | a larger income never gives a smaller percentage, and a non-negative income gives a non-negative one |
| AmiEstimator.EstimateMonotoneInIncome | src/components/AmiEstimator/_AmiEstimatorResult/index.js:23-51 | for a known household size, a higher parsed income never lowers the estimate |
| AmiEstimator.EstimateNonNegative | src/components/AmiEstimator/_AmiEstimatorResult/index.js:37-48 | a non-negative income and a known size give a non-negative percentage |
| AmiExamples.SixPlusLooksUpSix | src/components/AmiEstimator/_AmiEstimatorResult/index.js:24-29 | the size "6+" looks up `people_6`, i.e. 131450 |
| AmiExamples.DefaultIncomeStrips | src/components/AmiEstimator/_AmiEstimatorResult/index.js:28 | "$5,000.00" strips to "5000.00" |
| AmiExamples.DefaultIncomeReads | src/components/AmiEstimator/_AmiEstimatorResult/index.js:28 | "5000.00" parses to 5000 |
| AmiExamples.DefaultIncomeParses | src/components/AmiEstimator/_AmiEstimatorResult/index.js:28 | "$5,000.00" parses to 5000 |
| AmiExamples.FourPeopleCeiling | src/components/AmiEstimator/_AmiEstimatorResult/index.js:18 | the ceiling for 4 people is 113300 |
| AmiExamples.SixtyThousandOfCeiling | src/components/AmiEstimator/_AmiEstimatorResult/index.js:47 | 60000 against 113300 is 52% |
| AmiExamples.EstimateOfParsed | src/components/AmiEstimator/_AmiEstimatorResult/index.js:23-51 | a parsed income with a table entry is estimated as the floored percentage of its annualised value against that entry |
| AmiExamples.MonthlyAnnualized | src/components/AmiEstimator/_AmiEstimatorResult/index.js:33-35 | a monthly income counts twelve times |
| AmiExamples.FourPeopleAtFiveThousandMonthly | src/components/AmiEstimator/_AmiEstimatorResult/index.js:23-51 | 5000 a month for 4 people is 52% |
| AmiExamples.DefaultFormEstimate | src/components/AmiEstimator/_AmiEstimatorResult/index.js:116-126 | the sample form data (4 people, "$5,000.00" monthly) is estimated at 52% |
| AmiExamples.FiftyTwoRoundsUp | src/components/AmiEstimator/_AmiEstimatorResult/index.js:58-59 | 52% is recommended as 55% |
| AmiExamples.DefaultFormRecommendation | src/components/AmiEstimator/_AmiEstimatorResult/index.js:116-126 | the sample form data is recommended at 55% |
| Listings.PropertyKey | src/components/Search/index.js:162-163 | a present neighbourhood is looked up under its own name, a `null` one under "null" |
| Listings.SetEveryKey | src/components/Search/index.js:442-450 | every key of the group is kept, no key is added, and every flag becomes the new value |
| StringOrder.StrLeReflexive | src/components/Search/index.js:171 | the string order used by the default sort is reflexive |
| StringOrder.StrLeTotal | src/components/Search/index.js:171 | any two strings are comparable |
| StringOrder.StrLeTransitive | src/components/Search/index.js:171 | the order is transitive |
| StringOrder.StrLeAntisymmetric | src/components/Search/index.js:171 | the order is antisymmetric, so the sorted result is unique |
| StringOrder.SortedLast | src/components/Search/index.js:171-187 | the last element after `.sort()` is one of the inputs and is the greatest under string order |
| StringOrder.SortedLastIsTheMaximum | src/components/Search/index.js:171 | any element that is greatest under string order is the last one |
| StringOrder.SingleDigitOrder | src/components/Search/index.js:171 | for 0–9, string order is numeric order |
| StringOrder.SortedLastOfDigits | src/components/Search/index.js:171-187 | with all bedroom counts below 10, the last element is the numeric maximum |
| StringOrder.TenSortsBeforeTwo | src/components/Search/index.js:171 | `[2, 10].sort()` ends with 2 |
| Matching.BedroomSizes | src/components/Search/index.js:171 | one bedroom count per unit, in unit order |
| Matching.AmiValues | src/components/Search/index.js:191 | one AMI value per unit, in unit order |
| Matching.Dedup | src/components/Search/index.js:191-192 | `Array.from(new Set(...))`: the same values, with no repeats |
| Matching.ListingMatchesAmiQualification | src/components/Search/index.js:191-223 | the loop's result holds exactly when the listing is not income-restricted, or some unit's AMI is `null`/0 or lies in the (unordered) interval |
| Matching.KeptUnits | src/components/Search/index.js:254-356 | the units kept are no more than the units given |
| Matching.FilterHomes | src/components/Search/index.js:134-366 | the search returns no more listings than it is given |
| Matching.KeptUnitsAreSubSeq | src/components/Search/index.js:254-356 | the kept units are a subsequence of the listing's units, order kept |
| Matching.KeptUnitsMembers | src/components/Search/index.js:254-356 | a unit is kept exactly when it belongs to the listing and passes every unit-level test |
| Matching.FilterHomesRefines | src/components/Search/index.js:134-366 | the result is the input with listings dropped and the rest narrowed, in order; only `units` changes, and it never becomes empty |
| Matching.FilterHomesSound | src/components/Search/index.js:253-363 | every returned listing has a unit, and every returned unit passes the unit-level tests |
| Matching.FilterHomesMembers | src/components/Search/index.js:134-366 | a listing is returned exactly when it is the narrowed form of an input listing that passes the listing tests and keeps a unit |
| Matching.KeptUnitsOfPassingUnits | src/components/Search/index.js:254-356 | when every unit passes, all units are kept, in order |
| Matching.BedroomsOfPassingUnits | src/components/Search/index.js:171-321 | if every unit passes the unit-level bedroom test, the listing passes the listing-level one, for any bedroom counts |
| Matching.NarrowedUnitsPass | src/components/Search/index.js:253-362 | the narrowed units all pass, and narrowing twice equals narrowing once |
| Matching.NarrowedPassesAgain | src/components/Search/index.js:136-362 | a listing kept by the search is kept again after narrowing, unchanged |
| Matching.FilterHomesIdempotent | src/components/Search/index.js:134-366 | searching the search result again with the same filters returns it unchanged |
| Matching.InIntervalSymmetric | src/components/Search/index.js:206-217 | swapping the two AMI bounds does not change the interval test |
| Matching.InIntervalIsMinMax | src/components/Search/index.js:206-217 | with integer bounds, the AMI test is min(lower, upper) ≤ ami ≤ max(lower, upper) |
| Matching.KeptUnitsUnderSameTests | src/components/Search/index.js:254-356 | filters that agree on every unit keep the same units |
| Matching.FilterHomesUnderSameInterval | src/components/Search/index.js:134-366 | filters differing only in equivalent AMI bounds give the same result |
| Matching.FilterHomesAmiSwap | src/components/Search/index.js:211-217 | swapping the AMI sliders' order never changes the search result |
| Matching.RentalPriceRule | src/components/Search/index.js:257-291 | a unit passes on price exactly when the price test is off (upper bound 0, or neither a rental nor an apartment) or its price (`null` as 0) lies between the bounds, open-ended when the upper bound is at the 3000 maximum |
| Matching.FilterHomesIncomeCeiling | src/components/Search/index.js:346-353 | every returned unit with a non-zero income ceiling is within a non-zero filter ceiling |
| Matching.FilterHomesAmiWithinBounds | src/components/Search/index.js:328-344 | every returned unit with a non-zero AMI lies between the two bounds, in either order |
| Matching.NothingSelectedListing | src/components/Search/index.js:225-243 | with no offer, city or bedroom option ticked, and the relaxation on, only the AMI test decides the listing |
| Matching.NothingSelectedUnit | src/components/Search/index.js:312-321 | with no bedroom option ticked, the relaxation makes every bedroom count pass; without it, no unit passes |
| Matching.ThreePlusWithSingleDigits | src/components/Search/index.js:171-188 | with bedroom counts below 10, the "3+" listing test holds exactly when some unit has 3 or more |
| Matching.TenBedroomListingMissesThreePlus | src/components/Search/index.js:171-188 | with only "3+" ticked, a listing with units of 2 and 10 bedrooms fails the listing test, although its 10-bedroom unit passes the unit test |
| Pagination.Chunks | src/components/Search/index.js:110-120 | every page is non-empty and at most the page size, and all but the last are full |
| Pagination.Flatten | src/components/Search/index.js:660 | the joined list holds at least the first page |
| Pagination.FlattenChunks | src/components/Search/index.js:110-120 | joining the pages gives back the listings exactly |
| Pagination.ChunksCount | src/components/Search/index.js:110-120 | there are ceil(n / size) pages, and none exactly when there are no listings |
| Pagination.ChunksStep | src/components/Search/index.js:115-117 | one loop step pushes the slice at `i`, cut short at the end |
| Pagination.Paginate | src/components/Search/index.js:110-120 | the loop builds exactly the page sequence specified by `Chunks` |
| Pagination.ChunksOfFlatten | src/components/Search/index.js:110-120 | paging a joined list of pages (all full but the last) gives back those pages |
| Pagination.FoldConcat | src/components/Search/index.js:660 | the left fold of `concat` is the accumulator followed by the joined pages |
| Pagination.GetAllHomes | src/components/Search/index.js:658-664 | `reduce(concat)` without a seed, or `[]` for no pages, joins the pages in order |
| Pagination.GetAllHomesOfChunks | src/components/Search/index.js:658-664 | `getAllHomes` after `paginate` gives back the listings |
| ListingCounts.ToLower | src/components/Search/index.js:624 | `toLowerCase` keeps the length and lowers exactly the letters A–Z |
| ListingCounts.OfferCount | src/components/Search/index.js:617-621 | an offer count is at most the number of listings |
| ListingCounts.BostonCount | src/components/Search/index.js:623-628 | the Boston count is at most the number of listings |
| ListingCounts.BeyondBostonCount | src/components/Search/index.js:623-628 | the beyond-Boston count is at most the number of listings |
| ListingCounts.CityCount | src/components/Search/index.js:623 | the count of listings with a city is at most the number of listings |
| ListingCounts.CountsStep | src/components/Search/index.js:616-642 | one more listing adds one to its offer and its city count and updates only its own neighbourhood or direction entry |
| ListingCounts.Counts.constructor | src/components/Search/index.js:588-611 | a new counts object is the cleared one |
| ListingCounts.Counts.Clear | src/components/Search/index.js:588-611 | `clearListingCounts` sets every count to 0, empties the neighbourhoods and sets west, north and south to 0, i.e. the counts of no listing |
| ListingCounts.Counts.Populate | src/components/Search/index.js:613-656 | after `populateListingCounts`, the counts are exactly those of the given listings |
| ListingCounts.Counts.Add | src/components/Search/index.js:616-642 | one loop body turns the counts of the listings seen into those of one more listing |
| ListingCounts.Counts.CountOffer | src/components/Search/index.js:617-621 | "sale" adds to the sale count, "rent" to the rent count; nothing else changes |
| ListingCounts.Counts.CountCity | src/components/Search/index.js:623-629 | a city that lower-cases to "boston" adds to Boston; any other non-empty city adds to beyond Boston; nothing else changes |
| ListingCounts.Counts.CountLocation | src/components/Search/index.js:631-642 | a non-empty neighbourhood is counted (first time 1), else a direction (`NaN` for an unknown one); nothing else changes |
| ListingCounts.NeighborhoodCountsCount | src/components/Search/index.js:631-639 | exactly the neighbourhoods that occur have an entry, and each entry is the number of listings in it |
| ListingCounts.CardinalCountsCount | src/components/Search/index.js:600-641 | west, north and south always have an entry equal to their number of listings; any other direction is `NaN` |
| ListingCounts.OfferCountAppend | src/components/Search/index.js:616-621 | offer counts add up over concatenated listing lists |
| ListingCounts.RentAndSaleAtMostAll | src/components/Search/index.js:617-621 | rent plus sale never exceeds the number of listings |
| ListingCounts.CitiesSplit | src/components/Search/index.js:623-628 | Boston plus beyond Boston is exactly the number of listings with a city |
| ListingCounts.CapitalisedBostonCounts | src/components/Search/index.js:624 | "Boston" and "BOSTON" both lower-case to "boston", so both count as Boston |
| ListingCounts.OfferCountFront | src/components/Search/index.js:616-621 | the count can equally be taken from the front |
| ListingCounts.OfferCountAfterSearch | src/components/Search/index.js:613-621 | any refinement of the listings has no more of each offer |
| ListingCounts.FilterHomesCounts | src/components/Search/index.js:613-621 | a search result never has more listings of an offer than the full list |
| FilterChange.NewValueOf | src/components/Search/index.js:378-401 | a slider under "amiQualification" or "rentalPrice" yields a number (never `null`); otherwise a checkbox yields its `checked` flag |
| FilterChange.Resolve | src/components/Search/index.js:369-421 | the object and key written and the new value, as specified by `WritePath` and `NewValueOf` |
| FilterChange.CascadeToCity | src/components/Search/index.js:423-437 | ticking a neighbourhood or a direction ticks Boston or beyond Boston |
| FilterChange.CascadeToGroup | src/components/Search/index.js:439-456 | toggling Boston or beyond Boston sets every neighbourhood or direction to the same value |
| FilterChange.GetNewFilters | src/components/Search/index.js:368-459 | the reducer returns the next filters, or the TypeError its writes throw, as specified by `NewFilters` |
| FilterChange.NeighborhoodTickCascade | src/components/Search/index.js:424-428 | ticking a neighbourhood ticks Boston; unticking leaves the city group as it was |
| FilterChange.DirectionTickCascade | src/components/Search/index.js:430-434 | ticking a direction ticks beyond Boston; unticking leaves the city group as it was |
| FilterChange.BostonCascade | src/components/Search/index.js:441-445 | after toggling Boston, every neighbourhood carries Boston's new flag, and none is lost |
| FilterChange.BeyondBostonCascade | src/components/Search/index.js:447-451 | after toggling beyond Boston, every direction carries its new flag, and none is lost |
| FilterChange.WriteKeepsKeys | src/components/Search/index.js:403-420 | a write adds or sets one key, so no group loses an option |
| FilterChange.SliderWrite | src/components/Search/index.js:392-412 | a slider under "amiQualification" or "rentalPrice" writes `parseInt` of its text into the named bound of that pair |
| FilterChange.CascadesKeepBounds | src/components/Search/index.js:423-456 | the cascades change only location groups: both slider pairs are as the write left them |
| FilterChange.SliderStoresInteger | src/components/Search/index.js:392-412 | a slider stores `parseInt` of its text in the named bound, never `null`, and an integer's text stores that integer |
| FilterChange.OfferTickChangesOnlyOffer | src/components/Search/index.js:417-421 | ticking an offer box writes that one flag and changes nothing else |
| FilterChange.UnknownBranchThrows | src/components/Search/index.js:419-420 | an input named after no filter branch throws a TypeError |
| FilterChange.NeighborhoodNeedsParent | src/components/Search/index.js:403-420 | a neighbourhood box updates the filters exactly when its parent criterion is "location" |
| SavedFilters.MigrateBedrooms | src/components/Search/index.js:84-89 | "3" moves to "3+" (replacing any old value), "4+" goes, every other option is kept and none is added |
| SavedFilters.MigrateBedroomsKeepsCurrent | src/components/Search/index.js:84-89 | bedroom options without the legacy keys are left unchanged |
| SavedFilters.Sanitize | src/components/Search/index.js:66-95 | nothing stored, or a stored value that is not a plain object, loads as `{}`; a plain object whose `location` or `bedrooms` is missing or `null` throws; otherwise unknown top-level keys are dropped, neighbourhoods kept and bedrooms migrated |
| SavedFilters.ApplyRecommendation | src/components/Search/index.js:97-107 | with the flag at "true": the AMI lower bound becomes `parseInt` of the stored recommendation (of "null" when none is stored), the upper bound is the saved one or `null` when the AMI branch is missing or `null`, every other branch is unchanged, and the flag becomes "false"; with any other flag nothing changes |
| SavedFilters.RecommendationAppliedOnce | src/components/Search/index.js:97-107 | the flag is one-shot: loading again with the flag it leaves changes nothing |
| SavedFilters.MissingRecommendationLoadsNaN | src/components/Search/index.js:104 | with no recommendation stored, the lower bound becomes `NaN` |
| SavedFilters.StoredRecommendationLoads | src/components/Search/index.js:97-107 | the estimator's stored recommendation becomes the AMI lower bound unchanged (its percentage, or `NaN`); a shown recommendation gives a lower bound in [0, 200] |
| SavedFilters.MergeDefaults | src/components/Search/index.js:889-892 | each saved branch replaces its default whole and each missing branch is the default; a saved `null` branch leaves no filter object |
| SavedFilters.MergeOfNothing | src/components/Search/index.js:889-892 | with nothing saved, the filters are the defaults |
| SavedFilters.MergeReplacesWholeBranch | src/components/Search/index.js:889-892 | a saved branch is not merged key by key: an empty saved offer group stays empty |
| SavedFilters.JsonNumber | src/components/Search/index.js:766 | `JSON.stringify` writes a `NaN` number as `null` and every other number as it is |
| SavedFilters.JsonFilters | src/components/Search/index.js:766 | the stored form differs from the filters only in the number slots, and has no `NaN` |
| SavedFilters.JsonFiltersOfNaNFree | src/components/Search/index.js:766 | filters without `NaN` are stored as they are |
| SavedFilters.ReloadRoundTrip | src/components/Search/index.js:889-895 | filters persisted without legacy bedroom keys load back in their JSON form, whatever extra top-level keys were stored |
| SavedFilters.ReloadOfNaNFree | src/components/Search/index.js:889-895 | filters without legacy bedroom keys and without `NaN` load back as themselves |
| SavedFilters.ReloadTwice | src/components/Search/index.js:889-895 | a second store and reload changes nothing |
| SavedFilters.NaNLowerBoundReloadsAsNull | src/components/Search/index.js:206-217 | a `NaN` AMI lower bound matches no non-zero AMI value; after a reload it is `null`, and every AMI value from 1 to the upper bound matches |
| SavedFilters.AddMissingAsFalse | src/components/Search/index.js:710 | `group[k] \|\| false`: every given key gets a flag, existing flags are kept, new ones are false |
| SavedFilters.MergeCountKeys | src/components/Search/index.js:707-717 | every counted neighbourhood and direction gets a filter flag, existing flags are kept, new ones are false, and nothing else changes |
| SavedFilters.ResetFilters | src/components/Search/index.js:508-557 | the cleared filters are the defaults, plus every current neighbourhood unticked |
| SavedFilters.ClearedPassesUnit | src/components/Search/index.js:521-557 | under cleared filters, every unit with a non-negative price and an AMI in [0, 200] (or none) passes |
| SavedFilters.ClearedPassesListing | src/components/Search/index.js:521-557 | under cleared filters, such a listing with a unit is kept whole |
| SavedFilters.ClearedFiltersShowEverything | src/components/Search/index.js:508-557 | after "clear filters", the search returns every such listing, whole and in order |

## Left out

- Floating point: incomes are exact decimals (`real`) and listing numbers are integers, so binary rounding in `annualizedHouseholdIncome / maxIncome * 100` is not modelled. Non-integer prices, bedroom counts and AMI values are not modelled either.
- JsNumbers.ParseFloat: does not read an exponent (`"1e3"` reads as 1, where JavaScript reads 1000) or `"Infinity"`. Neither occurs in an income typed as currency.
- JsNumbers.ParseInt: integers are unbounded, so the loss of precision above 2^53 is not modelled.
- ListingCounts.ToLower: lowers ASCII letters only. The full Unicode case mapping of `toLowerCase` is not modelled; the only comparison it feeds is against "boston".
- Key order: the filter groups are maps, so the insertion order of JavaScript object keys is not modelled. This covers the sorted re-insertion of neighbourhoods at load time (line 80), in `clearFilters` (line 512) and in the count merge (line 708). It also covers `Object.keys` order in the cascades.
- Matching.RentalPriceRule: the open end is the constant 3000. The source compares with `defaultFilters.rentalPrice.upperBound` (line 284). On a first visit, with nothing stored, the search state shares that object with `defaultFilters` (lines 889-892). A write to the upper price slider (lines 410-411) then moves the open end to the new upper bound, so every price above the lower bound passes. The model does not capture this.
- Aliasing: `getNewFilters` copies the filters shallowly, so its writes also change the caller's nested objects. The model returns a new value and leaves the caller's value alone. The same holds for the writes to `defaultFilters` at lines 711 and 716, and for the sharing of nested objects between `Search.defaultProps.filters` and `defaultFilters`.
- FilterChange.GetNewFilters: requires `Admissible`, which excludes writes that a typed filter record cannot hold. Examples are a string value written into a checkbox group, a key other than `lowerBound`/`upperBound` written into a slider pair, and a cascade that copies a number into the neighbourhood flags. JavaScript accepts these and produces an ill-typed filter object. Writes that throw (on a number, `null` or `undefined`) are modelled as `TypeError`.
- Filter shapes: persisted filters are modelled branch by branch as missing, `null` or present, with typed contents. A persisted branch of the wrong type is not modelled, for example a `location` without `neighborhood`, or a string where a group is expected.
- SavedFilters.MergeDefaults: a saved `null` branch is copied over its default, and the result is an object the typed filter record cannot hold. The model returns `None` for it and goes no further. The search then throws a TypeError as soon as it reads that branch (for `offer`, at line 139 with the first listing).
- Invalid JSON in storage (which makes `JSON.parse` throw) and JSON parsing itself are not modelled; the stored value arrives already parsed.
- `hasOwnProperty` and `isPlainObject` from `src/util` are not part of this model. They are taken to test own keys and plain objects, respectively. Inherited prototype keys such as `"constructor"` are not modelled.
- I/O: `localStorage`, `fetch`, the query string and `getPage`, React state, and the rendering are not modelled. Values read from storage are parameters; values written are results.
- The `rentalPrice` entry of the listing counts is never updated: the code that would set it is commented out. It stays 0 in the model as in the source.
- The undo of "clear filters" (`undoClearFilters`) and the storage writes around `clearFilters` are not modelled. They only copy stored strings.
- Pagination.Flatten, Matching.KeptUnits, Matching.FilterHomes, AmiEstimator.RemoveFirst, AmiEstimator.StripCurrency and the count functions carry only size bounds in their own contracts. What they compute is stated by the lemmas listed beside them.
