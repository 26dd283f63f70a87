# TravelBuddy trip planner: itinerary core in Dafny

This project models the core of the TravelBuddy trip planner, a small web app that turns a trip form into a day-by-day itinerary. The form holds a budget, a trip length, a party size, a destination and preferences.

The model covers:

- **The activity catalog.** There are five curated destinations. Any other destination gets a generic list localised to its name.
- **The swap-alternative matcher.** For an activity, it finds entries of the same category within 10% of its cost and 15% of its duration, other than the activity itself, at most five, in catalog order. The route that calls it always searches the Hawaii catalog.
- **Itinerary generation:**
  - one day per whole unit of trip length;
  - three slots per day, each filled from a cost-capped pool, or from a fixed catalog position when the pool is empty;
  - per-day cost and duration sums;
  - a uniform, rounded rescale of the day totals when their sum misses the budget by more than 5%.
- **The swap handler.** It replaces one slot of one day, recomputes that day's cost and the itinerary total, and reports the cost difference.
- **The shared validation schemas.** Each is modelled as a predicate plus a parse function that returns the typed record or a non-empty list of failing field paths.
- **The browser-side storage manager.** It covers six keys, an action log bounded to the 100 most recent entries, and a clear operation.

JavaScript numbers are exact reals. The code depends on a few specific JavaScript behaviours, and each one is written out explicitly:

- `Math.round`, and `Math.floor` on a random draw;
- division by zero in the matcher and in the rescale;
- `NaN` and ±Infinity propagating through a sum;
- `String.prototype.replace` with a string replacement.

Randomness and the clock become inputs. Each generated day reads one `Draw`: three numbers in [0, 1) and a millisecond clock reading.

The modules, in dependency order:

- `Wrappers` (wrappers.dfy): `Option` and `Result`.
- `Seqs` (seqs.dfy): filtering, subsequences and sums.
- `JsMath` (jsmath.dfy): `Math.round`, `Math.abs`, and numbers that may be NaN or ±Infinity.
- `Text` (text.dfy): lower-casing, whitespace collapsing, and the first-match replacement.
- `Schema` (schema.dfy): the records and the zod schemas.
- `CatalogData` (catalog_data.dfy): the catalogs as data.
- `Catalog` (catalog.dfy): the catalog lookup and localisation.
- `Generator` (generator.dfy): itinerary generation.
- `Alternatives` (alternatives.dfy): the swap-alternative matcher.
- `Swap` (swap.dfy): the swap handler.
- `LocalStore` (local_store.dfy): the storage manager.
- `Scenarios` (scenarios.dfy): concrete trips worked through the model.

## Model

| member | source | states |
|---|---|---|
| Schema.ParseCategory | TravelBuddy/shared/schema.ts:23 | accepts exactly the four category names; the result's name is the input, and the result is the only category with that name |
| Schema.ParseTransportMode | TravelBuddy/shared/schema.ts:12 | accepts exactly the four transport names, and is the inverse of `TransportModeName` |
| Schema.ParseCuisine | TravelBuddy/shared/schema.ts:13 | accepts exactly the eight cuisine names, and is the inverse of `CuisineName` |
| Schema.ParseSlot | TravelBuddy/shared/schema.ts:78 | accepts exactly "morning", "afternoon" and "evening", and is the inverse of `SlotName` |
| Schema.ParseMessageType | TravelBuddy/shared/schema.ts:56 | accepts exactly "user" and "assistant", and is the inverse of `MessageTypeName` |
| Schema.ParseEach | TravelBuddy/shared/schema.ts:12-13 | an array of enum values parses if and only if every element does; element i of the result is the parse of element i |
| Schema.ParseTripForm | TravelBuddy/shared/schema.ts:7-14 | success if and only if budget ≥ 100, 1 ≤ tripLength ≤ 30, 1 ≤ partySize ≤ 20, the destination is non-empty and every enum value is known; a failure lists at least one field; a success carries the input's values |
| Schema.ParseActivity | TravelBuddy/shared/schema.ts:17-28 | success if and only if the category is known and 0 ≤ rating ≤ 5; cost and duration are unconstrained; a success keeps every field |
| Schema.ParseSwapRequest | TravelBuddy/shared/schema.ts:75-80 | success if and only if the time slot is known and the current activity is valid; a failure names a field; a success keeps the activity id and day number, and its current activity is exactly what `activitySchema` parses from the input |
| Schema.ParseChatMessage | TravelBuddy/shared/schema.ts:54-63 | success if and only if the type is "user" or "assistant"; otherwise the one issue is "type"; a success keeps id, content, timestamp and context |
| Schema.ParseRating | TravelBuddy/shared/schema.ts:66-72 | accepts the record unchanged if and only if 1 ≤ rating ≤ 5 (fractional scores included); otherwise the one issue is "rating" |
| Schema.DayValid | TravelBuddy/shared/schema.ts:31-41 | `daySchema`'s constraints that reals can break: each of the three slots passes `activitySchema` |
| Schema.ItineraryValid | TravelBuddy/shared/schema.ts:44-51 | `itinerarySchema`'s constraints that reals can break: every day passes `daySchema` |
| Catalog.LocaliseLocation | TravelBuddy/server/data/mockTravelData.ts:583 | "Various Locations" becomes the destination; any other location becomes the destination, a space and the location; the result always starts with the destination |
| Catalog.LocaliseEntry | TravelBuddy/server/data/mockTravelData.ts:579-584 | a localised entry keeps name, cost, duration, category, subcategory, rating and image; its id is the normalised destination, `_`, then the generic id; its location starts with the destination; for a destination without `$` its description is exactly what JavaScript's `replace` produces |
| Catalog.Localise | TravelBuddy/server/data/mockTravelData.ts:579-584 | one localised entry per generic entry, nine in all |
| Catalog.ActivitiesFor | TravelBuddy/server/data/mockTravelData.ts:570-585 | a non-empty curated list is returned verbatim; otherwise the nine generic entries, each id prefixed by the normalised destination and `_`, each location starting with the destination (descriptions use the literal replacement; see Findings) |
| Catalog.CuratedKeys | TravelBuddy/server/data/mockTravelData.ts:3-4 | exactly the five names, spelled exactly, select a curated catalog (the lookup is case-sensitive) |
| Catalog.CuratedLookups | TravelBuddy/server/data/mockTravelData.ts:572-576 | each curated name yields its own catalog |
| Catalog.FallbackEntry | TravelBuddy/server/data/mockTravelData.ts:579-584 | a localised entry keeps every generic field except id, description and location; the id is `normalised_dest + "_" + generic id`; the description has its leftmost "the area"/"local" replaced literally, which for a destination without `$` is exactly JavaScript's `replace`; the location follows the rule above |
| Catalog.FallbackIdsDistinct | TravelBuddy/server/data/mockTravelData.ts:581 | localised ids are pairwise distinct |
| Catalog.LocalisedIdsDistinct | TravelBuddy/server/data/mockTravelData.ts:579-584 | the same for the localised copy of the generic catalog, for any destination |
| Catalog.CatalogWellFormed | TravelBuddy/server/data/mockTravelData.ts:3-568 | every catalog, curated or localised, passes the activity schema, has no negative cost and has positive durations |
| Catalog.CuratedWellFormed | TravelBuddy/server/data/mockTravelData.ts:3-467 | each of the five curated catalogs is well formed in that sense |
| Catalog.LocalisedWellFormed | TravelBuddy/server/data/mockTravelData.ts:579-584 | localising the generic catalog keeps it well formed: only id, description and location change |
| Text.Normalise | TravelBuddy/server/data/mockTravelData.ts:581 | `toLowerCase().replace(/\s+/g, '_')` yields a string with no whitespace, no upper-case ASCII letter, and no longer than the input |
| Text.CollapseSpaces | TravelBuddy/server/data/mockTravelData.ts:581 | every maximal whitespace run becomes one `_`; the result has no whitespace and keeps lower case |
| Text.CollapseSpaceFree | TravelBuddy/server/data/mockTravelData.ts:581 | a whitespace-free string is left unchanged |
| Text.CollapseRun | TravelBuddy/server/data/mockTravelData.ts:581 | a word, then a whitespace run, then the rest, collapses to the word, `_`, then the collapsed rest |
| Text.NormaliseIdempotent | TravelBuddy/server/data/mockTravelData.ts:581 | normalising an id prefix twice gives the same prefix |
| Text.FirstMatchFrom | TravelBuddy/server/data/mockTravelData.ts:582 | the leftmost position at which `/the area\|local/` matches; none exists before it; none at all when the result is empty |
| Text.ReplaceFirst | TravelBuddy/server/data/mockTravelData.ts:582 | no match leaves the description as is; otherwise the text before the leftmost match, then the destination literally, then the text after the match |
| Text.Substitute | TravelBuddy/server/data/mockTravelData.ts:582 | the replacement text JavaScript inserts: `$$` gives `$`, `$&` the matched phrase, `` $` `` the text before the match, `$'` the text after it |
| Text.ReplaceFirstAsWritten | TravelBuddy/server/data/mockTravelData.ts:582 | `replace` as JavaScript evaluates it: no match leaves the text as is; otherwise the text before and after the leftmost match is kept and only the match is rewritten |
| Text.SubstituteDollarFree | TravelBuddy/server/data/mockTravelData.ts:582 | a replacement without `$` is inserted verbatim |
| Text.ReplaceFirstAgrees | TravelBuddy/server/data/mockTravelData.ts:582 | for a destination without `$`, JavaScript's replacement equals the literal one |
| Text.DollarAmpersandKeepsMatch | TravelBuddy/server/data/mockTravelData.ts:582 | for destination `$&`, JavaScript's replacement re-inserts the matched phrase and leaves the description unchanged; the literal replacement changes it |
| JsMath.RoundBounds | TravelBuddy/server/routes.ts:232 | `Math.round(x)` lies in (x − ½, x + ½] |
| JsMath.RoundIsNearest | TravelBuddy/server/routes.ts:232 | no integer is strictly closer to x than `Math.round(x)` |
| JsMath.Round | TravelBuddy/server/routes.ts:232 | `Math.round(x)` is the integer in (x − ½, x + ½], so halves go up |
| JsMath.JsAdd | TravelBuddy/server/routes.ts:237 | a sum is NaN if and only if an addend is NaN or the addends are opposite infinities; it is finite if and only if both addends are, and then it is the real sum; otherwise it is the infinity an addend carries |
| JsMath.TimesInfinity | TravelBuddy/server/routes.ts:230-232 | `Math.round(x * Infinity)` is Infinity for positive x, -Infinity for negative x, and NaN for zero |
| JsMath.JsSumShape | TravelBuddy/server/routes.ts:237 | a `reduce` sum is NaN if and only if a term is NaN or both infinities occur; it is ±Infinity if and only if that infinity occurs, the other does not, and no term is NaN |
| Alternatives.RelativeDiffBand | TravelBuddy/server/data/mockTravelData.ts:591-592 | for a positive reference, the relative-difference test is the band [ref − tol·ref, ref + tol·ref] |
| Alternatives.RelativeDiffWithin | TravelBuddy/server/data/mockTravelData.ts:591-592 | under JavaScript division, a zero reference fails the test (0/0 is NaN, x/0 is Infinity) and a negative reference passes it for any non-negative tolerance |
| Alternatives.Matches | TravelBuddy/server/data/mockTravelData.ts:589-593 | a match has another id and the same category; for a positive cost and duration, an entry matches if and only if it also lies in the ±10% cost band and the ±15% duration band |
| Alternatives.AlternativesIn | TravelBuddy/server/data/mockTravelData.ts:587-604 | at most five results, each from the catalog and passing the filter; every passing entry with fewer than five passing entries before it is included, so the results are the first five matches; for positive cost and duration, each result has another id, the same category, cost within 10% and duration within 15% |
| Alternatives.SwapAlternatives | TravelBuddy/server/data/mockTravelData.ts:587-604 | the same, over the destination's catalog, including which five come back |
| Alternatives.AlternativesKeepOrder | TravelBuddy/server/data/mockTravelData.ts:589-603 | the alternatives are a subsequence of the destination's catalog: the filter and the slice keep catalog order |
| Alternatives.AlternativesInOrder | TravelBuddy/server/data/mockTravelData.ts:589-603 | the same over any catalog |
| Alternatives.SingleAlternative | TravelBuddy/server/data/mockTravelData.ts:587-604 | when exactly one catalog entry passes the filter, it is the whole answer |
| Alternatives.ZeroReferenceNoAlternatives | TravelBuddy/server/data/mockTravelData.ts:591-592 | a free or zero-length current activity has no alternatives, because 0/0 is NaN and x/0 is Infinity |
| Alternatives.NegativeCostIgnoresCost | TravelBuddy/server/data/mockTravelData.ts:591 | a negative current cost makes the cost test pass for every entry |
| Alternatives.AlternativesRoute | TravelBuddy/server/routes.ts:34-41 | the route's result is the matcher over the Hawaii catalog, whatever the itinerary's destination: at most five matches from that catalog, all of them when fewer than five exist, and the first five in catalog order otherwise |
| Generator.NumDays | TravelBuddy/server/routes.ts:187 | the loop runs ⌊tripLength⌋ times, between 1 and 30 |
| Generator.DailyBudget | TravelBuddy/server/routes.ts:185 | the daily budget times the trip length, as given, is the budget, and it is positive |
| Generator.MorningPool | TravelBuddy/server/routes.ts:188-191 | an entry is in the pool if and only if it is a beach, hiking or tours entry costing at most 40% of the daily budget; catalog order is kept |
| Generator.AfternoonPool | TravelBuddy/server/routes.ts:193-196 | an entry is in the pool if and only if it is a cultural, water_sports or historical entry costing at most 40% of the daily budget; catalog order is kept |
| Generator.EveningPool | TravelBuddy/server/routes.ts:198-201 | an entry is in the pool if and only if it is dining, nightlife or cruise, and costs at most 60% of the daily budget (the cap binds all three); catalog order is kept |
| Generator.PickIndex | TravelBuddy/server/routes.ts:204-206 | `Math.floor(draw * n)` is a valid index into a non-empty pool |
| Generator.Pick | TravelBuddy/server/routes.ts:204-206 | a non-empty pool yields a member; an empty pool yields the fallback |
| Generator.PickReachesEveryMember | TravelBuddy/server/routes.ts:204-206 | every pool member is chosen by some draw in [0, 1) |
| Generator.DayDate | TravelBuddy/server/routes.ts:213 | the calendar day containing the instant `clock + (dayNum − 1)` days |
| Generator.DayDatesConsecutive | TravelBuddy/server/routes.ts:213 | under one clock reading, day n falls n − 1 calendar days after day 1 |
| Generator.MakeDay | TravelBuddy/server/routes.ts:187-221 | the day's number and date; its totals are the raw slot sums; each slot is a member of its pool, or catalog position 0, 1 or 2 when the pool is empty |
| Generator.PlanDays | TravelBuddy/server/routes.ts:187-222 | one day per draw, and day i is numbered i + 1 |
| Generator.NeedsRescale | TravelBuddy/server/routes.ts:226-227 | the rescale runs if and only if the total is below 95% or above 105% of the budget |
| Generator.ScaleDay | TravelBuddy/server/routes.ts:231-233 | a scaled day keeps its number, date, activities and duration; its cost is the integer in (c·f − ½, c·f + ½], `Math.round` of the exact scaled cost with halves rounded up |
| Generator.Rescale | TravelBuddy/server/routes.ts:224-234 | keeps every day's number, date, activities and duration; changes nothing when the total is within 5% of the budget, or is zero; otherwise each day's cost becomes `Math.round(d · budget / total)`, the integer in (x − ½, x + ½] for x = d · budget / total |
| Generator.ScaledTotalClose | TravelBuddy/server/routes.ts:232 | a rounded scaled day total is within ½ of the exact scaled value |
| Generator.ScaledSumClose | TravelBuddy/server/routes.ts:231-233 | rounding each day moves the total by at most half a unit per day |
| Generator.RescaledTotalNearBudget | TravelBuddy/server/routes.ts:224-237 | after rescaling a positive total, the itinerary total is within n/2 of the budget (n days) |
| Generator.RescaledTotal | TravelBuddy/server/routes.ts:224-237 | for the corrected rescale: without a rescale the total is untouched and within 5% of the budget; after a rescale of a positive total it is within n/2; a zero total stays zero |
| Generator.RescaledTotalsAsWritten | TravelBuddy/server/routes.ts:224-233 | the source's day totals as JavaScript numbers, one per day: unchanged and finite without a rescale; with a zero pre-scale total, NaN for a free day, Infinity for a positive one and -Infinity for a negative one; otherwise the finite integer `Math.round(d · budget / total)` |
| Generator.JsSumFinite | TravelBuddy/server/routes.ts:237 | summing finite day totals as JavaScript numbers gives the real sum |
| Generator.AsWrittenAgreesOnNonZeroTotal | TravelBuddy/server/routes.ts:224-233 | with a non-zero pre-scale total, the source's day totals are exactly the corrected rescale's |
| Generator.ZeroTotalGivesNaN | TravelBuddy/server/routes.ts:224-237 | with a zero pre-scale total, the source's itinerary total is NaN, whatever the signs of the day totals |
| Generator.SourceTotal | TravelBuddy/server/routes.ts:224-237 | the source's itinerary total is NaN for a zero pre-scale total and otherwise equals the corrected total |
| Seqs.ZeroSumSigns | TravelBuddy/server/routes.ts:224-233 | a zero sum with a non-zero term has both a positive and a negative term, so its days scale to both infinities |
| Generator.Build | TravelBuddy/server/routes.ts:175-240 | for the corrected rescale: ⌊tripLength⌋ days numbered 1, 2, …; the itinerary total is the sum of the day totals; id, creation time, destination and party size as given |
| Generator.Generate | TravelBuddy/server/routes.ts:175-240 | the same, over the destination's catalog |
| Generator.GeneratedSlots | TravelBuddy/server/routes.ts:188-206 | each slot of each generated day is a catalog entry that meets its pool's rule, or catalog position 0, 1 or 2 when that pool is empty |
| Generator.GeneratedDaySums | TravelBuddy/server/routes.ts:208-233 | each day's duration is its slots' sum; activities are as planned; the cost is the slots' sum unless a rescale ran |
| Generator.GeneratedTotal | TravelBuddy/server/routes.ts:224-237 | the corrected build's total against the budget, as in `RescaledTotal`, over the planned days |
| Generator.GeneratedTotalAsWritten | TravelBuddy/server/routes.ts:224-237 | the total `generateItinerary` itself computes is NaN when the planned days cost nothing, and otherwise the corrected build's total |
| Generator.GeneratedValid | TravelBuddy/server/routes.ts:175-240 | corrected itineraries built from schema-valid entries pass the itinerary schema |
| Generator.GenerateValid | TravelBuddy/server/routes.ts:175-240 | every corrected generated itinerary passes the itinerary schema |
| Generator.GeneratedDates | TravelBuddy/server/routes.ts:213 | with one clock reading, the day dates are consecutive calendar days starting at the clock's day |
| Generator.GeneratedDayDate | TravelBuddy/server/routes.ts:213 | day i + 1 of a generated itinerary is dated i days after its own clock reading |
| Swap.FindDay | TravelBuddy/server/routes.ts:61-64 | finds the first day whose number equals the request's; none exactly when no day matches |
| Swap.WithSlot | TravelBuddy/server/routes.ts:66-67 | the chosen slot holds the new activity; the other two slots are unchanged |
| Swap.SwapIn | TravelBuddy/server/routes.ts:61-85 | fails with "day not found" exactly when no day matches; otherwise it sets that day's slot, sets the day's cost to the raw slot sum, keeps its number, date and duration, leaves other days alone, sets the itinerary total to the sum of the day totals, and reports the old and new names and new cost − old cost |
| Swap.ApplySwap | TravelBuddy/server/routes.ts:53-64 | an unknown itinerary id fails with "not found"; a known one runs the in-memory swap |
| Swap.StoreAfter | TravelBuddy/server/routes.ts:55-75 | the store is unchanged on failure; otherwise only the swapped itinerary's entry is replaced; the key set is kept |
| Swap.SwapSameIsNoOp | TravelBuddy/server/routes.ts:66-73 | swapping in the activity already held, on an unrescaled day with a consistent total, changes nothing |
| Swap.SwapIdempotent | TravelBuddy/server/routes.ts:53-85 | repeating a swap leaves the store as the first swap left it |
| Swap.SwapShiftsTotal | TravelBuddy/server/routes.ts:70-83 | on an unrescaled day, the new itinerary total is the old one plus the reported cost difference |
| Swap.SwapUndoesRescale | TravelBuddy/server/routes.ts:70-83 | in general the total also moves by the day's raw sum minus its stored (possibly rescaled) total |
| LocalStore.SaveFormData | TravelBuddy/client/src/lib/localStorage.ts:14-20 | writes the form key and leaves every other key alone |
| LocalStore.LoadFormData | TravelBuddy/client/src/lib/localStorage.ts:22-30 | returns a form if and only if one is stored under the form key |
| LocalStore.SaveItinerary | TravelBuddy/client/src/lib/localStorage.ts:32-39 | writes the itinerary and sets the current id to the itinerary's id; other keys are untouched |
| LocalStore.LoadItinerary | TravelBuddy/client/src/lib/localStorage.ts:41-49 | returns an itinerary if and only if one is stored |
| LocalStore.SaveChatHistory | TravelBuddy/client/src/lib/localStorage.ts:51-57 | writes the chat key only |
| LocalStore.LoadChatHistory | TravelBuddy/client/src/lib/localStorage.ts:59-67 | an absent key loads as the empty list |
| LocalStore.LoadRatings | TravelBuddy/client/src/lib/localStorage.ts:79-87 | an absent key loads as the empty list |
| LocalStore.SaveRating | TravelBuddy/client/src/lib/localStorage.ts:69-77 | the loaded ratings become the old ones followed by the new rating; other keys are untouched |
| LocalStore.LoadUserActions | TravelBuddy/client/src/lib/localStorage.ts:111-119 | an absent key loads as the empty list |
| LocalStore.KeepLast | TravelBuddy/client/src/lib/localStorage.ts:100-103 | the last min(n, length) elements, as a suffix |
| LocalStore.Stamp | TravelBuddy/client/src/lib/localStorage.ts:91-95 | the logged record carries the given id and timestamp and the caller's type and details |
| LocalStore.LogUserAction | TravelBuddy/client/src/lib/localStorage.ts:89-109 | the log grows by one up to 100 entries; its last entry is the new action; it is the last 100 of the old log plus the action; other keys are untouched |
| LocalStore.LogAllKeepsLast | TravelBuddy/client/src/lib/localStorage.ts:89-109 | after any run of actions, the log is the last 100 of the old log followed by the run, in order |
| LocalStore.KeepLastConcat | TravelBuddy/client/src/lib/localStorage.ts:101-103 | trimming before appending loses nothing the final trim keeps |
| LocalStore.ClearAllData | TravelBuddy/client/src/lib/localStorage.ts:121-138 | removes the six application keys, and only them; other values are kept |
| LocalStore.ClearResetsLoads | TravelBuddy/client/src/lib/localStorage.ts:121-138 | after a clear, every load returns its default and no current id is stored |
| LocalStore.SaveLoadRoundTrips | TravelBuddy/client/src/lib/localStorage.ts:14-67 | loading right after saving returns what was saved (form, itinerary, chat) |
| Scenarios.WaikikiHasNoAlternatives | TravelBuddy/server/data/mockTravelData.ts:6-17 | the free Waikiki beach day has no swap alternatives |
| Scenarios.DiamondHeadAlternatives | TravelBuddy/server/data/mockTravelData.ts:18-29 | the Diamond Head hike's only alternative is the Lyon Arboretum hike |
| Scenarios.DiamondHeadMatches | TravelBuddy/server/data/mockTravelData.ts:587-604 | over the Hawaii catalog, the matcher's answer for Diamond Head is exactly the Lyon Arboretum hike |
| Scenarios.UniformDayCost | TravelBuddy/server/routes.ts:188-208 | when every candidate of each slot costs a fixed amount, every planned day costs their sum, whatever the draw |
| Scenarios.HawaiiTotalMissesBudget | TravelBuddy/server/routes.ts:224-237 | $100 for 30 days in Hawaii comes to 90 after the rescale: still 10% off, so the ±5% comment does not hold |
| Scenarios.HawaiiBuildTotal | TravelBuddy/server/routes.ts:187-237 | that trip plans 30 days and totals 90 whatever the draws |
| Scenarios.TokyoTotalIsNaN | TravelBuddy/server/routes.ts:224-237 | $500 for 7 days in Tokyo plans only free activities, and the source's total is NaN |
| Scenarios.TokyoCorrectedTotal | TravelBuddy/server/routes.ts:224-237 | the corrected rescale gives that trip a total of 0 |
| Scenarios.TokyoBuildTotal | TravelBuddy/server/routes.ts:187-237 | over the Tokyo catalog, that trip plans 7 days and the corrected build totals 0 whatever the draws |
| Scenarios.BrowseLocalMatch | TravelBuddy/server/data/mockTravelData.ts:516 | the market entry's leftmost match is "local" at position 7 |
| Scenarios.DollarDestination | TravelBuddy/server/data/mockTravelData.ts:582 | for a destination named `$&`, the source leaves the market description unchanged |
| Scenarios.FractionalTripLength | TravelBuddy/shared/schema.ts:9 | a trip length of 2.5 is accepted, plans two days, and gives each day 100, two fifths of the budget, because the budget is divided by 2.5 while only two days are planned |
| Scenarios.CaseOnlyDestinationsShareIds | TravelBuddy/server/data/mockTravelData.ts:581 | "Rome" and "ROME" produce the same localised ids |

## Left out

- The HTTP layer is not modelled: Express routing, status codes, JSON bodies and error messages. Each failure becomes an error value.
- The swap route does not validate its body (`routes.ts:53`). The model takes a well-typed slot, day number and activity, and so leaves out what an arbitrary `timeSlot` key or a malformed `newActivity` would do.
- The database or in-memory storage layer (`storage.ts`) is not part of this model. `createItinerary` and `updateItinerary` are abstracted: the id and creation time are inputs to `Generate`, and the swap store is a map.
- `Math.random()`, `Date.now()` and the log's random suffix are inputs, not computed.
- Calendar dates are epoch-day numbers, not ISO `YYYY-MM-DD` strings. The formatting is left out.
- Numbers are exact reals. IEEE-754 rounding, overflow and -0 are not modelled. NaN and ±Infinity are modelled only where the source produces them: the matcher's division by a zero reference (`RelativeDiffWithin`) and the rescale's division by a zero total (`RescaledTotalsAsWritten`).
- Generator.Build: uses the corrected rescale, so a zero pre-scale total gives 0 where the source gives NaN; `Generator.GeneratedTotalAsWritten` states the source's total.
- Generator.Generate: the same corrected rescale, over the destination's catalog.
- Generator.RescaledTotal: its zero-total clause is the corrected rescale's; the source's total is NaN there (`Generator.SourceTotal`).
- Generator.GeneratedTotal: the same zero-total clause, for the corrected build.
- Generator.GeneratedValid: holds of the corrected build only; the source's zero-total itinerary carries NaN totals, which `z.number()` rejects.
- Generator.GenerateValid: the same, for the corrected build over the destination's catalog.
- Schema.ItineraryValid: the numeric fields are reals here, so `z.number()`'s rejection of NaN has no counterpart; only the activity constraints are checked.
- Catalog.ActivitiesFor: fallback descriptions use the literal replacement; for a destination containing `$&`, `$$`, `` $` `` or `$'` the source expands the pattern instead (see Findings).
- Catalog.FallbackEntry: its description clause is the literal replacement, and equals the source's only for destinations without `$`.
- Catalog.LocaliseEntry: the same literal replacement, as the corrected half of the second finding.
- Catalog.Localise: the same literal replacement, for all nine generic entries.
- Alternatives.SwapAlternatives: for a fallback destination containing a `$` pattern, the returned entries carry the literal description, not the source's.
- Look-ups by destination go through a fixed if-chain. JavaScript object prototype keys such as "constructor" are not modelled.
- `toLowerCase` is modelled on ASCII letters only. Other Unicode case mappings are not modelled.
- Browser storage is a map from key to typed value: JSON serialisation is the identity, and a value of another shape loads as the default. Storage exceptions and quota errors, which the source catches and logs, are not modelled.
- LocalStore.SaveRating: when the ratings key holds something other than a ratings list, the model writes a one-element list. The source instead throws on `push` for a non-array JSON value, catches the error and writes nothing, or appends to a foreign array it loaded.
- LocalStore.LogUserAction: the same write-back difference for the actions key: the model writes a fresh log, where the source writes nothing for a non-array JSON value or appends to a foreign array.
- The chat assistant (`services/openai.ts`) and the UI components are not part of this model.

## Findings

| source | as written | input that shows it | evidently intended | confidence | as-written member | corrected member |
|---|---|---|---|---|---|---|
| TravelBuddy/server/routes.ts:224-233 | when the pre-scale total is 0, the variance is 1 > 0.05, so the scale factor is `budget / 0` = Infinity; each free day's total `Math.round(0 * Infinity)` is NaN, and any other day's is ±Infinity, so the total is NaN | budget 500, trip length 7, destination "Tokyo": every pool is empty or free, so all days cost 0 | a trip made only of free activities keeps its zero day totals | not executed | Generator.RescaledTotalsAsWritten (Generator.ZeroTotalGivesNaN, Scenarios.TokyoTotalIsNaN) | Generator.Rescale (Scenarios.TokyoCorrectedTotal) |
| TravelBuddy/server/data/mockTravelData.ts:582 | the destination is passed to `String.prototype.replace` as a replacement pattern, so `$&`, `` $` ``, `$'` and `$$` in the name are expanded | destination "$&": "Browse local vendors and artisan shops" stays unchanged | the destination name is inserted literally | not executed | Text.ReplaceFirstAsWritten (Text.DollarAmpersandKeepsMatch, Scenarios.DollarDestination) | Text.ReplaceFirst |
