# Copilot carbon tracker: calculation core in Dafny

This project models the calculation pipeline of an editor extension that
estimates the carbon footprint of AI code completion. An accepted insertion
of text becomes a token estimate (four characters per token, rounded up).
The tokens become kWh through the per-model energy coefficient, kWh become
grams of CO2 through the grid intensity of the current region, and the grams
are folded into a running `CarbonMetrics` record. Read-only views turn a total
into everyday equivalents (phone charges, car miles, streaming minutes,
trees), daily/hourly/per-suggestion averages and a yearly projection.

Modules, one per source file:

- `Constants` (`constants.dfy`): regional carbon intensity with its global
  fallback, grams per real-world equivalent, token constants, status-colour
  bands and their icons, time units.
- `Models` (`models.dfy`): the fixed registry of 19 models, its lookup and its
  order-preserving filters by provider and by capability tag.
- `Calculator` (`calculator.dfy`): the pure conversions, and the class
  `CarbonCalculator` holding the shared current model and current region.
- `Tracker` (`tracker.dfy`): the counting rule for insertions, the fold of an
  editing event into the totals (`ApplyChanges`), loading from the store, and
  the class `TrackerService`, whose methods update the record in place.
- `Wrappers` (`wrappers.dfy`): `Option`, for values that may be `undefined`.

Quantities are exact: kWh, intensities and grams are `real`, counts and
lengths are `nat`, timestamps are `int` milliseconds. The clock is an explicit
`now` parameter. Region codes are strings looked up in a six-entry map.

Points of detail that the model keeps from the code: `loadMetrics` defaults
only `totalCharacters` (to 0) and the two dates (to now). The other counters
are copied from the stored record unchecked, so `StoredMetrics` requires them.
The dates are replaced when falsy, so a stored date of `0` also becomes now.
CO2 is charged under the model and region active when the change arrives;
`SetModel` never recomputes earlier totals.

## Model

| member | source | states |
|---|---|---|
| `Constants.CarbonIntensity` | src/config/constants.ts:101-106 | the table value for a recognised region code; 0.429 for an absent or unrecognised code; always positive |
| `Constants.RegionIntensitiesPositive` | src/config/constants.ts:7-14 | every regional intensity is strictly positive |
| `Constants.GlobalRegionIsFallback` | src/config/constants.ts:5-16 | the `GLOBAL` entry and the default region give the same intensity as no region at all |
| `Constants.UnknownRegionFallsBack` | src/config/constants.ts:101-106 | any code outside the table gets the same intensity as no region, 0.429 |
| `Constants.ComparisonValue` | src/config/constants.ts:29-66 | the grams per unit of every equivalent are strictly positive, so every division by them is defined |
| `Constants.UIColor` | src/config/constants.ts:112-120 | green iff below 10 g, yellow iff in [10, 50), red iff 50 g or more |
| `Constants.UIColorMonotone` | src/config/constants.ts:112-120 | a larger amount never gets a less severe colour |
| `Constants.UIColorBoundaries` | src/config/constants.ts:68-71 | 9 g green, 10 g yellow, 49.9 g yellow, 50 g red |
| `Constants.UIEmoji` | src/config/constants.ts:122-129 | seedling iff green band, yellow circle iff yellow band, red circle iff red band |
| `Constants.ColorEmojiInjective` | src/config/constants.ts:122-129 | the three colours have three distinct icons |
| `Constants.TimeUnitsConsistent` | src/config/constants.ts:83-88 | a day is 24 hours, a week 7 days, a year 365 days |
| `Models.AllModelIdsEnumerate` | src/config/models.ts:1-25 | the declaration-order list has 19 identifiers, contains every model, and has no repeats |
| `Models.ModelIndex` | src/config/models.ts:1-25 | each model's declaration position, inverse to indexing the declaration-order list |
| `Models.GetModelSpec` | src/config/models.ts:46-280 | the spec found under a model carries that model as its id, a positive energy coefficient and a positive token average |
| `Models.DefaultModelSpec` | src/config/models.ts:95-105 | the default model is GPT-4o, at 0.0010 kWh per 1000 tokens |
| `Models.AllModels` | src/config/models.ts:286-288 | exactly 19 specs, the i-th being the spec of the i-th declared model, every model's spec present |
| `Models.Filter` | src/config/models.ts:282-293 | the filtered list is a subsequence of the input, holds only kept elements, and holds each kept element as often as the input does |
| `Models.GetModelsByProvider` | src/config/models.ts:282-284 | a subsequence of the registry holding exactly the specs of that provider |
| `Models.GetModelsByFeature` | src/config/models.ts:290-293 | a subsequence of the registry holding exactly the specs whose features contain the tag |
| `Models.ProviderGroupsPartition` | src/config/models.ts:27-32 | for any spec list, the four provider groups together are a permutation of it |
| `Models.ProvidersPartitionRegistry` | src/config/models.ts:282-288 | the four provider lists of the registry together are a permutation of the whole registry |
| `Calculator.EstimateTokens` | src/utils/carbonCalculator.ts:58-60 | the token count t is the ceiling of length/4: length <= 4t < length + 4 |
| `Calculator.EstimateTokensExamples` | src/utils/carbonCalculator.ts:58-60 | "" gives 0, "1234" gives 1, "12345" gives 2 |
| `Calculator.SuggestionLengthBoundary` | src/utils/carbonCalculator.ts:62-64 | a suggestion needs at least 11 characters: 10 is rejected, 11 accepted |
| `Calculator.Co2Grams` | src/utils/carbonCalculator.ts:50-56 | grams equal tokens times coefficient times intensity once the factors of 1000 cancel |
| `Calculator.Co2Additive` | src/utils/carbonCalculator.ts:50-56 | grams are additive in tokens |
| `Calculator.Co2Monotone` | src/utils/carbonCalculator.ts:50-56 | with non-negative coefficients, grams are non-negative and grow with tokens |
| `Calculator.Co2OfThousandTokens` | src/utils/carbonCalculator.ts:50-56 | 1000 tokens cost coefficient times intensity times 1000 grams, for every model and region |
| `Calculator.CarbonCalculator.constructor` | src/utils/carbonCalculator.ts:23-28 | the shared state starts at the default model and the GLOBAL region |
| `Calculator.CarbonCalculator.SetModel` | src/utils/carbonCalculator.ts:30-32 | the current model becomes the argument; the region is kept |
| `Calculator.CarbonCalculator.GetCurrentModel` | src/utils/carbonCalculator.ts:34-40 | returns the current model with the description of its registry entry |
| `Calculator.CarbonCalculator.SetRegion` | src/utils/carbonCalculator.ts:42-44 | the current region becomes the argument; the model is kept |
| `Calculator.CarbonCalculator.CurrentCarbonIntensity` | src/utils/carbonCalculator.ts:46-48 | the intensity of the current region with the global fallback, always positive |
| `Calculator.CarbonCalculator.CalculateCO2` | src/utils/carbonCalculator.ts:50-56 | tokens times the coefficient of the given model (the current one when omitted) times the current region's intensity, never negative |
| `Calculator.GetModelEnergy` | src/utils/carbonCalculator.ts:162-165 | the registry coefficient of the model, positive |
| `Calculator.GetAvailableModels` | src/utils/carbonCalculator.ts:153-160 | one picker entry per model in registration order, with name, description and provider taken from its spec |
| `Calculator.GetComparisons` | src/utils/carbonCalculator.ts:66-86 | each of the seven equivalents, multiplied by its grams per unit (per hour for the minute counts, times 60), gives back the amount |
| `Calculator.GetPrimaryComparison` | src/utils/carbonCalculator.ts:88-105 | exactly one bucket by the thresholds 1, 10, 100, 500 g with inclusive lower bounds; the shown number converts back to the amount |
| `Calculator.PrimaryComparisonMonotone` | src/utils/carbonCalculator.ts:88-105 | a larger amount never falls in an earlier bucket |
| `Calculator.AveragePer` | src/utils/carbonCalculator.ts:113-114 | dividing by elapsed time floored at a minimum: the exact rate above the floor, total over the floor below it, bounded by total over the floor |
| `Calculator.CalculateAverages` | src/utils/carbonCalculator.ts:107-123 | the daily and hourly rates over the elapsed time, with at least 1 day and 0.1 hour counted, so daily <= total and hourly <= 10 * total; per suggestion 0 with none accepted, else total / accepted |
| `Calculator.AveragesTwoDaysExample` | src/utils/carbonCalculator.ts:113-117 | 100 g over two days gives a daily average of 50 g |
| `Calculator.ProjectYearly` | src/utils/carbonCalculator.ts:125-151 | yearly grams are 365 times the daily average, kilograms are grams / 1000, the equivalent is chosen by the 1 kg and 10 kg thresholds and converts back to the yearly grams |
| `Calculator.FormatCO2` | src/utils/carbonCalculator.ts:167-173 | the number shown is the amount in grams, or the amount / 1000 in kilograms |
| `Calculator.IsLikelyAISuggestion` | src/utils/carbonCalculator.ts:62-64 | a length is taken for a suggestion exactly when it is at least 11, the minimum length plus one; such a text is longer than two tokens' worth of characters |
| `Tracker.Counts` | src/services/trackerService.ts:17 | a change is charged exactly when its length passes the suggestion heuristic and it replaces nothing; a charged change is worth at least three tokens |
| `Tracker.RecordChange` | src/services/trackerService.ts:17-25 | a change that is not charged leaves the record as it was; a charged one adds its estimated tokens, its characters, one accepted suggestion and the grams of its tokens, and sets the last-update date to now; the shown count, session count and start date never change |
| `Tracker.ApplyChanges` | src/services/trackerService.ts:15-29 | the changes of one event, taken in order, leave the shown count, session count and start date alone, never lower tokens or characters, and add at most one accepted suggestion per change |
| `Tracker.SaveMetrics` | src/services/trackerService.ts:121-123 | the written record has every optional field present, and loading it back at any time gives the same counters and character count |
| `Tracker.CountsExamples` | src/services/trackerService.ts:17-18 | 11 inserted characters count; 9 do not; 20 characters replacing text do not |
| `Tracker.ApplyChangesTotals` | src/services/trackerService.ts:16-31 | after an event each total is its old value plus the sum over the counted changes; shown count, sessions and start date unchanged; last update is now iff something counted |
| `Tracker.ApplyChangesMonotone` | src/services/trackerService.ts:22-25 | tokens, grams, characters and accepted count never decrease |
| `Tracker.UncountedChangesIgnored` | src/services/trackerService.ts:17-18 | an event with no counted change leaves the record exactly as it was |
| `Tracker.ApplyChangesConcat` | src/services/trackerService.ts:16-31 | processing changes in one event or split over two events gives the same record |
| `Tracker.LoadMetrics` | src/services/trackerService.ts:97-119 | no stored record gives the zero record dated now; a stored record keeps its counters, a missing character count becomes 0, a missing or zero date becomes now |
| `Tracker.SaveLoadRoundTrip` | src/services/trackerService.ts:97-123 | a saved record with non-zero dates loads back unchanged |
| `Tracker.LegacyRecordLoads` | src/services/trackerService.ts:100-106 | a stored record without a character count loads with 0 characters, its tokens, grams, sessions, accepted and shown counts as stored, and now for a missing start or last-update date |
| `Tracker.LoadModelPreference` | src/services/trackerService.ts:125-134 | the stored model when there is one, otherwise the default model |
| `Tracker.TrackerService.constructor` | src/services/trackerService.ts:11-14 | the service starts from the loaded metrics and model preference, and the calculator is set to that model |
| `Tracker.TrackerService.TrackTextChange` | src/services/trackerService.ts:16-31 | the new record is the fold of the event's changes over the old one; totals grow by the counted tokens, characters, count and their grams; shown count, sessions and start date unchanged |
| `Tracker.TrackerService.TrackSuggestionShown` | src/services/trackerService.ts:33-36 | only the shown count changes, by one |
| `Tracker.TrackerService.GetMetrics` | src/services/trackerService.ts:38-40 | returns the current record |
| `Tracker.TrackerService.GetAcceptanceRate` | src/services/trackerService.ts:42-47 | 0 with nothing shown, else accepted / shown * 100; between 0 and 100 when accepted <= shown |
| `Tracker.TrackerService.ResetMetrics` | src/services/trackerService.ts:49-61 | every counter, sessions included, is 0 and both dates are now |
| `Tracker.TrackerService.IncrementSession` | src/services/trackerService.ts:63-66 | only the session count changes, by one |
| `Tracker.TrackerService.SetModel` | src/services/trackerService.ts:68-72 | the service and the calculator both switch model; the metrics are not recomputed |
| `Tracker.TrackerService.GetCurrentModel` | src/services/trackerService.ts:74-76 | returns the service's model |
| `Tracker.TrackerService.GetDaysSinceStart` | src/services/trackerService.ts:78-82 | elapsed days, but never below 0.01 |
| `Tracker.TrackerService.ExportMetrics` | src/services/trackerService.ts:84-95 | the export holds the record, its averages and equivalents, the calculator's model with its description, and the export time |
| `Tracker.AveragesAfterReset` | src/services/trackerService.ts:49-61 | right after a reset every average is 0 |

## Left out

- Host glue in `src/extension.ts` and `src/ui/statsPanel.ts`: activation, event subscription, status bar, quick pick, dialogs, webview templating and file writes. The status-bar icon rule is `Constants.UIEmoji`.
- Persistence writes: `saveMetrics` and the `globalState.update` of the model preference are fire-and-forget and not modelled. The store enters only as the optional records the constructor loads; `Tracker.SaveMetrics` gives the shape of what is written.
- Text formatting: `toFixed`, `toLocaleString`, `formatTokens`, the strings around comparisons, and the JSON and ISO-8601 serialisation of an export. The model keeps the numbers and the bucket choice only.
- IEEE-754 rounding: all arithmetic is exact, so binary representation error in constants such as 0.0004 is not captured.
- Clock reads: each operation takes one `now`, where the code may read the clock more than once within one synchronous call, so two readings can differ by a millisecond. `Tracker.TrackerService.TrackTextChange` reads it once per counted change; `Tracker.TrackerService.ResetMetrics` reads it for the start date and again for the last-update date; `Tracker.LoadMetrics` reads it separately for each defaulted date; `Tracker.TrackerService.ExportMetrics` reads it in the averages and again for the export date.
- Text length: the model counts Dafny characters (Unicode scalar values), while JavaScript counts UTF-16 code units; the two differ only for characters outside the Basic Multilingual Plane.
- `Constants.CarbonIntensity`: the table is a map of the six region codes. JavaScript's `in` also finds inherited property names such as `toString`, which the typed callers never pass; that case is not modelled.
- `Tracker.LoadModelPreference`: the stored preference is taken to be a registered model identifier, as its declared type says; a stored string naming no model is not modelled.
- `Tracker.LoadMetrics`: a stored record lacking one of the five counters the code copies unchecked is outside the model (JavaScript would load it as `undefined`); so is a `NaN` in a defaulted field.
- Identifier strings: `Models.AIModel` and `Models.ModelProvider` are enumerations of abstract constructors, without the string values the code stores under the `ai-model` key and passes between the picker and the calculator. Their distinctness is what the model uses; the spelling of each identifier is not modelled.
- `Calculator.CarbonCalculator.CalculateCO2`: token counts are natural numbers, which is what every caller passes; fractional token counts are not modelled.
