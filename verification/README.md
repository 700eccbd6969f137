# Airline candidate-evaluation generators, modelled in Dafny

This project models the decision logic of the airline data generators. The
generators produce, per airline, flight-candidate rows, minimum monthly
operation counts, connected-airport slot capacities and a TypeScript
round-trip scorer:

- **Candidate data.** The flight time of a route comes from its distance,
  rounded to half-hours and memoised per ordered airport pair. A fixed price
  range gives a 1000-yen price grid. For each grid price the demand (floored at
  10 passengers) and the revenue `price × demand` are computed, and the first
  price with the highest revenue is chosen. The optimal demand selects an
  operating scale and a personnel index. Routes are generated as international
  pairs (out of Japan and back) followed by domestic routes.
- **Minimum operations.** A route's popularity combines a distance table, a
  business-route bonus, brand and base demand. Its strategic weight combines
  brand, route focus and small-airline boosts. Both are clamped to [0, 1] and
  move an interval `[base_min, base_max]`, from which the monthly minimum is
  drawn.
- **Airport schedule.** Each airport has thirty half-hour slots from 07:00 to
  22:00. A slot's count comes from a base capacity drawn from the airport's
  (min, max) range. Peak hours get one more; other hours get one less, but
  never fewer than 1. Rows are one per airport and day. The month length is
  read back from the candidate files' date labels.
- **Round-trip normalizer.** Each airline gets two weights derived from its
  profile, a "resource abundance" score clamped into a waste weight in
  [0.10, 0.30], plus a description string. The generated scorer computes the
  ground gap between an outbound and an inbound flight, scores it in four
  bands, and mixes that score with the mean priority index into a rounded
  0–100 score.

Everything is modelled with pure functions over `int`, `real` and `string`.
Each `np.random` draw is a `draw: nat` parameter. `Common.Draw` maps it onto the
drawn range, and `Common.DrawCoversRange` shows that every value of the range
can be drawn. The demand curve `price ↦ demand` is an arbitrary `int -> int`
function, so the optimizer's properties hold for any price elasticity. The
great-circle distance is a function parameter.

Modules: `Common` (option, clamp, rounding, draws), `Text` (decimal parsing and
printing, split/replace), `Profiles` (the airline_08 and airline_02 profiles),
`FlightTime`, `Demand`, `Pricing`, `OperationScale`, `Routes`,
`MinimumOperations`, `AirportSchedule`, `WeightDerivation` and
`RoundTripScorer`.

The written description of the price optimizer says the grid runs up to
`max_price + 1000`. The code calls `np.arange(min_price, max_price + 1000,
1000)`, and `np.arange` excludes its stop value, so the grid ends at
`max_price`. The model follows the code (`Pricing.PriceGridShape`).

## Model

| member | source | states |
|---|---|---|
| Common.Clamp | scripts/generate_minimum_operations.py:145 | `max(lo, min(hi, x))` lies in [lo, hi], is x inside the interval and the nearer end outside it |
| Common.ClampMonotone | scripts/generate_round_trip_normalizers.py:43-44 | clamping keeps the order of two values |
| Common.RoundHalfEven | scripts/generate_candidate_data.py:146 | Python `round`: within 0.5 of x, and an exact half goes to the even neighbour |
| Common.RoundHalfEvenMonotone | scripts/generate_candidate_data.py:146 | Python `round` is monotone |
| Common.RoundHalfUp | output/airline_08/analytics_data/round_trip_priority_normalizer.ts:104 | `Math.round`: the integer r with r − 0.5 ≤ x < r + 0.5, so halves go up |
| Common.RoundThousandths | scripts/generate_round_trip_normalizers.py:49 | `round(x, 3)` is within 0.0005 of x |
| Common.Draw | scripts/generate_minimum_operations.py:280 | `randint(lo, hi + 1)` yields a value in [lo, hi] |
| Common.DrawCoversRange | scripts/generate_minimum_operations.py:280 | every value of [lo, hi] is produced by some draw, so the support is the whole range |
| Text.DigitChar | scripts/generate_candidate_data.py:88 | a digit below 10 renders as a digit character whose value is that digit |
| Text.ParseNat | scripts/generate_candidate_data.py:282 | `int(s)` succeeds exactly on a non-empty run of decimal digits |
| Text.NatToString | scripts/generate_candidate_data.py:567 | `f"{n}"` is a non-empty run of digits |
| Text.DigitsValueOfNatToString | scripts/generate_candidate_data.py:567 | the digits `f"{n}"` writes have the value n |
| Text.ParseNatToString | scripts/generate_candidate_data.py:282 | `int(f"{n}")` gives n back |
| Text.Pad2 | scripts/generate_candidate_data.py:88 | `%02d` gives two digits |
| Text.ParsePad2 | scripts/generate_candidate_data.py:88 | `int` of a `%02d` rendering gives the number back |
| Text.FormatHHMM | scripts/generate_airport_schedule_data.py:151-156 | `HH:MM` has five characters with the colon third |
| Text.Split | scripts/generate_candidate_data.py:267 | `split` always yields at least one part |
| Text.SplitNoSeparator | scripts/generate_candidate_data.py:267 | splitting `a + sep + b` with sep absent from a yields a then the parts of b |
| Text.SplitWhole | scripts/generate_candidate_data.py:267 | a string without the separator splits into itself alone |
| Text.ReplaceAbsent | scripts/generate_candidate_data.py:282 | replacing a character that does not occur changes nothing, in both the Python and the JavaScript `replace` |
| Text.StripSuffixChar | output/airline_08/analytics_data/round_trip_priority_normalizer.ts:52-53 | removing the unit character from `"{n}<c>"` leaves `"{n}"`, for both `replace` semantics |
| Text.JsNumber | output/airline_08/analytics_data/round_trip_priority_normalizer.ts:29 | JavaScript `Number` is 0 on the empty string and the decimal value otherwise, a failure being NaN |
| Text.LeadingDigits | output/airline_08/analytics_data/round_trip_priority_normalizer.ts:52 | the longest digit prefix: all digits, a prefix, and followed by a non-digit when shorter |
| Text.ParseLeadingInt | output/airline_08/analytics_data/round_trip_priority_normalizer.ts:52 | `parseInt` is NaN exactly when the string does not start with a digit |
| Text.LeadingDigitsOfDigits | output/airline_08/analytics_data/round_trip_priority_normalizer.ts:52 | on a run of digits the digit prefix is the whole string |
| FlightTime.Distance | scripts/generate_candidate_data.py:112-129 | the great-circle distance when both airports have coordinates, else the 1000 km fallback |
| FlightTime.FlightMinutes | scripts/generate_candidate_data.py:143-152 | the flight time is a multiple of 30 in [30, 480] |
| FlightTime.FlightMinutesNearest | scripts/generate_candidate_data.py:143-146 | inside the clamp the result is within 15 minutes of distance / 800 km/h |
| FlightTime.FlightMinutesMonotone | scripts/generate_candidate_data.py:143-152 | a longer distance never gives a shorter flight |
| FlightTime.DefaultDistanceFlightMinutes | scripts/generate_candidate_data.py:114-115 | an airport without coordinates gives a 60-minute flight (2.5 half-hours rounds to even) |
| FlightTime.CachedFlightTime | scripts/generate_candidate_data.py:131-157 | a hit returns the stored value with the cache unchanged; a miss computes, stores and returns; a valid cache stays valid |
| FlightTime.RepeatLookupHits | scripts/generate_candidate_data.py:134-136 | a second lookup of the same ordered key returns the same minutes and leaves the cache unchanged |
| FlightTime.ReverseKeyIsSeparate | scripts/generate_candidate_data.py:134 | caching (a, b) does not answer (b, a) |
| FlightTime.FlightTimesFor | scripts/generate_candidate_data.py:131-157 | times for a sequence of routes threading the memo: old entries kept, new entries only for asked keys, each time equal to the cached value |
| Demand.TimeMultiplierBand | scripts/generate_candidate_data.py:265-277 | hours 8, 9, 17–19 draw from [1.1, 1.3], hours 7 and 22 from [0.7, 0.9], the rest from [0.9, 1.1] |
| Demand.TimeMultiplierBandFor | scripts/generate_candidate_data.py:265-277 | a band exists exactly when the hour before the colon parses; its value is given by `Demand.DepartureBand` |
| Demand.DepartureBand | scripts/generate_candidate_data.py:265-277 | every generated departure time parses back to its hour 7 + i/2 and gets that hour's band |
| Demand.BandsOrdered | scripts/generate_candidate_data.py:269-277 | shoulder bands lie below ordinary bands, which lie below peak bands |
| Demand.Truncate | scripts/generate_candidate_data.py:255 | `int(x)` truncates toward zero |
| Demand.TruncateMonotone | scripts/generate_candidate_data.py:255 | truncation keeps order |
| Demand.TruncateMonotone3 | scripts/generate_candidate_data.py:255 | truncation keeps the order of three values |
| Demand.FocusFor | scripts/generate_candidate_data.py:246-249 | international routes use the international focus, every other type the domestic focus |
| Demand.DemandScaleNonnegative | scripts/generate_candidate_data.py:255 | non-negative demand, brand and focus give a non-negative scale |
| Demand.TruncatedProductWithinBand | scripts/generate_candidate_data.py:255 | a multiplier inside its band gives a truncated demand between those of the band's ends |
| Demand.BaselineTruncatesProduct | scripts/generate_candidate_data.py:255 | the baseline is the non-negative product rounded down |
| Demand.BaselineWithinBand | scripts/generate_candidate_data.py:236-277 | a drawn multiplier gives a baseline between the baselines at the band's ends |
| Pricing.GetPriceRange | scripts/generate_candidate_data.py:279-299 | domestic is (10000, 30000); otherwise (15000, 35000) up to 120 min, (20000, 45000) up to 240, else (25000, 50000); always min < max on 1000 steps |
| Pricing.PriceRangeGrowsWithFlightTime | scripts/generate_candidate_data.py:288-297 | a longer flight never lowers either end; domestic ranges do not depend on flight time |
| Pricing.PriceRangeForLabel | scripts/generate_candidate_data.py:282 | the range of a `"N分"` label exists exactly when the label without `分` parses as an integer |
| Pricing.PriceRangeForLabelRoundTrip | scripts/generate_candidate_data.py:567 | the label the generator writes reads back to the range of its minutes |
| Pricing.ArangeShape | scripts/generate_candidate_data.py:309 | `np.arange` yields start + i·step for every i, stops below stop, and reaches stop |
| Pricing.PriceGridShape | scripts/generate_candidate_data.py:309 | the grid is min, min+1000, …, max, of length (max−min)/1000+1, and max+1000 is not in it |
| Pricing.TableGridsAreExact | scripts/generate_candidate_data.py:279-309 | every table range gives a grid from its min to its max in 1000 steps |
| Pricing.DemandAt | scripts/generate_candidate_data.py:317-318 | demand is the curve's value floored at 10 |
| Pricing.FirstArgmaxUnique | scripts/generate_candidate_data.py:323 | there is only one first maximum |
| Pricing.Argmax | scripts/generate_candidate_data.py:323 | `np.argmax` returns a maximum with no maximum before it |
| Pricing.OptimalIsUnique | scripts/generate_candidate_data.py:316-326 | on an increasing grid the optimum is determined by the demand curve |
| Pricing.RevenueLowerBound | scripts/generate_candidate_data.py:316-320 | a price of at least 10000 with the demand floor earns at least 100000 |
| Pricing.CalculateOptimalRevenue | scripts/generate_candidate_data.py:301-326 | the result is a grid price with its floored demand and revenue price × demand, no grid price earns more, no earlier one earns as much, and revenue is at least 100000 |
| OperationScale.SelectScale | scripts/generate_candidate_data.py:346-351 | large iff offered and demand > 300; medium iff offered, demand > 150 and large not chosen; else small |
| OperationScale.SelectScaleMonotone | scripts/generate_candidate_data.py:346-351 | for a fixed offered set the tier is non-decreasing in demand |
| OperationScale.FirstFit | scripts/generate_candidate_data.py:373-375 | the first bucket whose capacity covers the demand |
| OperationScale.PersonnelIndex | scripts/generate_candidate_data.py:371-376 | the index of the first covering bucket, or the last bucket's when none covers; defined on every non-empty table |
| OperationScale.FirstFitMonotone | scripts/generate_candidate_data.py:373-375 | on an ascending table more demand never fits an earlier bucket |
| OperationScale.PersonnelIndexMonotone | scripts/generate_candidate_data.py:371-376 | on an ascending table more demand never needs a smaller index |
| OperationScale.DetermineOperationScale | scripts/generate_candidate_data.py:340-369 | the assignment copies the selected scale's seats, minimum revenue, crew, turnaround times and personnel index; a missing scale is an error |
| OperationScale.WeightedResourcesPositive | scripts/generate_candidate_data.py:393-397 | the 5:3:2 resource weight is at least 5 and grows with each resource |
| Routes.MirrorInvolution | scripts/generate_candidate_data.py:207-216 | swapping the ends of a route twice gives it back |
| Routes.InternationalCount | scripts/generate_candidate_data.py:194 | `int(route_count * 0.6)` never exceeds the route count |
| Routes.InternationalPairs | scripts/generate_candidate_data.py:195-218 | each draw adds an outbound route from Japan followed by its mirror |
| Routes.GenerateRoutes | scripts/generate_candidate_data.py:182-231 | route_count + int(route_count·0.6) routes: mirrored international pairs out of Japan, then domestic routes with distinct Japanese endpoints |
| Routes.PairFiledApart | scripts/generate_candidate_data.py:617-624 | the outbound route is filed as an international departure and its mirror as an international arrival into Japan |
| Routes.RandomMonthAndDays | scripts/generate_candidate_data.py:90-110 | a month 1–12 with its length from the table, 28, 30 or 31 |
| Routes.MonthTableComplete | scripts/generate_candidate_data.py:90-104 | the month table has exactly the twelve months |
| Routes.DepartureTimes | scripts/generate_candidate_data.py:84-88 | 32 departure times; the i-th is hour 7 + i/2 and minute 0 or 30 by the parity of i, each `%02d`, as the nested hour/minute loops produce them |
| Routes.LastDepartureTime | scripts/generate_candidate_data.py:86-88 | the last departure time is 22:30 |
| MinimumOperations.KeyInjective | scripts/generate_minimum_operations.py:179 | `"dep-arr"` determines the pair when the names contain no dash |
| MinimumOperations.Lookup | scripts/generate_minimum_operations.py:180-190 | a key is found exactly when some entry has it |
| MinimumOperations.DistancePopularity | scripts/generate_minimum_operations.py:147-193 | the forward key's value (domestic table first, then international) when it is listed, otherwise the reverse key's, otherwise 0.6; always in [0.6, 0.95] |
| MinimumOperations.TablesWellFormed | scripts/generate_minimum_operations.py:153-177 | no airport name has a dash and no route is listed with its reverse |
| MinimumOperations.TablesListEachPairOnce | scripts/generate_minimum_operations.py:153-177 | each (departure, arrival) pair is listed at most once, and never in both tables |
| MinimumOperations.FoundMeansListed | scripts/generate_minimum_operations.py:179-183 | a key found in a table names a listed (departure, arrival) pair |
| MinimumOperations.LookupListed | scripts/generate_minimum_operations.py:179-183 | looking up a listed pair's key finds that entry's popularity |
| MinimumOperations.LookupUnlisted | scripts/generate_minimum_operations.py:179-183 | looking up the key of a pair a table does not list finds nothing |
| MinimumOperations.DistancePopularitySymmetric | scripts/generate_minimum_operations.py:179-193 | distance popularity is the same in both directions |
| MinimumOperations.ListedDomesticPopularity | scripts/generate_minimum_operations.py:153-193 | every domestic entry's popularity is the route's popularity in both directions |
| MinimumOperations.ListedInternationalPopularity | scripts/generate_minimum_operations.py:164-193 | every international entry's popularity is the route's popularity in both directions |
| MinimumOperations.UnlistedPopularity | scripts/generate_minimum_operations.py:179-193 | a route listed in neither table in either direction gets 0.6 |
| MinimumOperations.PopularRouteBonus | scripts/generate_minimum_operations.py:195-211 | 0.2 exactly when `"dep-arr"` is a business route, else 0 |
| MinimumOperations.BusinessListClosedUnderReversal | scripts/generate_minimum_operations.py:198-206 | every business route is listed with its reverse |
| MinimumOperations.BonusOneWay | scripts/generate_minimum_operations.py:195-211 | a route with the bonus has a reverse with the bonus |
| MinimumOperations.PopularRouteBonusSymmetric | scripts/generate_minimum_operations.py:195-211 | the bonus is the same in both directions |
| MinimumOperations.DemandFactor | scripts/generate_minimum_operations.py:136 | `min(base_demand / 150, 1)` is at most 1, non-negative for non-negative demand, and exact up to 150 |
| MinimumOperations.RoutePopularity | scripts/generate_minimum_operations.py:117-145 | popularity is clamped to [0, 1] |
| MinimumOperations.RoutePopularitySymmetric | scripts/generate_minimum_operations.py:117-145 | a route and its mirror are equally popular |
| MinimumOperations.PopularityCeiling | scripts/generate_minimum_operations.py:138-145 | with brand ≤ 1 popularity never exceeds 0.775, so the > 0.9 tiers are never reached |
| MinimumOperations.SizeStrategy | scripts/generate_minimum_operations.py:229-233 | the +0.2 size term applies exactly to domestic routes with brand < 0.4 |
| MinimumOperations.CompetitiveStrategy | scripts/generate_minimum_operations.py:235-239 | the +0.1 competitive term applies exactly to domestic routes with brand < 0.5 |
| MinimumOperations.StrategicWeight | scripts/generate_minimum_operations.py:213-242 | the strategic weight is clamped to [0, 1] |
| MinimumOperations.StrategicBoost | scripts/generate_minimum_operations.py:221-239 | the boost over brand and focus is 0.3, 0.1 or 0 by brand band, and only for domestic routes |
| MinimumOperations.Raise | scripts/generate_minimum_operations.py:270-278 | `min(base_min + k, base_max)` keeps base_min ≤ base_max |
| MinimumOperations.InternationalBounds | scripts/generate_minimum_operations.py:250-278 | 3 ≤ base_min ≤ base_max ≤ 10; base_max is the popularity tier's 10, 8, 7 or 6; base_min starts at the tier's 6, 5, 4 or 3, rises by at most 3, and stays there when no adjustment applies |
| MinimumOperations.DomesticBounds | scripts/generate_minimum_operations.py:288-322 | 4 ≤ base_min ≤ base_max ≤ 18; base_min starts at the tier's 8, 7, 6 or 4, rises by at most 5, and stays there when no adjustment applies |
| MinimumOperations.DomesticUpperEnd | scripts/generate_minimum_operations.py:312-316 | base_max is the tier's 15, 12, 10 or 8, plus 3 exactly for brand < 0.4 with popularity > 0.7 |
| MinimumOperations.InternationalMonthlyOperations | scripts/generate_minimum_operations.py:244-280 | the draw lies in [base_min, base_max] ⊆ [3, 10] |
| MinimumOperations.DomesticMonthlyOperations | scripts/generate_minimum_operations.py:282-324 | the draw lies in [base_min, base_max] ⊆ [4, 18] |
| MinimumOperations.DetermineMinimumOperations | scripts/generate_minimum_operations.py:91-115 | "international" uses the international rule and any other type the domestic rule |
| AirportSchedule.SlotLabel | scripts/generate_airport_schedule_data.py:151-156 | `"HH:MM ~ HH:MM"` from the start to the start plus 30 minutes |
| AirportSchedule.GenerateTimeSlots | scripts/generate_airport_schedule_data.py:143-161 | exactly 30 slots, slot i starting at 07:00 + 30i, every count 0 |
| AirportSchedule.SlotsTileTheDay | scripts/generate_airport_schedule_data.py:143-161 | the first slot starts at 07:00, the last ends at 22:00, and each ends where the next starts |
| AirportSchedule.SlotHourOfLabel | scripts/generate_airport_schedule_data.py:208 | the hour parsed from a slot label is the slot's starting hour |
| AirportSchedule.SlotCapacity | scripts/generate_airport_schedule_data.py:209-212 | peak hours give at most base + 1; other hours at least 1 and at least base − 1; a base in [0, max] gives 1..max+1 |
| AirportSchedule.SlotCapacityForDrawnBase | scripts/generate_airport_schedule_data.py:205-212 | for a base drawn from [min, max] the count is base + 1 at peak, max(base − 1, 1) otherwise, within 1..max+1 |
| AirportSchedule.FirstMatch | scripts/generate_airport_schedule_data.py:165-168 | the first entry from a position on whose key contains the name or is contained in it; none means no entry matches |
| AirportSchedule.GetAirportCapacity | scripts/generate_airport_schedule_data.py:163-171 | the first matching entry's (min, max), else (5, 8); always 1 ≤ min ≤ max |
| AirportSchedule.EmptyNameTakesFirstEntry | scripts/generate_airport_schedule_data.py:163-171 | the empty name is a substring of every key and takes the first entry |
| AirportSchedule.DistinctNames | scripts/generate_airport_schedule_data.py:167 | names whose first characters do not occur in each other do not match |
| AirportSchedule.HanedaCapacity | scripts/generate_airport_schedule_data.py:21-68 | 羽田 gets its own entry's (8, 12) |
| AirportSchedule.GetCountryByAirport | scripts/generate_airport_schedule_data.py:233-250 | each group exactly for its listed airports (松山 and 桃園 in 中国), and その他 exactly for airports on none of the lists |
| AirportSchedule.ClassificationCoversRouteAirports | scripts/generate_airport_schedule_data.py:233-250 | every airport routes are drawn from gets its country's group, never その他 |
| AirportSchedule.DaySlots | scripts/generate_airport_schedule_data.py:200-212 | a day's 30 slots with the given labels and counts from the slot rule |
| AirportSchedule.DaySlotsBounded | scripts/generate_airport_schedule_data.py:200-212 | bases drawn from [min, max] give every count in 1..max+1 |
| AirportSchedule.RowAtIndex | scripts/generate_airport_schedule_data.py:191-223 | position b·days + d − 1 holds airport b's row for day d |
| AirportSchedule.GenerateSchedule | scripts/generate_airport_schedule_data.py:173-231 | exactly one row per (airport, day) for days 1..month_days, airport-major |
| AirportSchedule.RowContents | scripts/generate_airport_schedule_data.py:217-222 | a row carries its airport, the label `"{day}日"`, its group and 30 slots |
| AirportSchedule.LabelDay | scripts/generate_airport_schedule_data.py:130-136 | a day is read only from a cell containing `日`; for such a cell, exactly when what remains after removing every `日` is a non-empty digit run, and then it is that run's value |
| AirportSchedule.MonthDaysFold | scripts/generate_airport_schedule_data.py:125-138 | the running maximum: at least the start and every readable day, and the start or some readable day |
| AirportSchedule.GetMonthDays | scripts/generate_airport_schedule_data.py:115-141 | at least 28 and every readable day, and 28 or one of those days |
| AirportSchedule.DateLabelReadsBack | scripts/generate_airport_schedule_data.py:130-136 | the label `"{day}日"` reads back as day |
| AirportSchedule.CandidateMonthReadsBack | scripts/generate_airport_schedule_data.py:115-141 | a candidate month's last label reads back as its length |
| WeightDerivation.WasteWeightOf | scripts/generate_round_trip_normalizers.py:43-44 | the waste weight lies in [0.10, 0.30] |
| WeightDerivation.UnroundedWeights | scripts/generate_round_trip_normalizers.py:43-47 | waste in [0.10, 0.30], priority in [0.70, 0.90], summing to 1 |
| WeightDerivation.WasteWeightAntitone | scripts/generate_round_trip_normalizers.py:43-44 | more abundance never raises the waste weight |
| WeightDerivation.WasteWeightNonIncreasing | scripts/generate_round_trip_normalizers.py:35-44 | the waste weight is non-increasing in brand, demand, scale count and mean route count |
| WeightDerivation.DefaultsApply | scripts/generate_round_trip_normalizers.py:26-41 | missing keys default to brand 0.5, demand 100, no scales and range (10, 20) |
| WeightDerivation.MissingRouteRangeAveragesFifteen | scripts/generate_round_trip_normalizers.py:28 | a profile without a route-count range uses the average 15 of the default (10, 20) |
| WeightDerivation.ConnectedAirportsIgnored | scripts/generate_round_trip_normalizers.py:22-49 | two profiles that differ only in `connected_airports` get the same weights |
| WeightDerivation.RoundHalfEvenReflect | scripts/generate_round_trip_normalizers.py:49 | rounding half to even commutes with reflection about an even integer |
| WeightDerivation.CalculateWeights | scripts/generate_round_trip_normalizers.py:23-49 | each rounded weight is within 0.0005 of the profile's unrounded weight; the waste weight lies in [0.10, 0.30] and the two still sum to exactly 1 |
| WeightDerivation.RoundedWasteBounds | scripts/generate_round_trip_normalizers.py:44-49 | rounding to 3 places keeps the waste weight in [0.10, 0.30] |
| WeightDerivation.Airline08Weights | scripts/generate_round_trip_normalizers.py:23-49 | airline_08's profile gives (0.241, 0.759) |
| WeightDerivation.SplitJoin | scripts/generate_round_trip_normalizers.py:54 | splitting a `/`-join on `/` gives the parts back when none contains `/` |
| WeightDerivation.SizeDescription | scripts/generate_round_trip_normalizers.py:56-61 | 3 scales are 대형, 2 are 중형, anything else 소형 |
| WeightDerivation.GetAirlineDescription | scripts/generate_round_trip_normalizers.py:51-63 | the id and `" ("`, then the `/`-joined scale part, then `" 규모 보유 - "`, the size word and `")"`; a profile without scales is `"{id} ( 규모 보유 - 소형 항공사)"` |
| WeightDerivation.StripScaleSuffix | scripts/generate_round_trip_normalizers.py:54 | a one-character size word followed by `規模運航` is left as that character |
| WeightDerivation.StrippedScaleKeys | scripts/generate_round_trip_normalizers.py:54 | a list of scale keys (one character followed by `規模運航`) strips to their first characters, in order |
| WeightDerivation.Airline08Scales | scripts/generate_round_trip_normalizers.py:54 | airline_08's scales are described as `中/小` |
| WeightDerivation.Airline08Description | scripts/generate_round_trip_normalizers.py:51-63 | airline_08 is `airline_08 (中/小 규모 보유 - 중형 항공사)`, the header of the generated scorer |
| WeightDerivation.Airline02Scales | scripts/generate_round_trip_normalizers.py:54 | airline_02's scales strip to 大, 中, 小 and are described as `大/中/小` |
| WeightDerivation.Airline02Description | scripts/generate_round_trip_normalizers.py:51-63 | airline_02 is described as a large airline with all three scales |
| WeightDerivation.ScaleDescriptionReadsBack | scripts/generate_round_trip_normalizers.py:54 | for any non-empty scale list whose stripped names contain no `/`, the scale part splits back into the stripped names |
| WeightDerivation.DescriptionReadsBack | scripts/generate_round_trip_normalizers.py:51-63 | the scale part of a description of a profile whose scales are scale keys splits on `/` into the keys' first characters |
| RoundTripScorer.Airline08WeightsDerived | output/airline_08/analytics_data/round_trip_priority_normalizer.ts:44-45 | the scorer's constants are the weights derived from airline_08's profile, and they are valid |
| RoundTripScorer.TimeStringToMinutes | output/airline_08/analytics_data/round_trip_priority_normalizer.ts:28-31 | a number exactly when there are at least two `:`-parts and the first two both read as numbers; NaN otherwise |
| RoundTripScorer.TimeStringOfFormat | output/airline_08/analytics_data/round_trip_priority_normalizer.ts:23-31 | `HH:MM` reads back as HH·60 + MM |
| RoundTripScorer.FourteenThirty | output/airline_08/analytics_data/round_trip_priority_normalizer.ts:24 | "14:30" is 870 minutes |
| RoundTripScorer.DayNumber | output/airline_08/analytics_data/round_trip_priority_normalizer.ts:52-53 | a day exactly when the label, with its first `日` removed, starts with a digit; never negative |
| RoundTripScorer.DayNumberOfLabel | output/airline_08/analytics_data/round_trip_priority_normalizer.ts:52-53 | `"N日"` parses to N |
| RoundTripScorer.GapIsElapsedTime | output/airline_08/analytics_data/round_trip_priority_normalizer.ts:52-75 | the gap is (inDay − outDay)·1440 + (inDep − inPre) − (outDep + outFlight + outPost) |
| RoundTripScorer.GapShiftInvariant | output/airline_08/analytics_data/round_trip_priority_normalizer.ts:71-73 | moving both legs by the same number of days leaves the gap unchanged |
| RoundTripScorer.GapMinutes | output/airline_08/analytics_data/round_trip_priority_normalizer.ts:52-73 | the gap is a number exactly when both days and both departure times read as numbers; NaN otherwise |
| RoundTripScorer.GapHours | output/airline_08/analytics_data/round_trip_priority_normalizer.ts:75 | a number exactly when the gap in minutes is, and then that gap over 60 |
| RoundTripScorer.ResourceWasteScore | output/airline_08/analytics_data/round_trip_priority_normalizer.ts:78-92 | one of 1.0, 0.8, 0.5, 0.2; a NaN gap gets 0.2 |
| RoundTripScorer.WasteBandsInMinutes | output/airline_08/analytics_data/round_trip_priority_normalizer.ts:80-92 | in minutes the bands are ≤ 240, ≤ 480, ≤ 960 and above, each iff |
| RoundTripScorer.WasteBoundary | output/airline_08/analytics_data/round_trip_priority_normalizer.ts:80-85 | 240 minutes scores 1.0 and 241 scores 0.8 |
| RoundTripScorer.WasteScoreNonIncreasing | output/airline_08/analytics_data/round_trip_priority_normalizer.ts:79-92 | a longer gap never scores better; a negative gap scores 1.0 |
| RoundTripScorer.CombinedPriority | output/airline_08/analytics_data/round_trip_priority_normalizer.ts:48-49 | the mean of the two indices over 100, in [0, 1] for indices in [0, 100] |
| RoundTripScorer.FinalScore | output/airline_08/analytics_data/round_trip_priority_normalizer.ts:99-104 | within 0.5 of the weighted mean times 100, halves rounded up |
| RoundTripScorer.FinalScoreInRange | output/airline_08/analytics_data/round_trip_priority_normalizer.ts:99-104 | with weights summing to 1 and inputs in [0, 1] the score lies in 0..100 |
| RoundTripScorer.NormalizeRoundTripPriority | output/airline_08/analytics_data/round_trip_priority_normalizer.ts:39-112 | the result carries the gap, its waste score, the combined priority and the final score of those two under the weights; the score lies in 0..100 for valid weights and indices |
| RoundTripScorer.MalformedTimeStillScores | output/airline_08/analytics_data/round_trip_priority_normalizer.ts:56-92 | a malformed outbound time gives a NaN gap and waste score 0.2 |
| RoundTripScorer.ShorterGapScoresNoLower | output/airline_08/analytics_data/round_trip_priority_normalizer.ts:80-104 | with the same indices a shorter gap never scores lower |

## Left out

- The great-circle (haversine) distance uses floating-point trigonometry. It is a function parameter of `FlightTime.Distance`; only the 1000 km fallback is modelled.
- The priority index is left out apart from its integer resource weight (`OperationScale.WeightedResourcesPositive`). It uses per-process-salted string hashes, trigonometric and logarithmic functions and float rounding.
- The demand curve `int(base_demand * (price / 20000) ** elasticity)` uses float `pow`. It is an arbitrary `int -> int` function in `Pricing`.
- Demand.DemandBaseline: the float product `int(base_demand * brand * focus * multiplier)` is taken over exact reals, so it has no ensures of its own. Its properties are the `Demand` lemmas.
- Routes.GenerateRoutes: the route count is a free `routeCount` input. The generator draws it with `np.random.randint(*route_count_range)` (scripts/generate_candidate_data.py:187), whose upper end is excluded, so airline_08's (15, 25) gives 15..24. A profile without `route_count_range` raises `KeyError` at scripts/generate_candidate_data.py:184, before any route is made. `generate_all_airlines` (scripts/generate_candidate_data.py:682-694) catches the error, so no candidate data is written for such an airline (airline_02, whose `Profiles.Airline02.routeCountRange` is `None`, is one). The model neither bounds `routeCount` nor models that failure.
- Every `np.random` draw is a `draw` parameter: time multipliers, route picks, the month, the slot base capacity and the monthly-operations `randint`. The recommended maximum operations draw (`randint(3, 8)`, `randint(5, 12)`) is not modelled, since nothing else depends on it.
- Profile loading, Excel and JSON reading and writing, pandas assembly and de-duplication, TypeScript file writing, logging and the command-line entry points are not modelled. They are I/O.
- Assembling the candidate row dictionaries and serialising the slot lists to JSON are not modelled. They only copy fields this model computes.
- Weights and scores are exact reals; binary floating point is not modelled. `Common.RoundThousandths` and `Common.RoundHalfUp` round the exact value.
- Common.RoundThousandths: states only the nearness bound, not the ties-to-even choice of Python's decimal rounding.
- Text.ParseNat: Python's `int` also accepts surrounding whitespace, a sign, digit-group underscores and non-ASCII Unicode decimal digits (`int("１２")` is 12). Those inputs are reported as errors here; the generators never write them.
- Text.JsNumber: JavaScript `Number` also trims surrounding whitespace and reads signs, fractions, exponents, hexadecimal and `"Infinity"`. Those inputs are reported as NaN here; the generators never write them. One consequence: the scorer reads `" 14:30"` as 870 minutes, but `RoundTripScorer.TimeStringToMinutes` gives NaN for it, so the gap is NaN and the waste score 0.2.
- Text.ParseLeadingInt: JavaScript `parseInt` also skips leading whitespace, reads a sign and reads a `0x` prefix as hexadecimal. Whitespace and signs give NaN here. A `0x` string gives the leading `0` here (`"0x1A"` is 0, where `parseInt` gives 26). Date labels are always `"{n}日"`.
- RoundTripScorer.TimeStringToMinutes: the contract states when the result is defined. Its value is stated only on the generator's own `HH:MM` strings, by `RoundTripScorer.TimeStringOfFormat`.
- AirportSchedule.GetMonthDays: a candidate file whose `日付` column is empty makes the generator's `iloc[-1]` raise an `IndexError` outside its `try` (scripts/generate_airport_schedule_data.py:131), which ends the run. The model has no exceptions and treats such a file like a missing one.
- AirportSchedule.GetAirportCapacity: the default (5, 8) is stated for names no entry matches. No lemma names a concrete unmatched airport.
- `route_diversity`, `connected_airports` and `price_elasticity` in the profiles feed only the parts left out above.
- The month table ignores leap years, as the generator does.
- The final clamp of the priority index to [0, 100] is not modelled, since the index itself is left out.
