# BYD-stats web core in Dafny

BYD-stats reads the trip and charge records of a BYD car and turns them into
statistics: totals, averages, distance buckets, per-month and per-day series,
top-N lists, trip costs under three price strategies, and a battery health
estimate. This project models the web layer's logic that does this, and the
state that the web app keeps around it, and proves what that logic promises.

The model follows the source file by file, in the Dafny modules under `model/`:

- **Statistics engine** (`TripPricing`, `TripStats`, `TopN`, `ProcessData`,
  `LegacyProcessing`): `src/core/dataProcessing.ts` and its JavaScript twin,
  and the older `src/utils/dataProcessing.js`. The per-trip aggregation is a
  class whose method updates the aggregators in place, as `updateAggregators`
  does; the top-N insertion works on a buffer.
- **Formatting, dates and battery** (`Formatters`, `DateUtils`, `Battery`):
  scores, colours, durations, the percentile, `YYYYMMDD` parsing and printing,
  and the state-of-health and initial-charge estimators of both languages.
- **Stores** (`ChargeStore`, `AppData`, `CarStore`, `AppSettings`): the
  charge list, the trip data and its history, the car list and the settings,
  each as a class whose methods change its fields as the React hooks and
  contexts change their state.
- **Import and sync** (`CsvText`, `TripImport`, `TripMerge`, `ChargeImport`,
  `DriveSync`): the CSV trip parser, `validateFile`, the merge of trips by
  date and start time, the charge-registry parser (the same parser appears in
  `src/hooks/useChargeImporter.js` and in `src/providers/DataProvider.tsx`;
  one model covers both) and the Drive merge and file normalisation.
- **Views** (`TripInsights`, `ChargeInsights`, `RealStats`, `TripLists`,
  `ChargeList`, `EfficiencyTab`, `Trends`): the computations behind the
  insight dialogs, the history and list views and the efficiency and trends
  tabs.
- **Interaction state** (`TabNavigation`, `SwipeGesture`, `ModalState`,
  `ChargeForm`, `MfgDate`, `Layout`): tab selection and the browser history,
  the swipe decision, the dialog flags, the charge form's automatic cost and
  price, the manufacturing-date mask and the layout decisions.
- **Shared helpers** (`Wrappers`, `Records`, `JsText`, `Seqs`,
  `StableSort`, `KeyedMap`): the records, JavaScript string functions
  (`parseFloat`, `parseInt`, `split`, `trim`, `padStart`), filtering, the
  stable `Array.prototype.sort`, and a `Map` that keeps insertion order.

Where a TypeScript file and its JavaScript twin agree, one member models both
and its row cites one of them; where they differ, each version has its own
member, and a lemma relates the two.

Numbers are `real`s, timestamps `int`s, and a missing string is `""`.
`parseFloat`, `parseInt` and the JavaScript `sort` are modelled by functions
of their own (a prefix parser, a stable insertion sort); the clock, locale
formatting, `new Date` parsing and random identifiers are parameters.

## Model

| member | source | states |
|---|---|---|
| DateUtils.Construct | src/core/dateUtils.ts:59 | `new Date(year, month, day)` gives a day exactly when all three numbers are present and name a valid calendar day (no overflow normalisation) |
| DateUtils.ParseDate | src/core/dateUtils.ts:54-60 | `parseDate` is null exactly for a string shorter than 8; otherwise year, month less one and day are `parseInt` of characters 0-3, 4-5 and 6-7 |
| DateUtils.ToDateString | src/core/dateUtils.ts:67-72 | `toDateString` of a day of a four-digit year is eight digits |
| DateUtils.ParseThenFormat | src/core/dateUtils.ts:54-72 | reading a `YYYYMMDD` calendar string and writing the day back gives the same string |
| DateUtils.FormatThenParse | src/core/dateUtils.ts:54-72 | writing a day of the years 1000-9999 and reading it back gives the same day |
| DateUtils.ParsedFields | src/utils/dateUtils.js:41-47 | the older `parseDate` reads an eight-digit string field by field |
| DateUtils.MonthName | src/utils/dateUtils.js:3 | the month table gives the Spanish abbreviation of months 0..11 |
| DateUtils.FormatMonthLegacy | src/utils/dateUtils.js:10-13 | the older `formatMonth` returns a short string as it is, otherwise the month's abbreviation, a space and the year |
| DateUtils.FormatMonthLegacyValid | src/utils/dateUtils.js:10-13 | for a month 01..12 the older `formatMonth` names that month of the table |
| DateUtils.FormatDateLegacy | src/utils/dateUtils.js:20-23 | the older `formatDate` returns a short string as it is, otherwise `DD/MM/YYYY` taken from the right slices |
| DateUtils.FormatDateLegacyInverse | src/utils/dateUtils.js:20-23 | `DD/MM/YYYY` loses nothing: slicing it back gives the original eight characters |
| DateUtils.Capitalize | src/core/dateUtils.ts:19 | the first letter is upper-cased and the rest kept |
| DateUtils.FormatMonth | src/core/dateUtils.ts:12-20 | `formatMonth` returns a short string as it is, otherwise the locale's month text with its first letter capitalised |
| DateUtils.FormatDate | src/core/dateUtils.ts:28-35 | `formatDate` returns a short string as it is, otherwise the locale text of the parsed day |
| DateUtils.FormatTime | src/core/dateUtils.ts:43-47 | `formatTime` is empty for a falsy timestamp, otherwise the locale time of the instant in milliseconds |
| Formatters.Clamp10 | src/core/formatters.ts:16 | the clamp keeps a score within 0..10, leaves in-range values alone and sends values below/above to 0/10 |
| Formatters.Score | src/core/formatters.ts:10-17 | `calculateScore` lies in 0..10, and is 5 for a missing or zero consumption or an empty range |
| Formatters.ScoreEndpoints | src/core/formatters.ts:12-16 | the best value of the range scores 10, the worst 0, the midpoint 5 |
| Formatters.ScoreMonotone | src/core/formatters.ts:15-16 | over an increasing range a higher consumption never scores higher |
| Formatters.ScoreColor | src/core/formatters.ts:24-38 | `getScoreColor` uses blue 0 from score 5 up and blue 41 below |
| Formatters.ScoreColorEndpoints | src/core/formatters.ts:25-37 | the colour scale is green at 10, orange at 5 and red at 0 |
| Formatters.FormatDuration | src/core/formatters.ts:45-53 | `formatDuration` is "0 min" for a falsy input and shows hours only when there is at least one whole hour |
| Formatters.FormatDurationExact | src/core/formatters.ts:47-52 | the hours and minutes shown are the duration rounded down to the minute |
| Formatters.ValidTrips | src/core/formatters.ts:64 | the trips the percentile compares against are exactly those of at least 1 km with non-zero energy |
| Formatters.BetterCount | src/core/formatters.ts:65-66 | the number of better trips never exceeds the number of valid trips |
| Formatters.PercentileAsWritten | src/core/formatters.ts:61-68 | `calculatePercentile` as written: 50 without a trip or without trips; otherwise the rounded share, or NaN (None) when no trip is valid |
| Formatters.PercentileNaNWitness | src/core/formatters.ts:64-67 | a single trip shorter than 1 km makes the written percentile NaN |
| Formatters.Percentile | src/core/formatters.ts:61-68 | the corrected percentile is always in 0..100, is 50 when nothing can be compared, and agrees with the written one wherever that is a number |
| Formatters.FormatNumber | src/core/formatters.ts:76-79 | `formatNumber` prints "0" exactly for a missing number, otherwise the number with the given decimals |
| StableSort.SortBySorted | src/core/dataProcessing.ts:376-377 | the stable sort every `Array.prototype.sort` call stands for returns its input ordered by the comparator and as a permutation of it |
| StableSort.SortedPermutationUnique | src/core/dataProcessing.ts:362 | under a comparator that never ties distinct items, there is only one ordered permutation |
| TopN.DescLeTotalPreorder | src/core/dataProcessing.ts:380-383 | the comparators `(a, b) => key(b) - key(a)` passed to `getTopN` are consistent orders |
| TopN.InsertPrefix | src/core/dataProcessing.ts:47-57 | inserting into a sequence and keeping its first `n` items depends only on those items, which is why a buffer of `n` suffices |
| TopN.InsertIntoBuffer | src/core/dataProcessing.ts:49-56 | the shifting loop places a better item into the sorted buffer exactly where the stable insertion would, and drops the last one |
| TopN.GetTopN | src/core/dataProcessing.ts:41-60 | `getTopN` returns exactly the first `n` items of the stable descending sort of the whole input |
| TopN.TopNStep | src/core/dataProcessing.ts:48-57 | one step of the loop keeps the buffer equal to the top `n` of the prefix read so far |
| TopN.TopNProperties | src/core/dataProcessing.ts:41-60 | the top list has `min(n, length)` items drawn from the input, in descending key order, its first item has the greatest key and no item left out beats the last one kept |
| Battery.NetCapacity | src/core/batteryCalculations.ts:17 | the net capacity is never 0: a non-zero number is kept, 0 or an absent value falls back to 60.48 |
| Battery.Efficiency | src/core/batteryCalculations.ts:45-55 | the charging efficiency used is strictly between 0 and 1: the charger type's own value when in range, else 0.85 for a slow charge and 0.95 otherwise |
| Battery.SpeedClass | src/core/batteryCalculations.ts:60-63 | the speed class is one of the four classes |
| Battery.TallyPartition | src/core/batteryCalculations.ts:41-69 | the four class counts of the tally add up to the number of electric charges, and the charges reaching 99 % are no more than that |
| Battery.Fixed2 | src/core/batteryCalculations.ts:115-125 | `parseFloat(x.toFixed(2))` keeps a non-negative number non-negative |
| Battery.Fixed2Monotone | src/core/batteryCalculations.ts:115-125 | rounding to two places never reverses an order |
| Battery.ChargingStressBounds | src/core/batteryCalculations.ts:77-82 | the charging stress is a weighted mean of the class weights, so between 0.9 and 2.8, and 1.0 without sessions |
| Battery.CalendarDegradation | src/core/batteryCalculations.ts:94-106 | calendar ageing is never negative and is 0 when the manufacturing date does not parse |
| Battery.SeiDrop | src/core/batteryCalculations.ts:88-89 | the SEI drop never exceeds 2 % |
| Battery.CycleDegradationMonotone | src/core/batteryCalculations.ts:84-92 | cycle ageing grows with the thermal stress factor |
| Battery.ClampedSoh | src/core/batteryCalculations.ts:109 | the reported SoH is never negative |
| Battery.CalculateAdvancedSoH | src/core/batteryCalculations.ts:9-127 | the one-pass estimator returns exactly the value of the specification function `AdvancedSoH` |
| Battery.AdvancedSoHJs | src/core/batteryCalculations.js:12-24 | the JavaScript twin's result lacks the charging and thermal stress exactly when there are no charges or no manufacturing date |
| Battery.AdvancedSoHTwins | src/core/batteryCalculations.js:12-122 | the two twins report the same SoH, cycles, stress score, calibration warning and degradation; on the early return the typed twin adds a charging stress of 1 and the thermal factor, which the JavaScript twin leaves out, and elsewhere both carry the same two values |
| Battery.TallyCharges | src/core/batteryCalculations.ts:32-67 | the `forEach` over the electric charges ends with the counters of the specification fold `TallyOf`: sessions per speed class, sessions that reached 99 %, and the efficiency-corrected energy |
| Battery.NoHistoryIsNew | src/core/batteryCalculations.ts:19-29 | without charges or without a manufacturing date the battery is reported as new, with no cycles, no warning and no degradation |
| Battery.SoHBounds | src/core/batteryCalculations.ts:108-126 | the SoH is never negative, the SEI part at most 2, the charging stress within 0.9..2.8, and the calibration warning is on exactly when fewer than a tenth of the sessions reached 99 % |
| Battery.ThermalStressMonotone | src/core/batteryCalculations.ts:84-109 | a harsher climate never raises the estimated SoH |
| Battery.ClampRound | src/core/batteryCalculations.ts:151-152 | the estimated initial charge is a whole percentage within 0..100 |
| Battery.EstimateInitialSoC | src/core/batteryCalculations.ts:136-153 | `estimateInitialSoC` gives a percentage in 0..100 exactly when there is a previous charge with numeric odometer and final percentage, all inputs are non-zero and the distance is positive; otherwise null, never NaN |
| Battery.EstimateInitialSoCJs | src/core/batteryCalculations.js:133-145 | the JavaScript twin agrees with the typed one whenever the previous charge has both numbers, and its percentages are within 0..100 |
| Battery.EstimateExamples | src/core/batteryCalculations.ts:145-152 | 100 km at 15 kWh/100 km on a 60 kWh battery from 80 % leaves 55 %; 200 km from 10 % leaves 0 % |
| TripPricing.StrategyOf | src/core/dataProcessing.ts:97-98 | a strategy name is dynamic exactly for "dynamic", and custom exactly for an empty name or "custom" |
| TripPricing.CustomPrice | src/core/dataProcessing.ts:98-99 | a numeric custom price is used as it is and an absent one is 0 |
| TripPricing.PricedElectric | src/core/dataProcessing.ts:116-121 | each electric charge gets its timestamp and the price per kWh it paid, 0 when no energy was charged |
| TripPricing.PricedFuel | src/core/dataProcessing.ts:123-128 | each fuel charge gets its timestamp and the price per litre it paid, 0 when no fuel was charged |
| TripPricing.TsLeTotalPreorder | src/core/dataProcessing.ts:121 | ordering by timestamp is a consistent comparator |
| TripPricing.PrepareStrategies | src/core/dataProcessing.ts:95-136 | `preparePriceStrategies` keeps the strategies and custom prices of the settings and prepares charges only for a dynamic strategy |
| TripPricing.PrepareStrategiesProperties | src/core/dataProcessing.ts:106-130 | the average prices are total cost over total energy/litres, and the prepared charges are exactly the priced charges in ascending time order |
| TripPricing.LastBefore | src/core/dataProcessing.ts:75-82 | the backward scan stops at the last charge strictly before the trip, and finds none only when every charge is at or after the start |
| TripPricing.GetPriceForTrip | src/core/dataProcessing.ts:63-90 | the scanning method returns exactly the price the specification `PriceAt` assigns |
| TripPricing.ScanBack | src/core/dataProcessing.ts:71-89 | the backward scan returns the effective price of the charge `LastBefore` picks, the newest one strictly before the trip's start, and the custom price when no charge is that early |
| TripPricing.PriceRules | src/core/dataProcessing.ts:63-90 | custom gives the custom price; average gives the average when positive; dynamic gives the price of the latest charge before the start, or the custom price when none precedes it |
| TripPricing.UnknownStrategyIsCustom | src/core/dataProcessing.ts:71-89 | an unknown electricity or fuel strategy name prices like "custom" with that kind's custom price, because only "dynamic" prepares charges |
| TripPricing.CalculateTripCost | src/core/dataProcessing.ts:141-156 | a trip's cost is its energy times the electricity price plus its fuel times the fuel price, the two parts are recorded, and the trip decorated with that cost (`calculatedCost`, `electricCost`, `fuelCost`) is `Decorate` of it |
| TripStats.Above | src/core/dataProcessing.ts:193-196 | a running maximum started at minus infinity is at least every value seen and is one of them |
| TripStats.Below | src/core/dataProcessing.ts:194 | a running minimum started at infinity is at most every value seen and is one of them |
| TripStats.Bucket | src/core/dataProcessing.ts:216-220 | the distance bucket is one of five: the first exactly up to 5 km, the last exactly beyond 50 km |
| TripStats.DaySlot | src/core/dataProcessing.ts:213 | `(getDay() + 6) % 7` puts Sunday last and moves every other day one earlier |
| TripStats.Aggregate | src/core/dataProcessing.ts:160-226 | `updateAggregators` keeps the aggregators well formed (24 hours, 7 weekdays, 5 buckets) |
| TripStats.Step | src/core/dataProcessing.ts:339-357 | one pass of the main loop keeps the aggregators well formed |
| TripStats.Active | src/core/dataProcessing.ts:38 | the valid trips are exactly the trips of at least half a kilometre |
| TripStats.Fold | src/core/dataProcessing.ts:318-357 | the aggregators after the loop are well formed folds over the trips and over the valid trips |
| TripStats.FoldStep | src/core/dataProcessing.ts:339-357 | one pass of the loop takes the folds over a prefix to the folds over one more trip |
| TripStats.ActiveStep | src/core/dataProcessing.ts:354-356 | a valid trip is appended to the valid trips and added to its month, day, hour, weekday, bucket and scatter |
| TripStats.FoldEmpty | src/core/dataProcessing.ts:318-335 | before any trip the folds are the initial aggregators |
| TripStats.Aggregators.constructor | src/core/dataProcessing.ts:318-335 | the aggregators start with zero totals, empty dictionaries and zeroed tables |
| TripStats.Aggregators.Update | src/core/dataProcessing.ts:160-226 | updating the objects in place gives exactly `Aggregate` of the old values |
| TripStats.Aggregators.UpdateTotals | src/core/dataProcessing.ts:171-206 | the running statistics, the month and day dictionaries and the set of dates are updated with the trip, and nothing else |
| TripStats.Aggregators.UpdateTables | src/core/dataProcessing.ts:209-220 | a trip with a start time is counted in its hour and weekday, and every trip in its distance bucket |
| TripStats.Aggregators.ProcessTrip | src/core/dataProcessing.ts:339-357 | the loop body changes the state exactly as `Step` says |
| TripStats.RunAggregation | src/core/dataProcessing.ts:339-357 | the loop over all kept trips leaves exactly `Fold` of them, and every trip, in order, decorated with the cost `CostOf` gives it |
| TripStats.FoldTotals | src/core/dataProcessing.ts:177-190 | total energy is driving plus stationary energy, distance and valid trips split into electric-only and fuel-using, and without valid trips there is no driving time |
| TripStats.FoldHasAnyFuel | src/core/dataProcessing.ts:342 | `hasAnyFuel` is set exactly when some trip, stationary or not, used fuel |
| TripStats.FoldExtremes | src/core/dataProcessing.ts:193-194 | the maximum and minimum distance exist exactly when there are valid trips, bound every valid trip and are reached by one |
| TripStats.BucketTotal | src/core/dataProcessing.ts:216-220 | the five bucket counts add up to the number of valid trips |
| TripStats.HourWeekdayTotals | src/core/dataProcessing.ts:209-214 | each valid trip with a start time is counted in exactly one hour and one weekday |
| TripStats.PeriodKeys | src/core/dataProcessing.ts:199-206 | a month or day dictionary has one entry per key, and a key has one exactly when some trip carries it |
| TripStats.PeriodCounts | src/core/dataProcessing.ts:199-206 | each entry holds its own key and the number of valid trips carrying it |
| TripStats.DateSetIsDays | src/core/dataProcessing.ts:203-205 | the set of active days is exactly the set of days with a daily entry |
| TripStats.ScatterBounds | src/core/dataProcessing.ts:222-225 | every scatter point comes from a trip with positive distance and energy and has a consumption strictly between 0 and 50 kWh/100 km |
| ProcessData.KeptTrips | src/core/dataProcessing.ts:315 | the kept trips are exactly the non-null rows with a numeric, non-negative distance |
| ProcessData.Rate | src/core/dataProcessing.ts:364-365 | a consumption rate is 0 without distance |
| ProcessData.Rows | src/core/dataProcessing.ts:363-367 | each table row keeps its period and gets its label and its two consumption rates |
| ProcessData.FuelTrips | src/core/dataProcessing.ts:383 | the fuel list is drawn from exactly the valid trips that used fuel |
| ProcessData.DaysActive | src/core/dataProcessing.ts:386 | the active days are at least 1 and are the number of distinct dates when there is one |
| ProcessData.CeilDays | src/core/dataProcessing.ts:389 | `Math.ceil(x / 86400)` is the least number of whole days covering `x` seconds |
| ProcessData.TotalDays | src/core/dataProcessing.ts:387-389 | the calendar span is at least 1 day, and with both timestamps present it is the days between them rounded up, plus one |
| ProcessData.SettingNumber | src/core/dataProcessing.ts:245-246 | a numeric setting is used when non-zero, an absent or zero one falls back, and a text one is `parseFloat` of it |
| ProcessData.RangeAt | src/core/dataProcessing.ts:256-267 | an estimated range is never negative and is 0 unless battery and consumption are positive |
| ProcessData.RangeOrder | src/core/dataProcessing.ts:256-267 | the highway range is shorter and the city range longer than the mixed one, or all three are 0 |
| ProcessData.RangeScale | src/core/dataProcessing.ts:256-258 | a range scaled back by the consumption and its factor gives the usable energy times 100 |
| ProcessData.BatteryOf | src/core/dataProcessing.ts:244-267 | without a manufacturing date the SoH is the setting (100 by default) and there is no estimate; with one the estimate is made and, in "calculated" mode, replaces the SoH; the three ranges are ordered or all 0 |
| ProcessData.PerTrip | src/core/dataProcessing.ts:281 | an average per trip is 0 without trips |
| ProcessData.ElectricShare | src/core/dataProcessing.ts:295 | the electric share is 100 % without distance |
| ProcessData.EvModeUsage | src/core/dataProcessing.ts:299 | the EV-mode share is 100 % without trips |
| ProcessData.AvgMinutes | src/core/dataProcessing.ts:282 | the average minutes are 0 without driving time |
| ProcessData.AvgSpeed | src/core/dataProcessing.ts:283 | the average speed is 0 without driving time |
| ProcessData.DateRange | src/core/dataProcessing.ts:286 | the date range is empty exactly when there are no trips |
| ProcessData.SummaryOf | src/core/dataProcessing.ts:270-305 | the summary reports the valid trip count, the active and calendar days and the battery view it is given |
| ProcessData.BatteryPart | src/core/dataProcessing.ts:244-251 | a battery view exists exactly in the TypeScript engine |
| ProcessData.FinalizeSummary | src/core/dataProcessing.ts:231-306 | `finalizeSummary` is the summary figures plus, in the TypeScript engine only, the battery view at the summary's own average consumption |
| ProcessData.RateScale | src/core/dataProcessing.ts:364 | a rate scaled back by the distance gives the quantity times 100 |
| ProcessData.PerTripScale | src/core/dataProcessing.ts:281 | an average per trip times the trips is the total |
| ProcessData.PerDayScale | src/core/dataProcessing.ts:291-292 | an average per active day times the active days is the total |
| ProcessData.SharesAddUp | src/core/dataProcessing.ts:295-296 | the electric and fuel distance shares add up to 100 % |
| ProcessData.EvModeBounds | src/core/dataProcessing.ts:299 | the EV-mode share is within 0..100 % and is 100 % exactly when every trip was electric-only |
| ProcessData.SummaryAverages | src/core/dataProcessing.ts:277-292 | the average consumption, distance per trip, trips per day and distance per day scale back to their totals |
| ProcessData.SummaryShares | src/core/dataProcessing.ts:295-299 | the distance shares add up to 100 %, and the EV-mode share is within 0..100 % and 100 % exactly when no valid trip used fuel |
| ProcessData.ProcessSpec | src/core/dataProcessing.ts:312-405 | `processData` gives null exactly when no row is kept |
| ProcessData.ProcessData | src/core/dataProcessing.ts:312-405 | the method computes exactly `ProcessSpec` of the rows, the prepared price strategies and the clock, and returns every kept trip, in input order, with the cost fields written onto it, each equal to `CostOf` of that trip under the prepared strategies |
| ProcessData.ProcessCounts | src/core/dataProcessing.ts:216-220 | the distance buckets, and the electric-only plus fuel-using trips, each add up to the number of valid trips |
| ProcessData.ProcessTimedCounts | src/core/dataProcessing.ts:209-214 | the hour and weekday tables count the same trips, the valid ones with a start time, and no more trips are valid than were kept |
| ProcessData.ProcessEnergy | src/core/dataProcessing.ts:272-299 | total energy is driving plus stationary energy, the distance shares add up to 100 % and the EV-mode share is within 0..100 % |
| ProcessData.ProcessHybrid | src/core/dataProcessing.ts:342 | `isHybrid` holds exactly when some kept trip used fuel; the fuel list then holds only fuel-using valid trips and is otherwise empty |
| ProcessData.Top10OfPermutation | src/core/dataProcessing.ts:377-381 | sorting the valid trips first does not change what a top-10 list promises |
| ProcessData.ProcessTop | src/core/dataProcessing.ts:379-384 | the distance, energy and duration lists are the top 10 valid trips by those keys |
| ProcessData.PeriodsOf | src/core/dataProcessing.ts:362 | a table lists its periods in table order |
| ProcessData.TableOrder | src/core/dataProcessing.ts:362-369 | a month or day table lists exactly the dictionary's periods, in ascending key order |
| ProcessData.TableCounts | src/core/dataProcessing.ts:199-206 | each table row counts the valid trips with its key, and every key carried by a valid trip has a row |
| ProcessData.ValuesCounted | src/core/dataProcessing.ts:199-206 | every period in a dictionary counts the trips with its key |
| ProcessData.ValueOfKey | src/core/dataProcessing.ts:199-200 | a key carried by some trip has a period named after it |
| ProcessData.ProcessTables | src/core/dataProcessing.ts:362-386 | both tables keep these promises, and the active-day count is the number of day rows, or 1 when there is none |
| ProcessData.SortedEnds | src/core/dataProcessing.ts:376 | after the stable sort by start time the first and last trips start earliest and latest |
| ProcessData.ProcessDateRange | src/core/dataProcessing.ts:386-389 | the date range and the calendar span come from the earliest- and latest-starting kept trips |
| ProcessData.ProcessScatter | src/core/dataProcessing.ts:222-225 | every scatter point comes from a valid trip with positive distance and energy and a consumption strictly between 0 and 50 |
| LegacyProcessing.CountedTrips | src/utils/dataProcessing.js:13 | the counted trips are exactly the non-null rows with a numeric, positive distance |
| LegacyProcessing.SumKmPositive | src/utils/dataProcessing.js:16-19 | counted trips make a positive total distance, so the `totalKm === 0` exit is never taken |
| LegacyProcessing.TallyTrips | src/utils/dataProcessing.js:21-54 | the first `forEach` leaves the month and day dictionaries and the hour and weekday tables equal to their folds over the trips |
| LegacyProcessing.TallyTime | src/utils/dataProcessing.js:39-53 | a trip with a start time counts in its hour and weekday; one without changes neither |
| LegacyProcessing.Count | src/utils/dataProcessing.js:44-49 | one table entry gains a trip and its distance |
| LegacyProcessing.TallyStep | src/utils/dataProcessing.js:26-54 | the folds over one more trip add it to its month, day, hour and weekday |
| LegacyProcessing.TallyDistances | src/utils/dataProcessing.js:68-82 | the second `forEach` leaves the bucket counts equal to their fold over the trips |
| LegacyProcessing.LegacyTable | src/utils/dataProcessing.js:56-66 | a table is the dictionary's periods sorted by key, each with its rate and label |
| LegacyProcessing.EffPoints | src/utils/dataProcessing.js:84-87 | every scatter point has a positive distance and a consumption strictly between 0 and 50 |
| LegacyProcessing.KmAscTotalPreorder | src/utils/dataProcessing.js:88 | ordering the scatter by distance is a consistent comparator |
| LegacyProcessing.TruthyDates | src/utils/dataProcessing.js:93 | the active dates are exactly the non-empty dates of the trips |
| LegacyProcessing.LegacySummaryOf | src/utils/dataProcessing.js:104-122 | the summary reports the number of counted trips and the active days |
| LegacyProcessing.LegacySpec | src/utils/dataProcessing.js:11-135 | `processData` gives null exactly when no row has a numeric, positive distance |
| LegacyProcessing.ProcessLegacy | src/utils/dataProcessing.js:11-135 | the method computes exactly `LegacySpec` |
| LegacyProcessing.LegacyCounts | src/utils/dataProcessing.js:39-82 | every counted trip is in exactly one distance bucket, and each trip with a start time in exactly one hour and one weekday |
| LegacyProcessing.LegacyScatter | src/utils/dataProcessing.js:84-88 | the scatter is a permutation of the filtered points, no longer than the trips, within bounds and in ascending distance order |
| LegacyProcessing.LegacyTop10 | src/utils/dataProcessing.js:90-92 | the three lists are the top 10 counted trips by distance, energy and duration |
| LegacyProcessing.DescEnds | src/utils/dataProcessing.js:116-119 | the first and last items of a full descending sort bound every key |
| LegacyProcessing.LegacyExtremes | src/utils/dataProcessing.js:116-119 | the longest and shortest distances, the largest energy and the longest duration shown are values of counted trips that bound all the others |
| LegacyProcessing.LegacyDays | src/utils/dataProcessing.js:93-115 | the active days count the distinct non-empty dates (1 when none), and the date range and span go from an earliest- to a latest-starting trip |
| LegacyProcessing.LegacyTableCounts | src/utils/dataProcessing.js:26-66 | a table lists each key carried by a trip once, in ascending order, with the number of trips carrying it |
| LegacyProcessing.LegacyMonthly | src/utils/dataProcessing.js:27-31 | the month table lists each month once, ascending, with its trip count |
| LegacyProcessing.LegacyDaily | src/utils/dataProcessing.js:33-37 | the day table lists each date once, ascending, with its trip count |
| LegacyProcessing.LegacyAverages | src/utils/dataProcessing.js:109-121 | the summary's totals are the trips' sums of distance and energy, and its averages scale back to them: consumption per 100 km times the distance is 100 times the energy, distance per trip times the trips and distance per day times the active days are the distance, trips per day times the active days are the trips |
| LegacyProcessing.ScaledAverages | src/utils/dataProcessing.js:109-121 | those averages scale back to their totals: consumption times distance is the energy per 100 km, distance per trip times the trips and distance per day times the days are the distance, trips per day times the days are the trips |
| ChargeStore.NewestFirstTotalPreorder | src/hooks/useChargesData.ts:120 | the newest-first comparator is a consistent order |
| ChargeStore.Sorted | src/hooks/useChargesData.ts:77 | the store's re-sort puts sessions newest first and keeps exactly the same sessions |
| ChargeStore.NewCharge | src/hooks/useChargesData.ts:107-115 | a new session gets the fresh id and the timestamp of its date and time, keeps date, time and cost, and in the TypeScript hook falls back to `kwh` for a zero energy and never has an empty charger type |
| ChargeStore.NewCharges | src/hooks/useChargesData.ts:135-143 | each imported item becomes a new session with its own fresh id |
| ChargeStore.UniqueNew | src/hooks/useChargesData.ts:147-148 | the deduplicated new sessions are a sub-list of the new ones |
| ChargeStore.AddedSpec | src/hooks/useChargesData.ts:117-121 | `addCharge` grows the store by exactly the new session and keeps it newest first |
| ChargeStore.ImportedSpec | src/hooks/useChargesData.ts:145-152 | `addMultipleCharges` keeps every stored session, adds a new one exactly when its timestamp was not stored, and leaves the store newest first |
| ChargeStore.UniqueNewNone | src/hooks/useChargesData.ts:147-148 | no new session survives when every timestamp is already stored |
| ChargeStore.ImportDuplicatesOnly | src/hooks/useChargesData.ts:145-152 | importing only already-stored timestamps keeps the same sessions |
| ChargeStore.Patched | src/hooks/useChargesData.ts:166-173 | an update spreads the given fields over the session and recomputes the timestamp, from the new date or time where given, exactly when it moves the session in time |
| ChargeStore.PatchById | src/hooks/useChargesData.ts:163-174 | patching by id keeps the length |
| ChargeStore.PatchByIdAt | src/hooks/useChargesData.ts:163-174 | each position holds the patched session when its id matches and the old one otherwise |
| ChargeStore.UpdatedSpec | src/hooks/useChargesData.ts:161-177 | `updateCharge` keeps the size, keeps every session with another id, holds otherwise only patches of sessions with that id, and re-sorts newest first |
| ChargeStore.UpdateUnknownId | src/hooks/useChargesData.ts:161-177 | an update naming no stored id keeps the same sessions |
| ChargeStore.Deleted | src/hooks/useChargesData.ts:186 | deleting never grows the store |
| ChargeStore.DeletedSpec | src/hooks/useChargesData.ts:185-188 | `deleteCharge` removes exactly the sessions with that id, keeps the others with their multiplicity and keeps the order |
| ChargeStore.ChargeById | src/hooks/useChargesData.ts:193-195 | `find` returns the first stored session with that id; none is found exactly when no stored session has it |
| ChargeStore.OtherCharges | src/hooks/useChargesData.ts:288-289 | the sessions neither electric nor fuel are exactly those of another type |
| ChargeStore.Mean | src/hooks/useChargesData.ts:294-303 | an average times its count is the sum, and it is 0 without items |
| ChargeStore.SummaryOf | src/hooks/useChargesData.ts:284-316 | the summary is null exactly for an empty store and counts every session |
| ChargeStore.KindPartition | src/hooks/useChargesData.ts:288-289 | electric, fuel and other sessions partition the store, in count and in any sum |
| ChargeStore.SummaryTotals | src/hooks/useChargesData.ts:306-311 | a session of another type is in neither count, and the total cost is that of all sessions minus the others |
| ChargeStore.SummaryMeans | src/hooks/useChargesData.ts:294-303 | the average prices are the means over the electric and the fuel sessions, 0 when there is none |
| ChargeStore.SummaryCountsCover | src/hooks/useChargesData.ts:306-308 | the two counts cover the store exactly when every session is electric or fuel |
| ChargeStore.ExportRow | src/hooks/useChargesData.ts:240-263 | an exported line has the eight header fields: date and time, the energy or litres by type, zero duration and a non-empty charger name |
| ChargeStore.ExportRows | src/hooks/useChargesData.ts:240 | one line per session, in store order |
| ChargeStore.Export | src/hooks/useChargesData.ts:221-282 | `exportCharges` refuses an empty store and otherwise writes the header and one eight-field line per session |
| ChargeStore.ChargesData.constructor | src/hooks/useChargesData.ts:62 | the store starts empty |
| ChargeStore.ChargesData.Load | src/hooks/useChargesData.ts:65-88 | loading gives the saved array sorted newest first, or an empty store for anything else |
| ChargeStore.ChargesData.AddCharge | src/hooks/useChargesData.ts:106-128 | the store becomes `Added` of the new session, one longer and newest first |
| ChargeStore.ChargesData.AddMultipleCharges | src/hooks/useChargesData.ts:130-156 | a non-array or empty argument changes nothing and returns 0; otherwise the store becomes `Imported` of the new sessions and their number is returned |
| ChargeStore.ChargesData.UpdateCharge | src/hooks/useChargesData.ts:161-180 | the store becomes `Updated` of the old one |
| ChargeStore.ChargesData.DeleteCharge | src/hooks/useChargesData.ts:185-188 | the store becomes `Deleted` of the old one and stays newest first |
| ChargeStore.ChargesData.GetChargeById | src/hooks/useChargesData.ts:193-195 | the lookup returns the first stored session with that id, or none exactly when there is none |
| ChargeStore.ChargesData.ClearCharges | src/hooks/useChargesData.ts:200-203 | clearing empties the store |
| ChargeStore.ChargesData.ReplaceCharges | src/hooks/useChargesData.ts:208-216 | a non-array changes nothing; an array replaces the store, sorted newest first |
| ChargeStore.ChargesData.Summary | src/hooks/useChargesData.ts:284-316 | the summary is null exactly for an empty store |
| CsvText.StripCr | src/hooks/useDatabase.ts:83 | at most a trailing carriage return is removed |
| CsvText.CrLfLines | src/hooks/useDatabase.ts:83 | no blank line survives the trip CSV's line split |
| CsvText.LfLines | src/hooks/useChargeImporter.js:19 | no blank line survives the charge CSV's line split |
| CsvText.QuotedLength | src/hooks/useDatabase.ts:90 | a quoted token runs from an opening to the next closing quote with no quote inside |
| CsvText.MatchFields | src/hooks/useDatabase.ts:90 | the regular-expression matches are never empty, so empty fields vanish |
| CsvText.StripQuotes | src/hooks/useDatabase.ts:90 | removing the outer quotes never lengthens a field and leaves a field without quotes alone |
| CsvText.CleanAll | src/hooks/useDatabase.ts:90 | every match is unquoted and trimmed, in order |
| CsvText.MatchFieldsCons | src/hooks/useDatabase.ts:90 | a plain field followed by a separator is one match, and matching goes on after the separator |
| CsvText.FieldsConsPlain | src/hooks/useDatabase.ts:90 | a plain field followed by a separator is read as it is |
| CsvText.FieldsOfJoin | src/hooks/useDatabase.ts:90 | a line made by joining plain fields with the separator is read back as exactly those fields |
| CsvText.QuotedField | src/hooks/useChargeImporter.js:36 | a quoted token keeps the separators inside it and is read as one field without its quotes |
| CsvText.EmptyFieldSkipped | src/hooks/useChargeImporter.js:36 | two adjacent separators read as one: the empty field is lost |
| CsvText.SpaceRun | src/hooks/useDatabase.ts:112 | `\s*` matches the longest run of white space |
| CsvText.DateTimeAt | src/hooks/useDatabase.ts:112 | an anchored match yields a `YYYY-MM-DD` date of ten characters and an `HH:MM` time of five after white space |
| CsvText.FindDateTime | src/hooks/useChargeImporter.js:48 | the unanchored search finds the match at the leftmost position, and fails only when no position matches |
| CsvText.DateTimeOfField | src/hooks/useDatabase.ts:112 | a field `YYYY-MM-DD`, white space, `HH:MM` is matched at its start with exactly those parts |
| KeyedMap.Set | src/hooks/useAppData.ts:258 | `map.set` on a present key replaces its value in place; a new key is appended |
| KeyedMap.SetProperties | src/hooks/useAppData.ts:258 | `set` keeps the keys unique, maps the key to the value and leaves every other key's value alone |
| KeyedMap.SetAllGet | src/hooks/useAppData.ts:255-261 | after a `forEach` of `set`, each key holds the last item carrying it, or its old value when none does |
| KeyedMap.SetAllIfAbsentGet | src/services/googleDrive.js:179-185 | after a `forEach` of set-if-absent, a key already present keeps its value and a new key gets the first item carrying it |
| KeyedMap.UniqueKeysCount | src/hooks/useAppData.ts:263 | a map with unique keys has as many entries as keys |
| KeyedMap.SetEach | src/hooks/useAppData.ts:258-261 | the `forEach` loop of `set` computes exactly `SetAll` |
| KeyedMap.SetEachIfAbsent | src/services/googleDrive.js:180-185 | the `forEach` loop of set-if-absent computes exactly `SetAllIfAbsent` |
| KeyedMap.FirstWithKey | src/hooks/useChargesData.ts:194 | `find` by key: the first item carrying the key, and none exactly when no item carries it |
| KeyedMap.LastWithKey | src/hooks/useAppData.ts:255-261 | the last item carrying the key, and none exactly when no item carries it |
| TripMerge.TripKeys | src/hooks/useAppData.ts:258 | the keys of a trip list are exactly the `date-start_timestamp` keys of its trips |
| TripMerge.DateOrdersTotal | src/hooks/useDatabase.ts:161-165 | ordering by date, and by date then start time, are consistent comparators |
| TripMerge.ReadBack | src/hooks/useAppData.ts:263 | reading back the map's values gives one trip per key, each the map's value for its key, and every key's value |
| TripMerge.OverwriteMergeSpec | src/hooks/useDatabase.ts:156-160 | the overwriting merge has one trip per key of both lists: the last of the incoming list with that key, or the last of the base list when the incoming one has none |
| TripMerge.KeepMergeSpec | src/services/googleDrive.js:178-186 | the keeping merge has one trip per key of both lists: the last of the base list with that key, or the first of the other list when the base has none |
| TripMerge.DistinctKeysCount | src/hooks/useAppData.ts:263 | a list without repeated keys has as many keys as trips |
| TripMerge.MergeGrows | src/hooks/useAppData.ts:255-263 | merging never loses keys: from a repeat-free base the merge holds at least as many trips |
| TripMerge.SortedMergeSpec | src/hooks/useAppData.ts:263-265 | sorting a merge keeps one trip per key and each key's winner, and orders it |
| TripMerge.SortedOverwriteSpec | src/hooks/useDatabase.ts:155-165 | the sorted overwriting merge is ordered, one trip per key, each key's winner present, and no shorter than a repeat-free base |
| TripMerge.SortedKeepSpec | src/services/googleDrive.js:177-188 | the sorted keeping merge is ordered, one trip per key, each key's winner present |
| TripMerge.OverwriteMergeLoop | src/hooks/useDatabase.ts:156-160 | the two `forEach` loops of `set` and the read-back compute exactly `OverwriteMerge` |
| TripMerge.KeepMergeLoop | src/services/googleDrive.js:178-187 | the `forEach` of `set` then of set-if-absent and the read-back compute exactly `KeepMerge` |
| TripImport.ParseTripRowSpec | src/hooks/useDatabase.ts:106-144 | `parseTripRow` gives a trip exactly when the first field starts with `YYYY-MM-DD HH:MM`; the start is the local time of those numbers, the duration is the minutes field times 60, the end is start plus duration, and unparseable distance or energy become 0 |
| TripImport.RowTripDate | src/hooks/useDatabase.ts:132-137 | the trip's month is `YYYYMM` and its date `YYYYMMDD` of the matched date, and the date reads back through `parseDate` as the same day |
| TripImport.DateReadsBack | src/hooks/useDatabase.ts:132 | the written date of the matched numbers reads back as the same day |
| TripImport.CsvRow | src/hooks/useDatabase.ts:87-100 | a line is read with commas when that gives at least four fields, else with semicolons when that does, else dropped |
| TripImport.CsvRows | src/hooks/useDatabase.ts:87-103 | never more trips than data lines |
| TripImport.CsvRowsMembers | src/hooks/useDatabase.ts:87-103 | the trips read are exactly those of the lines that parse |
| TripImport.ParseCsv | src/hooks/useDatabase.ts:81-103 | a text with fewer than two non-blank lines is rejected; otherwise the trips are those of the lines after the header |
| TripImport.OneTripCsv | src/hooks/useDatabase.ts:81-103 | a header and one line of plain comma-separated fields starting with a date and time give exactly one trip |
| TripImport.CsvImportSpec | src/hooks/useDatabase.ts:80-168 | a CSV import fails exactly on fewer than two lines; otherwise the result has one trip per `date-start` key, each the last one seen with imported rows winning, and every key of the old and new trips is present |
| TripImport.SqliteImportSpec | src/hooks/useDatabase.ts:171-205 | the SQLite branch fails with "Tabla no encontrada" without the table and "Sin datos" without rows; otherwise it merges by key like the CSV branch |
| TripImport.AcceptedSpec | src/hooks/useDatabase.ts:279-285 | `validateFile` ignores letter case, the TypeScript hook also accepts `.csv` which the JavaScript one refuses, and everything the JavaScript one accepts the TypeScript one accepts |
| TripImport.CsvExcludes | src/hooks/useDatabase.ts:281 | a name ending in `.csv` ends in none of the other accepted extensions |
| TripImport.Importer.constructor | src/hooks/useDatabase.ts:31-33 | the hook starts not loading, without an error, and with the given SQL.js readiness |
| TripImport.Importer.ProcessDB | src/hooks/useDatabase.ts:75-214 | `processDB` returns the trips of a successful import with no error, or null with the failure's message as the error; loading ends false, except that the JavaScript hook without SQL.js stops before touching it |
| JsText.LowerChar | src/hooks/useChargeImporter.js:60 | `toLowerCase` turns a Basic Latin capital into its small letter and leaves small letters and digits alone; the other ranges it folds are listed under Left out |
| JsText.LowerCharTwice | src/hooks/useChargeImporter.js:60 | lower-casing a character twice is lower-casing it once |
| JsText.UpperOfLower | src/hooks/useChargeImporter.js:60 | a capital that `toLowerCase` changes comes back from `toUpperCase` of its small letter |
| ChargeImport.FindByName | src/hooks/useChargeImporter.js:59-61 | `find` returns the first known charger type whose name equals the given one up to case (the ranges under Left out), and finds none iff no type's name does |
| ChargeImport.AccentedNameFound | src/hooks/useChargeImporter.js:59-61 | "CARGA RÁPIDA" finds the default "Carga rápida" charger type, an accented capital matching its small letter |
| ChargeImport.AccentedNameResolved | src/hooks/useChargeImporter.js:54-66 | a session with charger "CARGA RÁPIDA" gets the id "fast" and creates no charger type |
| ChargeImport.LowerNames | src/hooks/useChargeImporter.js:28-30 | the set holds exactly the lower-cased names of the known charger types |
| ChargeImport.ResolveSpec | src/hooks/useChargeImporter.js:54-82 | an empty charger name gives no charger and no change; otherwise the id belongs to a known or created type of that name (up to case), a known type is preferred and changes nothing, and a type is created only for a name not yet seen |
| ChargeImport.RowStepTake | src/hooks/useChargeImporter.js:36-93 | a taken line has at least 8 fields, its first field starts with a date and holds the session's date and time, the numbers are fields 2, 3, 4, 7 and 8 read as `parseFloat(x) \|\| 0`, and the charger comes from field 6 |
| ChargeImport.RegistryNext | src/hooks/useChargeImporter.js:33-49 | a line with fewer than 8 fields or without a date and time is skipped, a line whose first field does not start with a date ends the loop, and any other line is taken |
| ChargeImport.RegistryGood | src/hooks/useChargeImporter.js:33-94 | the loop keeps its invariant: created types have distinct names up to case, none known before, each named by a session read, and the name set covers known and created names; sessions are only appended |
| ChargeImport.LoadRegistrySpec | src/hooks/useChargeImporter.js:16-100 | fewer than two non-blank lines give no data; otherwise the settings gain types only when some were created, one per new name up to case, none matching a known type, and never more than the sessions read |
| ChargeImport.FindOrCreate | src/hooks/useChargeImporter.js:54-82 | the find-or-create block returns the id and the new created list and name set that the specification step gives |
| ChargeImport.ReadLine | src/providers/DataProvider.tsx:245-298 | one pass of the loop body (the data provider's copy of the importer, identical but for `|| null`): `break` exactly on a stop, `continue` leaves the variables alone, and a taken line updates them as the step function `RowStep` does |
| ChargeImport.LoadChargeRegistry | src/hooks/useChargeImporter.js:16-100 | the importer gives nothing for fewer than two non-blank lines, and otherwise the sessions read and the charger types to add, exactly as `LoadRegistry` defines them |
| ChargeImport.ReadLines | src/hooks/useChargeImporter.js:33-93 | the loop over the lines after the header, with its `continue` and `break`, ends with exactly the sessions and charger types that `Registry` defines |
| AppData.DerivedMonth | src/hooks/useAppData.ts:152-153 | a trip's own month when it has one, otherwise the first six characters of its date (all of a shorter date) |
| AppData.RangeIsFilter | src/hooks/useAppData.ts:158-168 | the two optional range bounds, dashes removed, act as one inclusive filter on the date |
| AppData.FilteredIsFilter | src/hooks/useAppData.ts:147-172 | every filter setting amounts to keeping the trips one test accepts, in their order |
| AppData.FilteredSpec | src/hooks/useAppData.ts:147-172 | a trip is in the filtered list iff it is in the trips and the filter keeps it, with its multiplicity; nothing else is added; "all" or a month filter with no month selected returns the trips unchanged |
| AppData.MonthsOf | src/hooks/useAppData.ts:143 | the month of every trip, one per trip, in order |
| AppData.MonthsOfMembers | src/hooks/useAppData.ts:143 | a month is listed iff some trip has it |
| AppData.MonthsAscending | src/hooks/useAppData.ts:142-144 | the month list is strictly ascending: sorted and with each month once |
| AppData.MonthsMembers | src/hooks/useAppData.ts:142-144 | the month list holds exactly the non-empty months of the trips |
| AppData.AsRows | src/hooks/useAppData.js:97-98 | each trip handed to the statistics engine as a present row, in order |
| AppData.DataSpec | src/hooks/useAppData.js:96-100 | there are statistics iff some filtered trip has a positive distance; an empty filter gives none |
| AppData.DataProcessor | src/hooks/useDataProcessor.js:15-35 | the hook's filtered list is the JavaScript filter of the trips, and it has statistics iff some filtered trip has a positive distance |
| AppData.MergedHistorySpec | src/hooks/useAppData.ts:249-273 | the merged history is sorted by date, has one trip per `date-start_timestamp` key, each being the last one written under its key, current trips over history; it covers every key of both and never shrinks a history without duplicate keys |
| AppData.MergedHistoryKeys | src/hooks/useAppData.ts:255-265 | the merged history has exactly the keys of history and current trips |
| AppData.MergedHistorySize | src/hooks/useAppData.ts:265-271 | the reported total is the number of distinct keys of history and current trips |
| AppData.SaveTwiceAddsNothing | src/hooks/useAppData.ts:249-273 | saving the same trips a second time reports nothing added |
| AppData.InitialTrips | src/hooks/useAppData.js:19-30 | the initial trips are a saved non-empty array, otherwise none |
| AppData.InitialHistory | src/hooks/useAppData.js:32-43 | the initial history is any saved array, otherwise none |
| AppData.OnCarChange | src/hooks/useAppData.ts:70-88 | with no car, nothing saved or an unreadable entry, the trips are emptied; a saved array replaces them; any other saved value leaves them as they were |
| AppData.TripStore.constructor | src/hooks/useAppData.ts:66-67 | the TypeScript hook starts empty, the JavaScript one from what is saved; the filter is "all" with empty month and bounds |
| AppData.TripStore.SelectCar | src/hooks/useAppData.ts:70-108 | selecting a car reloads trips and history as the load effects decide, leaving the filter alone |
| AppData.TripStore.SetFilter | src/hooks/useAppData.ts:111-114 | the four filter setters change the filter and nothing else |
| AppData.TripStore.ClearData | src/hooks/useAppData.ts:242-246 | the trips are emptied and the answer is true; history and filter are kept |
| AppData.TripStore.SaveToHistory | src/hooks/useAppData.ts:249-273 | no trips: "no_trips" and nothing changes; otherwise the history becomes the merged history and the answer reports its size and growth |
| AppData.TripStore.LoadFromHistory | src/hooks/useAppData.ts:276-282 | no history: "no_history" and nothing changes; otherwise the history becomes the current trips and the answer is its size |
| AppData.TripStore.ClearHistory | src/hooks/useAppData.ts:285-289 | the history is emptied and the answer is true; trips and filter are kept |
| Seqs.Mapped | src/components/modals/ChargeInsightsModal.tsx:33-35 | `map` gives one value per element (session or trip), in order, each the function's value on the element at the same place |
| ChargeInsights.EfficiencyFor | src/components/modals/ChargeInsightsModal.tsx:46-47 | the efficiency is never 0; anything but 1 is the set efficiency of a charger type with that id |
| ChargeInsights.BatteryKwh | src/components/modals/ChargeInsightsModal.tsx:42-49 | a fuel session brings no energy to the battery, and with an efficiency of at most 1 no session brings more than it charged |
| ChargeInsights.RealKwhAtMost | src/components/modals/ChargeInsightsModal.tsx:38-50 | with no efficiency above 1, the battery-side total never exceeds the energy charged |
| ChargeInsights.Stamps | src/components/modals/ChargeInsightsModal.tsx:53 | the list holds exactly the non-zero timestamps of the sessions |
| ChargeInsights.MinStamp | src/components/modals/ChargeInsightsModal.tsx:54 | `Math.min` of a non-empty list is one of its values and at most each |
| ChargeInsights.MaxStamp | src/components/modals/ChargeInsightsModal.tsx:55 | `Math.max` of a non-empty list is one of its values and at least each |
| ChargeInsights.SpanOf | src/components/modals/ChargeInsightsModal.tsx:53-55 | no span iff no session has a timestamp; otherwise the first and last timestamps are those of sessions and bound every timestamp |
| ChargeInsights.MonthsDiff | src/components/modals/ChargeInsightsModal.tsx:56-59 | a month count exactly when there is a span, at least 1 and at least the calendar months spanned, both ends counted |
| ChargeInsights.CeilDays | src/components/modals/ChargeInsightsModal.tsx:141 | the fewest whole days covering a duration in milliseconds |
| ChargeInsights.DaysActive | src/components/modals/ChargeInsightsModal.tsx:141 | the days active are at least 1 and the span fits in one fewer whole days but not in two fewer |
| ChargeInsights.LastMonth | src/components/modals/ChargeInsightsModal.tsx:88-91 | the month before the current one, across a year boundary |
| ChargeInsights.LastMonthCostSpec | src/components/modals/ChargeInsightsModal.tsx:87-98 | the cost of the last month sums the cost of exactly the sessions with a timestamp in the month before the current one |
| ChargeInsights.Percent | src/components/modals/ChargeInsightsModal.tsx:108 | a share of a count as a percentage between 0 and 100 |
| ChargeInsights.PerMonth | src/components/modals/ChargeInsightsModal.tsx:116 | a monthly mean exactly when there is a month count, which times the months gives the total |
| ChargeInsights.KwhStatsSpec | src/components/modals/ChargeInsightsModal.tsx:62-79 | the full charges are the sessions ending at exactly 100 %, counted at most once each; the mean recovery lies between the least and greatest recovery of the sessions with both percentages, 0 without one |
| ChargeInsights.CostStatsSpec | src/components/modals/ChargeInsightsModal.tsx:84-85 | the mean cost lies between the least and greatest cost; the free sessions are those costing 0; the free share is a percentage; the monthly mean is the total over the months |
| ChargeInsights.Savings | src/components/modals/ChargeInsightsModal.tsx:129-131 | the possible savings are never negative for a mean at most the greatest price, and 0 when they coincide or no energy was charged |
| ChargeInsights.PriceStatsSpec | src/components/modals/ChargeInsightsModal.tsx:121-132 | every positive price lies between the least and greatest positive price, the least being positive; the mean lies between them; the savings are not negative for a non-negative energy |
| ChargeInsights.PositiveBetween | src/components/modals/ChargeInsightsModal.tsx:36 | every positive value lies between the least and the greatest positive value, and the least is positive |
| ChargeInsights.NoPaidPrices | src/components/modals/ChargeInsightsModal.tsx:123-131 | with no paid session every price figure is 0 |
| ChargeInsights.Cycles | src/components/modals/ChargeInsightsModal.tsx:82 | the cycles times a positive battery size give the battery-side energy; 0 without a positive size |
| ChargeInsights.ChargeInsightsOf | src/components/modals/ChargeInsightsModal.tsx:26-28 | no insights exactly when there are no sessions |
| ChargeInsights.InsightsSpan | src/components/modals/ChargeInsightsModal.tsx:134-142 | the active days and dates are missing iff no session has a timestamp; otherwise the span covers every timestamp and the monthly means exist; cycles count battery-side energy and complete charges are the full ones |
| ChargeList.FilteredIsFilter | src/features/dashboard/AllChargesView.jsx:49-57 | the month filter or the two range bounds, applied one after the other, are one filter by a single test |
| ChargeList.ComparisonAntisymmetric | src/features/dashboard/AllChargesView.jsx:60-68 | swapping the two sessions negates the comparison of every sort key |
| ChargeList.ComparisonMeaning | src/features/dashboard/AllChargesView.jsx:60-68 | the comparison is at most 0 exactly when the first session precedes under the key: later date and time, more energy or higher cost first |
| ChargeList.ChargeLeMeaning | src/features/dashboard/AllChargesView.jsx:69 | the default order keeps that precedence and 'asc' reverses it |
| ChargeList.PrecedesPreorder | src/features/dashboard/AllChargesView.jsx:60-68 | every key orders all sessions totally and transitively |
| ChargeList.ChargeLePreorder | src/features/dashboard/AllChargesView.jsx:60-70 | the comparator, in either order, is a total preorder, so the sort is well defined |
| ChargeList.SortCharges | src/features/dashboard/AllChargesView.jsx:60-70 | the sorted list is a permutation of the filtered list, ordered by the comparator |
| ChargeList.SortChargesOrder | src/features/dashboard/AllChargesView.jsx:60-70 | every earlier session precedes every later one under the key by default, and follows it under 'asc' |
| ChargeList.AllChargesSpec | src/features/dashboard/AllChargesView.jsx:48-73 | the list holds exactly the sessions the filter keeps, as often as they occur, ordered by the key; without a filter it is a reordering of all sessions |
| ChargeList.FindTypeFirst | src/features/dashboard/AllChargesView.jsx:82 | `find` returns the first charger type with the id |
| ChargeList.ChargerTypeName | src/features/dashboard/AllChargesView.jsx:81-84 | the name shown is never empty |
| ChargeList.ChargerTypeNameSpec | src/features/dashboard/AllChargesView.jsx:81-84 | the name of the first type with the id when it has one, else the id itself, else `-` |
| ChargeList.UnknownChargerType | src/features/dashboard/AllChargesView.jsx:81-84 | an id no type has is shown as it is, and a missing id as `-` |
| ChargeList.FormatDateOfIso | src/features/dashboard/AllChargesView.jsx:86-90 | a date of three hyphen-free pieces is shown as those pieces in reverse order joined by slashes |
| ChargeList.FormatDateRoundTrip | src/features/dashboard/AllChargesView.jsx:86-90 | splitting the shown date at its slashes gives back day, month and year |
| ChargeList.FormatDateNoHyphen | src/features/dashboard/AllChargesView.jsx:86-90 | a date without hyphens is shown as the year alone after two `undefined` pieces |
| DriveSync.Normalise | src/services/googleDrive.js:97-110 | a downloaded array becomes the trips with empty settings; an object keeps its trips array and its settings, each defaulting to empty; anything else becomes empty trips and settings |
| DriveSync.NormaliseStable | src/services/googleDrive.js:97-110 | a normalised backup, uploaded and downloaded again, normalises to itself |
| DriveSync.Overlay | src/services/googleDrive.js:191 | the merged settings have every local and remote key, the remote value wherever the remote has the key and the local value elsewhere |
| DriveSync.MergeDataSpec | src/services/googleDrive.js:173-197 | the merged trips are sorted by date with one trip per `date-start_timestamp` key, local trips winning over remote ones; every key of either side is present; a local list without repeated keys survives whole |
| DriveSync.OnlyWithKey | src/services/googleDrive.js:179 | in a list without repeated keys a trip is the one the map keeps for its key |
| DriveSync.MergeDataLoop | src/services/googleDrive.js:173-197 | the `Map` fill, the set-if-absent loop, the read-back and the sort compute exactly the specified merge |
| EfficiencyTab.PerTripConsumption | src/features/dashboard/tabs/EfficiencyTab.tsx:74-80 | a per-trip figure exactly when there are trips, which times the trips gives the total (energy or fuel) |
| EfficiencyTab.Ceil | src/features/dashboard/tabs/EfficiencyTab.tsx:90 | `Math.ceil`: the least whole number not below the value |
| EfficiencyTab.NonZeroEfficiencies | src/features/dashboard/tabs/EfficiencyTab.tsx:84 | exactly the non-zero monthly efficiencies, none added |
| EfficiencyTab.EfficiencyYAxisSpec | src/features/dashboard/tabs/EfficiencyTab.tsx:83-92 | without a non-zero efficiency the axis runs from 0 to 30; otherwise every non-zero efficiency lies at least one unit inside the axis, and some lies less than two units from each end |
| EfficiencyTab.AnyFuelMonth | src/features/dashboard/tabs/EfficiencyTab.tsx:96 | some month has a positive fuel efficiency |
| EfficiencyTab.HasHybridData | src/features/dashboard/tabs/EfficiencyTab.tsx:95-96 | hybrid data iff the car is a hybrid and some month used fuel |
| EfficiencyTab.SortByY | src/features/dashboard/tabs/EfficiencyTab.tsx:211 | the same points, ordered by ascending efficiency |
| EfficiencyTab.Stride | src/features/dashboard/tabs/EfficiencyTab.tsx:218 | a positive stride for a non-empty middle part |
| EfficiencyTab.StrideIsCeiling | src/features/dashboard/tabs/EfficiencyTab.tsx:218 | the stride is the least one that leaves at most 900 middle points |
| EfficiencyTab.KeepEverySpec | src/features/dashboard/tabs/EfficiencyTab.tsx:219 | keeping the points at positions divisible by the stride keeps one per multiple of the stride, all taken from the list |
| EfficiencyTab.MiddleWithinBudget | src/features/dashboard/tabs/EfficiencyTab.tsx:217-219 | the thinned middle part keeps at most 900 points |
| EfficiencyTab.SmallScatterUnchanged | src/features/dashboard/tabs/EfficiencyTab.tsx:208 | up to a thousand points the scatter is drawn as it is |
| EfficiencyTab.LargeScatterSpec | src/features/dashboard/tabs/EfficiencyTab.tsx:207-222 | above a thousand points the sample is drawn from the points: first the 50 lowest efficiencies, then the 50 highest, then the thinned middle |
| ModalState.AllClosed | src/hooks/useModalState.ts:28-43 | the initial record has every dialog flag, all false |
| ModalState.WithFlag | src/hooks/useModalState.ts:91 | setting one flag gives it the value and leaves every other flag as it was |
| ModalState.Toggled | src/hooks/useModalState.ts:113-115 | toggling flips that flag and leaves every other flag as it was |
| ModalState.ToggleTwice | src/hooks/useModalState.ts:113-115 | toggling a dialog twice gives back the record |
| ModalState.OpenThenClose | src/hooks/useModalState.ts:83-107 | opening then closing a dialog closes it and leaves the others as they were; closing then opening opens it |
| ModalState.AnyModalOpenSpec | src/hooks/useModalState.ts:183-186 | no dialog is open in the initial record, one is as soon as a flag is set, and toggling in a record with none open opens that dialog |
| ModalState.FlagValues | src/hooks/useModalState.js:123 | the values of the flags, one per dialog, in order |
| ModalState.JsValues | src/hooks/useModalState.js:123 | `Object.values` of the JavaScript record includes the car list next to the flags |
| ModalState.JsAnyModalOpenAlwaysTrue | src/hooks/useModalState.js:123 | the JavaScript `isAnyModalOpen` is true for every record, the closed one included, since the empty car list counts as a truthy value |
| ModalState.OpenHistory | src/hooks/useModalState.ts:84-89 | opening pushes a history entry only for a full-list dialog whose hash is not already shown, with that hash as the address |
| ModalState.CloseHistory | src/hooks/useModalState.ts:100-104 | closing goes back exactly when the hash shows the full-list dialog being closed; otherwise no history call |
| ModalState.HashFlags | src/hooks/useModalState.ts:55-70 | after the `popstate` handler the two full-list flags follow the hash and every other flag is kept |
| ModalState.Modals.FromHash | src/hooks/useModalState.ts:27-77 | the TypeScript hook starts all closed, then applies the hash once; section 'privacy', nothing selected |
| ModalState.Modals.Plain | src/hooks/useModalState.js:10-27 | the JavaScript hook starts all closed, section 'privacy', nothing selected |
| ModalState.Modals.OpenModal | src/hooks/useModalState.ts:83-92 | that flag true, the history call of the TypeScript hook, nothing else changed |
| ModalState.Modals.CloseModal | src/hooks/useModalState.ts:98-107 | that flag false, the history call of the TypeScript hook, nothing else changed |
| ModalState.Modals.ToggleModal | src/hooks/useModalState.ts:113-115 | that flag flipped, nothing else changed |
| ModalState.Modals.CloseAllModals | src/hooks/useModalState.ts:120-140 | every flag false, no registry cars, nothing selected; the legal section kept |
| ModalState.Modals.OpenRegistryModal | src/hooks/useModalState.ts:145-147 | the registry dialog open with the given cars, nothing else changed |
| ModalState.Modals.CloseRegistryModal | src/hooks/useModalState.ts:152-154 | the registry dialog closed and its cars cleared, nothing else changed |
| ModalState.Modals.OpenLegalModal | src/hooks/useModalState.ts:160-163 | the legal dialog open at the given section, nothing else changed |
| ModalState.Modals.PopState | src/hooks/useModalState.ts:55-70 | the TypeScript `popstate` handler sets the two full-list flags from the hash and changes nothing else |
| ModalState.Modals.IsAnyModalOpen | src/hooks/useModalState.ts:183-186 | true iff some dialog flag is set, the car list left aside |
| RealStats.SortNumbers | src/components/tabs/TrendsTab.jsx:62 | sorting with `(a, b) => a - b` gives the same numbers in ascending order |
| RealStats.MedianSplits | src/components/modals/TripInsightsModal.jsx:55-59 | in a sorted list the first half is at most the median and the second half at least it |
| RealStats.MedianWithin | src/components/modals/TripInsightsModal.jsx:55-59 | bounds that hold for every value hold for both medians |
| RealStats.UpperMedianSplits | src/components/tabs/TrendsTab.jsx:63-65 | the element at half the length of a sorted list has the lower half below it and the upper half above it |
| RealStats.MinOf | src/components/modals/ChargeInsightsModal.tsx:104 | `Math.min` of a non-empty list is one of its values and at most each |
| RealStats.MaxOf | src/components/modals/ChargeInsightsModal.tsx:105 | `Math.max` of a non-empty list is one of its values and at least each |
| RealStats.SumWithin | src/components/modals/ChargeInsightsModal.tsx:38 | bounds on every value bound the sum by the count times the bound |
| RealStats.MeanWithin | src/components/modals/ChargeInsightsModal.tsx:103 | bounds that hold for every value of a non-empty list hold for its mean |
| RealStats.MeanBetweenExtremes | src/components/modals/ChargeInsightsModal.tsx:103-105 | the mean of a non-empty list lies between its least and greatest value |
| RealStats.SumMonotone | src/components/modals/ChargeInsightsModal.tsx:50 | a sum grows with each of its terms |
| SwipeGesture.FindIndex | src/hooks/useSwipeGesture.js:110 | the first position of the active tab, or -1 when it is not listed |
| SwipeGesture.SwipeTarget | src/hooks/useSwipeGesture.js:112-151 | a swipe only ever opens a listed tab |
| SwipeGesture.SwipeTargetSpec | src/hooks/useSwipeGesture.js:110-151 | a swipe opens the next or previous tab of the active one (the first tab when the active one is not listed); nothing without a direction, nothing for an up-down swipe in the vertical layout, nothing for a movement within the minimum distance |
| SwipeGesture.SidewaysSwipe | src/hooks/useSwipeGesture.js:114-134 | a long enough sideways swipe to the left opens the next tab and one to the right the previous tab, in both layouts, and does nothing at the last and first tab |
| SwipeGesture.SwipeTracker.constructor | src/hooks/useSwipeGesture.js:25-51 | no touch recorded, no direction, scroll position 0 |
| SwipeGesture.SwipeTracker.TouchStart | src/hooks/useSwipeGesture.js:53-63 | with a dialog open or a transition running nothing changes; otherwise the touch point and scroll position are recorded and the direction forgotten |
| SwipeGesture.SwipeTracker.TouchMove | src/hooks/useSwipeGesture.js:65-100 | the direction is decided once, by the larger movement beyond 10 pixels, and then kept; scrolling is blocked for a sideways swipe in the vertical layout, and for a downward swipe from the top in the horizontal layout, when the event can be cancelled |
| SwipeGesture.SwipeTracker.TouchEnd | src/hooks/useSwipeGesture.js:102-158 | without a recorded touch nothing happens; otherwise the tab opened is the specified swipe target and the touch, direction and scroll position are reset |
| TabNavigation.StripHash | src/hooks/useTabNavigation.ts:21 | removing the first `#` shortens the hash by at most one character |
| TabNavigation.StripHashOfTab | src/hooks/useTabNavigation.ts:21 | `#id` gives `id`, and an empty hash stays empty |
| TabNavigation.InitialTab | src/hooks/useTabNavigation.ts:20-24 | the initial tab is always one of the eight tabs: the hash when it names one, otherwise 'overview' |
| TabNavigation.VisibleTabsSpec | src/hooks/useTabNavigation.ts:33-42 | a tab is shown iff it is listed and is 'overview' or not hidden; 'overview' can never be hidden; with nothing hidden every tab is shown |
| TabNavigation.PopStateTarget | src/hooks/useTabNavigation.ts:46-54 | the back and forward buttons turn to the tab the hash names when it is shown, otherwise to 'overview' |
| TabNavigation.HashSync | src/hooks/useTabNavigation.ts:61-71 | the address changes iff the hash differs from the active tab; the entry is replaced only for 'overview' under an empty hash, and the address is `/#` and the tab |
| TabNavigation.Navigator.FromHash | src/hooks/useTabNavigation.ts:26-28 | the TypeScript hook starts at the tab the hash names, with no fade and no transition |
| TabNavigation.Navigator.Plain | src/hooks/useTabNavigation.js:7-9 | the JavaScript hook starts at 'overview', with no fade and no transition |
| TabNavigation.Navigator.HandleTabClick | src/hooks/useTabNavigation.ts:73-86 | a click on the active tab or during a transition is ignored; otherwise the tab becomes active, fades in and a transition starts |
| TabNavigation.Navigator.TransitionEnd | src/hooks/useTabNavigation.ts:82-85 | when the 500 ms timer fires the transition and the fade end and the active tab stays |
| TabNavigation.Navigator.PopState | src/hooks/useTabNavigation.ts:46-54 | the back and forward buttons set the active tab to the specified target and leave the transition alone |
| Trends.LongTripsSpec | src/features/dashboard/tabs/TrendsTab.tsx:83-85 | a trip is long exactly when its distance reaches three times the mean distance |
| Trends.DaysPerLongTrip | src/features/dashboard/tabs/TrendsTab.tsx:87 | 0 without long trips; otherwise the days per long trip rounded to the nearest whole number, halves up |
| Trends.TotalDaysOf | src/features/dashboard/tabs/TrendsTab.tsx:86 | the newer tab's day count is `daysActive` when set and not 0, else 1, so never 0 |
| Trends.TotalDaysOrActive | src/components/tabs/TrendsTab.jsx:55 | the older tab's day count is `totalDays`, else `daysActive`, else 1, so never 0 |
| Trends.DailyKwh | src/features/dashboard/tabs/TrendsTab.tsx:90 | the daily energy times the days gives back the total energy |
| Trends.PriceOrDefault | src/features/dashboard/tabs/TrendsTab.tsx:93 | a price of 0 falls back to 0.15; any other is kept |
| Trends.MonthlyCostTotal | src/features/dashboard/tabs/TrendsTab.tsx:94-98 | the monthly cost is 0 without months; otherwise, times the months, it is the energy of all months at that price |
| Trends.MonthlyCostWithin | src/features/dashboard/tabs/TrendsTab.tsx:94-98 | at a non-negative price, bounds on each month's energy bound the monthly cost at that price |
| Trends.TrendsSpec | src/features/dashboard/tabs/TrendsTab.tsx:81-105 | no long trip gives 0 days per long trip; the daily energy spread over the days gives back the total; without a summary the daily energy is 0 and every trip of non-negative distance is long; no months give a monthly cost of 0 |
| Trends.TripEfficiencies | src/components/tabs/TrendsTab.jsx:60 | one efficiency per trip, in order |
| Trends.NoEfficiencies | src/components/tabs/TrendsTab.jsx:59-65 | the list is empty exactly when no trip has a positive efficiency, and the median is then 0 |
| Trends.MedianEfficiencySpec | src/components/tabs/TrendsTab.jsx:58-65 | the median is the efficiency of some trip, positive, between the least and greatest, with half the sorted efficiencies below it and half above |
| Trends.LegacyAgreesWithoutTotalDays | src/components/tabs/TrendsTab.jsx:50-84 | the older tab gives the same long-trip, daily and monthly figures as the newer one whenever the summary has no `totalDays` |
| TripInsights.TotalSplits | src/components/modals/TripInsightsModal.jsx:20-21 | splitting the records by a test and its complement splits every total and the count |
| TripInsights.Efficiencies | src/components/modals/TripInsightsModal.jsx:51 | one consumption per trip, in order |
| TripInsights.ReduceMin | src/components/modals/TripInsightsModal.jsx:46 | the reduction keeps the least value, and the earliest trip that has it |
| TripInsights.ReduceMax | src/components/modals/TripInsightsModal.jsx:40-42 | the reduction keeps the greatest value, and the earliest trip that has it |
| TripInsights.MinBy | src/components/modals/TripInsightsModal.jsx:52 | none for no trips; otherwise a trip of the list with the least value |
| TripInsights.MaxBy | src/components/modals/TripInsightsModal.jsx:53 | none for no trips; otherwise a trip of the list with the greatest value |
| TripInsights.MaxKwh | src/components/modals/TripInsightsModal.jsx:135 | the greatest energy of any trip, at least 0, and either 0 or the energy of some trip |
| TripInsights.DayTexts | src/components/modals/TripInsightsModal.jsx:81 | the list holds exactly the non-empty day texts of the trips |
| TripInsights.SortedDaysSpec | src/components/modals/TripInsightsModal.jsx:81-97 | the sorted days are the distinct active days, each once, ascending |
| TripInsights.RunAt | src/components/modals/TripInsightsModal.jsx:98-113 | the run ending at a day is at least 1 and at most the days so far |
| TripInsights.RunAtIsLongestEnding | src/components/modals/TripInsightsModal.jsx:101-112 | the run counted at a day is a chain of consecutive days and no chain ending there is longer |
| TripInsights.LongestIsLongestRun | src/components/modals/TripInsightsModal.jsx:99-113 | the longest run so far is a chain and no chain is longer; it is 0 exactly when there are no days |
| TripInsights.MaxStreak | src/components/modals/TripInsightsModal.jsx:97-113 | the streak loop computes the longest run of consecutive days |
| TripInsights.OnWeekday | src/components/modals/TripInsightsModal.jsx:87-92 | a weekday count never exceeds the trips |
| TripInsights.Dated | src/components/modals/TripInsightsModal.jsx:87-92 | the trips whose date reads are at most all trips |
| TripInsights.WeekdayCounts | src/components/modals/TripInsightsModal.jsx:86 | seven counts, Sunday first |
| TripInsights.WeekdaysAddUp | src/components/modals/TripInsightsModal.jsx:86-92 | every trip whose date reads is counted on exactly one weekday, so the counts add up to them |
| TripInsights.CountWeekdays | src/components/modals/TripInsightsModal.jsx:87-92 | the `forEach` computes exactly the weekday counts |
| TripInsights.FirstMax | src/components/modals/TripInsightsModal.jsx:93-94 | the first index of the greatest count: its count is at least every count and greater than every earlier one |
| TripInsights.Scaled | src/components/modals/TripInsightsModal.jsx:73 | a ratio scaled by a factor, times its divisor, gives the value scaled by the factor |
| TripInsights.Per | src/components/modals/TripInsightsModal.jsx:126-139 | a mean per item or per day, which times the count gives the total; 0 without items |
| TripInsights.DistanceSpec | src/components/modals/TripInsightsModal.jsx:124-130 | the total distance over driven trips; the longest is the distance and date of some trip and at least every trip; mean and per-day figures are the total over the trips and the days |
| TripInsights.TimeSpec | src/components/modals/TripInsightsModal.jsx:143-148 | the shortest duration is at most the longest, which is at least every trip's duration |
| TripInsights.ConsumptionRate | src/components/modals/TripInsightsModal.jsx:70-73 | the overall consumption is the driven energy per 100 km over the driven distance, 0 without distance |
| TripInsights.ConsumptionOrder | src/components/modals/TripInsightsModal.jsx:50-155 | the best and worst consumption bound that of every rated trip, the best being a trip's with its date; all 0 without a rated trip |
| TripInsights.MedianBetween | src/components/modals/TripInsightsModal.jsx:55-60 | bounds on every rated trip's consumption bound the median |
| TripInsights.SpeedsSpec | src/components/modals/TripInsightsModal.jsx:156-161 | among driven trips the slowest speed is at most the fastest, which is at least every trip's speed |
| TripInsights.CostPerTrip | src/components/modals/TripInsightsModal.jsx:118 | the cost per trip, times the trips, is the driven energy at the electricity price; 0 without trips |
| TripInsights.TripInsightsOf | src/components/modals/TripInsightsModal.jsx:14-16 | no insights exactly when there are no records |
| TripInsights.InsightsPartition | src/components/modals/TripInsightsModal.jsx:18-65 | every record is driven or stationary: the counts add up to all records and the total energy is that of all records |
| TripInsights.InsightsOverDriven | src/components/modals/TripInsightsModal.jsx:123-172 | distance, consumption, time, speed and cost figures are those of the driven trips, and the per-day figures are 0 without active days |
| TripInsights.InsightsStreak | src/components/modals/TripInsightsModal.jsx:96-113 | the streak is 0 exactly when there are no active days, never exceeds them, is the length of some run of consecutive days and no run is longer |
| TripInsights.InsightsBusiestDay | src/components/modals/TripInsightsModal.jsx:93-94 | the most active weekday has the greatest count, and every earlier weekday a smaller one |
| TripLists.ComparisonAntisymmetric | src/features/dashboard/AllTripsView.jsx:58-81 | swapping the two trips negates the comparison of every sort key |
| TripLists.ComparisonMeaning | src/features/dashboard/AllTripsView.jsx:58-81 | the comparison is at most 0 exactly when the first trip precedes under the key: later date then later start, lower consumption (none last), longer distance, more energy |
| TripLists.TripLeMeaning | src/features/dashboard/AllTripsView.jsx:82 | the default order keeps that precedence and 'asc' reverses it |
| TripLists.PrecedesPreorder | src/features/dashboard/AllTripsView.jsx:58-81 | every key orders all trips totally and transitively |
| TripLists.TripLePreorder | src/features/dashboard/AllTripsView.jsx:58-83 | the comparator, in either order, is a total preorder, so the sort is well defined |
| TripLists.SortTrips | src/features/dashboard/AllTripsView.jsx:58-83 | the sorted list is a permutation of the list, ordered by the comparator |
| TripLists.SortTripsOrder | src/features/dashboard/AllTripsView.jsx:58-83 | every earlier trip precedes every later one under the key by default, and follows it under 'asc' |
| TripLists.AllTripsSpec | src/features/dashboard/AllTripsView.jsx:46-92 | the list holds exactly the trips the filter keeps, as often as they occur, ordered by the key |
| TripLists.ScoredEffs | src/features/dashboard/AllTripsView.jsx:86-87 | exactly the consumptions of the trips of at least 1 km with non-zero energy |
| TripLists.ScoredEffsNonEmpty | src/features/dashboard/AllTripsView.jsx:86-89 | with a scored trip and no `NaN`, the list of consumptions is not empty |
| TripLists.ScaleSpec | src/features/dashboard/AllTripsView.jsx:85-89 | the scale runs from the least to the greatest consumption of a scored trip; a scored trip without energy makes it `NaN`; without scored trips the full list uses 0 and 0 and the older history tab the infinities |
| TripLists.ScaleNaNWitness | src/components/tabs/HistoryTab.jsx:31-34 | a single 5 km trip without an energy value makes both ends of the scale `NaN` |
| TripLists.HistoryScale | src/features/dashboard/tabs/HistoryTab.tsx:44-80 | the single pass bounds the consumption of every scored trip, both ends being that of some scored trip, and gives 0 and 0 when there is none |
| TripLists.ColumnsSpec | src/features/dashboard/tabs/HistoryTab.tsx:56-58 | the last ten are the first ten of the sorted trips, split into a first column of up to five and a second with the rest |
| TripLists.PerTrip | src/features/dashboard/tabs/HistoryTab.tsx:61-70 | `total / (length \|\| 1)`: the mean over the trips, and the total itself for none |
| TripLists.Speeds | src/features/dashboard/tabs/HistoryTab.tsx:72-74 | one speed per moving trip, in order |
| TripLists.TotalIsSum | src/features/dashboard/tabs/HistoryTab.tsx:62-70 | the total of a measure is the sum of the trips' values |
| TripLists.PerTripMean | src/features/dashboard/tabs/HistoryTab.tsx:61-70 | the per-trip average is the mean of the trips' values, between the least and the greatest |
| TripLists.NoTripsNoAverages | src/features/dashboard/tabs/HistoryTab.tsx:61-70 | without trips every average is 0 |
| TripLists.HistoryAveragesSpec | src/features/dashboard/tabs/HistoryTab.tsx:61-70 | with trips each average is the mean of the trips' distance, energy, consumption and minutes |
| TripLists.AvgSpeedSpec | src/features/dashboard/tabs/HistoryTab.tsx:72-75 | the mean speed is 0 without a moving trip, else between the least and the greatest speed of the moving trips |
| TripLists.LegacyAveragesAgree | src/components/tabs/HistoryTab.jsx:42-55 | the older history tab computes the same averages as the newer one |
| TripLists.HistoryTab | src/features/dashboard/tabs/HistoryTab.tsx:36-89 | the newer history tab: trips newest first, the scale of the single pass, the two columns and the averages over the last ten |
| TripLists.LastTenNewest | src/features/dashboard/tabs/HistoryTab.tsx:38-56 | every trip among the last ten precedes, by date and then start time, every trip left out |
| AppSettings.Defaults | src/context/AppContext.jsx:23-44 | the defaults give a non-null value to each of the twelve settings and to nothing else |
| AppSettings.Spread | src/context/AppContext.jsx:57 | object spread has every key of either object, the second one's value winning |
| AppSettings.Initial | src/context/AppContext.jsx:53-62 | the initial settings always hold every default setting |
| AppSettings.InitialSpec | src/context/AppContext.jsx:53-62 | a saved object wins on every key it has and the defaults fill in the rest; a saved array, text, number, boolean or `null` keeps every default setting and adds only index keys; nothing saved, an empty text or unreadable text give the defaults |
| AppSettings.SpreadSource | src/context/AppContext.jsx:57 | object spread copies an object's fields, an array's items or a text's characters under their indices, and nothing from a number, a boolean or `null` |
| AppSettings.Indexed | src/context/AppContext.jsx:57 | every index key is a digit string, and item `i` is found under the decimal text of `i` |
| AppSettings.LoadTextExample | src/context/AppContext.jsx:53-62 | a saved JSON text "ab" adds "a" under "0" and "b" under "1" and keeps the default theme |
| AppSettings.LoadExample | src/context/AppContext.jsx:57 | loading a saved battery size, theme and model keeps those and the four default charger types |
| AppSettings.Coalesce | src/context/AppContext.jsx:81-92 | `x ?? y` is `x` unless it is missing or null |
| AppSettings.ValidatedSpec | src/context/AppContext.jsx:80-93 | the validated settings have exactly the twelve keys, none null; each takes the update's value, else the previous one, else the default; other keys are dropped |
| AppSettings.RejectedUpdate | src/context/AppContext.jsx:73-77 | an update that is not an object leaves the settings as they were |
| AppSettings.ValidatedIdempotent | src/context/AppContext.jsx:68-97 | applying the same object twice is the same as applying it once |
| AppSettings.PartialUpdateExample | src/context/AppContext.jsx:80-93 | updating only the battery size keeps the default theme and charger types |
| AppSettings.ThemeClass | src/context/AppContext.jsx:103-111 | 'auto' and 'system' follow the system's dark preference; any other theme names its own class |
| AppSettings.Provider.constructor | src/context/AppContext.jsx:53-62 | the provider starts from the initial settings |
| AppSettings.Provider.UpdateSettings | src/context/AppContext.jsx:68-98 | `updateSettings` replaces the settings with the validated update, a function being applied to the previous settings first |
| CarStore.Patched | src/context/CarContext.tsx:128 | `{ ...c, ...updates }`: each field the update carries replaces the car's, every other field is kept |
| CarStore.UpdatedCars | src/context/CarContext.tsx:127-129 | the list keeps its length; each car with the id is patched and every other car kept in place |
| CarStore.UpdatedCarsSpec | src/context/CarContext.tsx:127-129 | an update changes the cars with the id and no other, and an unknown id changes nothing |
| CarStore.Ids | src/types/index.ts:43-51 | exactly the ids of the cars |
| CarStore.RemovedCarsSpec | src/context/CarContext.tsx:131-136 | deleting removes every car with the id and keeps every other car in order |
| CarStore.FindCar | src/context/CarContext.tsx:142 | `find` returns the first car with the active id; none when there is no active id or no car has it |
| CarStore.FindAdded | src/context/CarContext.tsx:120-142 | a car added under an id no other car has is the one found under it, and every other lookup is unchanged |
| CarStore.FindAppended | src/context/CarContext.tsx:142 | `find` over the list with one car appended: the appended car under its fresh id, the old answer under any other id |
| CarStore.MigrationCopies | src/context/CarContext.tsx:72-80 | each item the single-car install left is copied under its key followed by `_` and the new id, and nothing else is written |
| CarStore.Garage.constructor | src/context/CarContext.tsx:30-42 | the saved cars, or none; the saved active id, with an empty one read as none |
| CarStore.Garage.ActiveCar | src/context/CarContext.tsx:142 | the active car is the first car carrying the active id, and there is none exactly when no active id is set or no car has it |
| CarStore.Garage.Initialize | src/context/CarContext.tsx:45-105 | with no cars, one electric car is created and made active, named after the saved model or 'Mi BYD', with the old data copied to its keys when there was any; with cars but none active, the first one becomes active; otherwise nothing changes |
| CarStore.Garage.AddCar | src/context/CarContext.tsx:120-125 | the car is appended under a fresh id; the others and the active id are kept |
| CarStore.Garage.UpdateCar | src/context/CarContext.tsx:127-129 | the cars become the updated list and the active id is kept |
| CarStore.Garage.DeleteCar | src/context/CarContext.tsx:131-136 | the car is removed, and no car is active if it was the active one |
| ChargeForm.ToFixed2Close | src/components/modals/AddChargeModal.jsx:78 | `toFixed(2)` moves a number by at most half a hundredth |
| ChargeForm.ToFixed4Close | src/components/modals/AddChargeModal.jsx:86 | `toFixed(4)` moves a number by at most half a ten-thousandth |
| ChargeForm.NewForm | src/components/modals/AddChargeModal.jsx:31-41 | a new form has every field; odometer, energy, cost and both percentages are empty and the price is the default |
| ChargeForm.EditForm | src/components/modals/AddChargeModal.jsx:46-59 | the form filled from the edited session has every field |
| ChargeForm.Changed | src/components/modals/AddChargeModal.jsx:69-92 | typing keeps the form complete |
| ChargeForm.WithCost | src/components/modals/AddChargeModal.jsx:74-80 | filling in the total cost keeps the form complete |
| ChargeForm.WithPrice | src/components/modals/AddChargeModal.jsx:82-88 | filling in the price keeps the form complete |
| ChargeForm.ChangedSpec | src/components/modals/AddChargeModal.jsx:69-92 | the typed field takes the text; no field but the cost and the price changes besides; typing any other field than energy, price or cost changes nothing else |
| ChargeForm.ChangedCost | src/components/modals/AddChargeModal.jsx:73-80 | typing the energy or the price fills in the cost, rounded to the cent, exactly when both read as positive numbers; otherwise the cost is kept |
| ChargeForm.ChangedPrice | src/components/modals/AddChargeModal.jsx:81-88 | typing the cost fills in the price, to the ten-thousandth, exactly when the cost reads and the energy is positive; otherwise the price is kept |
| ChargeForm.FilledCostNearProduct | src/components/modals/AddChargeModal.jsx:74-80 | after the cost is filled in it is within half a cent of energy times price |
| ChargeForm.FilledPriceNearQuotient | src/components/modals/AddChargeModal.jsx:82-88 | after the price is filled in, price times energy is within half a ten-thousandth per kWh of the cost |
| ChargeForm.RealKwhSpec | src/components/modals/AddChargeModal.jsx:95-103 | the real energy is given exactly when the energy reads and the chosen charger is known with a non-zero efficiency, and is then within half a hundredth of energy times efficiency |
| ChargeForm.Corrected | src/components/modals/AddChargeModal.jsx:95-103 | the energy times the charger's efficiency, rounded to the cent, is within half a hundredth of the exact product |
| ChargeForm.NewFormRejected | src/components/modals/AddChargeModal.jsx:105-110 | a new form is refused until energy, odometer and final percentage are filled in |
| ChargeForm.EditRoundTrip | src/components/modals/AddChargeModal.jsx:46-129 | submitting an edited session unchanged gives back its date, time, charger, numbers, percentages and id; one without a final percentage is refused |
| ChargeForm.ChargeFormState.constructor | src/components/modals/AddChargeModal.jsx:43 | the form starts as a new form |
| ChargeForm.ChargeFormState.Open | src/components/modals/AddChargeModal.jsx:46-64 | opening fills the form from the edited session, or resets it to a new form |
| ChargeForm.ChargeFormState.HandleChange | src/components/modals/AddChargeModal.jsx:69-92 | `handleChange` replaces the form with the changed form |
| MfgDate.Masked | src/components/modals/MfgDateModal.tsx:42-47 | the masked text has at most five characters, each a digit or `/` |
| MfgDate.MaskedIdempotent | src/components/modals/MfgDateModal.tsx:42-47 | masking the masked text again changes nothing |
| MfgDate.TypingMonth | src/components/modals/MfgDateModal.tsx:43-46 | typing `0` then `01` shows `0`, then `01/` |
| MfgDate.TypingYear | src/components/modals/MfgDateModal.tsx:43-47 | `01/25` stays as typed and a sixth character is cut off |
| MfgDate.MaskDropsLetters | src/components/modals/MfgDateModal.tsx:43-46 | letters are dropped before the slash is added: `1a2` shows `12/` |
| MfgDate.ValidMmYySpec | src/components/modals/MfgDateModal.tsx:26 | a text the pattern accepts names a month from 1 to 12 and passes the mask unchanged |
| MfgDate.SplitValid | src/components/modals/MfgDateModal.tsx:34 | splitting an accepted text at `/` gives the month and the year |
| MfgDate.SavedSpec | src/components/modals/MfgDateModal.tsx:24-38 | a save succeeds exactly for an accepted text; the date is `20YY-MM-01`, from which the shown text is rebuilt |
| MfgDate.SaveExample | src/components/modals/MfgDateModal.tsx:24-38 | `03/24` saves as `2024-03-01`; `13/24`, `3/24` and `00/24` are refused |
| MfgDate.MfgDateInput.constructor | src/components/modals/MfgDateModal.tsx:19-20 | the dialog starts with the initial text and no error |
| MfgDate.MfgDateInput.Save | src/components/modals/MfgDateModal.tsx:24-38 | the save hands on the saved date of the text, sets the error flag exactly when the text is refused, and keeps the text |
| MfgDate.MfgDateInput.InputChange | src/components/modals/MfgDateModal.tsx:42-50 | the text becomes the masked input and the error is cleared |
| Layout.ModeForSpec | src/context/LayoutContext.tsx:46-54 | the layout is horizontal exactly when the window is wider than high and at least 768 wide |
| Layout.ModeExamples | src/context/LayoutContext.tsx:46-54 | the car's 1280 by 720 display and an 800 by 600 window are horizontal; an upright phone and an upright tablet are vertical |
| Layout.CheckLayout | src/context/LayoutContext.tsx:41-80 | `checkLayout` picks the layout both versions choose |
| Layout.CheckLayoutSpec | src/context/LayoutContext.tsx:57-79 | full screen and compact apply only in the horizontal layout, full screen exactly for a height from 680 to 740, compact exactly for at least 1024 wide and at most 680 high, and the small font size exactly with compact |
| Layout.CarDisplay | src/context/LayoutContext.tsx:59-66 | the car's display is full screen and not compact; 1280 by 680 is both |
| Layout.HookAgainstProvider | src/hooks/useLayoutMode.js:15-42 | wherever the provider scales down the hook does too; the hook also scales down horizontal windows the provider leaves alone (the car's 1280 by 720 display, a 1024 by 800 window); every window the hook scales down is laid out horizontally |
| Layout.LayoutProvider.constructor | src/context/LayoutContext.tsx:36-38 | the provider starts vertical, neither compact nor full screen |
| Layout.LayoutProvider.Check | src/context/LayoutContext.tsx:41-80 | `checkLayout` sets the mode, the two sub-modes and the font size to what `checkLayout` decides |
| Layout.LayoutProvider.SetLayoutMode | src/context/LayoutContext.tsx:94 | `setLayoutMode` changes the mode and nothing else |
| Layout.LayoutProvider.IsLargerCard | src/context/LayoutContext.tsx:100 | the larger cards are shown exactly when compact and horizontal, never in the vertical layout |
| Layout.LayoutModeHook.constructor | src/hooks/useLayoutMode.js:10-11 | the hook starts vertical and not compact |
| Layout.LayoutModeHook.UpdateLayoutMode | src/hooks/useLayoutMode.js:14-27 | the hook sets the layout both versions choose and leaves the compact flag and the font size alone |
| Layout.LayoutModeHook.CheckCompact | src/hooks/useLayoutMode.js:29-42 | the hook is compact exactly for at least 1024 wide and at most 800 high, with the small font size exactly then, whatever the layout |

## Left out

- The Android shell, the car's firmware and everything that renders: components, charts, icons, labels, translations, toasts and `alert`s.
- Browser storage (`localStorage`, IndexedDB) and service workers: what the stores read back is a parameter; what they write is left out, except where a store returns the writes it makes.
- SQL.js: loading the library, querying a `.db` file and exporting one; the rows of a database file arrive as a list of trips.
- File downloads (`Blob`, object URLs), the Drive and OAuth requests, the access token and the automatic sync timer.
- The web worker (Comlink) through which the TypeScript `useAppData` runs `processData`; the model uses the direct computation that the JavaScript hook memoises, and the `odometerOffset` setting that only the worker path reads.
- Timers: the 500 ms tab fade is an explicit second step instead of a `setTimeout`.
- Event listeners for resize, orientation, touch and `popstate`: each handler is a method called with the window size, the touch or the location hash it would read.
- Number-to-text formatting: `toFixed` results stay numbers, and `toLocaleString`, `toLocaleDateString` and `toLocaleTimeString` are parameters. The locale of `formatTime` is part of that parameter.
- `new Date(...)` parsing, the hour, weekday and day ordinal of a timestamp, "now", `crypto.randomUUID` and `Date.now` identifiers: all are parameters.
- Console logging.
- `NaN` and infinities: numbers are exact reals, and `parseFloat` reads decimal numbers without exponents, `Infinity` or hexadecimal.
- Floating-point rounding: sums and quotients are exact.
- Formatters.ScoreColor: the red and green channels are stated only at the end points of the scale (`Formatters.ScoreColorEndpoints`), because between them they are rounded products of the score.
- `localeCompare`: it is modelled as code-unit order.
- In-place sorting: `Array.prototype.sort` is modelled as a stable sort on values (`SortBy`), not in place on an array.
- The JSON text of the car list and the write of it to storage.
- A `null` or `undefined` charger id is modelled as `""`; the data provider's copy of the charge importer writes `|| null` where the hook leaves `undefined`, and both read the same here.
- Trips read from a CSV file have no fuel field, so their fuel is 0.
- The JavaScript `useAppData` compares `t.date >= limit` on an undefined date; a missing date is `""` here, so the TypeScript and JavaScript range filters coincide.
- ChargeForm: `parseFloat` is a parameter of the form's functions, and `editingCharge.pricePerKwh ?? default` always finds a price, because a stored session always has one.
- Layout: the root font size that each layout check sets on the page is a field of the provider or the hook.
- The window's location hash, which the tab navigation and the dialog state read and write, is a parameter, and the history calls are results.
- ChargeImport.FindByName: names match up to the case folding of `JsText.LowerChar`, which folds exactly U+0041-U+005A, U+00C0-U+00DE except U+00D7, the capitals of the capital-small pairs of Latin Extended-A (U+0100-U+017E; U+0130 is not folded) with U+0178, the Greek U+0391-U+03A9 (U+03A2 is unassigned) and the Cyrillic U+0400-U+042F; every other capital is left as it is, among them the accented Greek capitals (U+0386, U+0388-U+038F, U+03AA-U+03AB) and the Cyrillic capitals from U+0460 on (such as U+0490), which `toLowerCase` folds by the whole Unicode case table.
- ChargeImport.LowerNames: the same case folding as ChargeImport.FindByName, so names differing only in a capital outside those ranges count as different.
- ChargeImport.ResolveSpec: the same case folding as ChargeImport.FindByName, so names differing only in a capital outside those ranges count as different.
- ChargeImport.RegistryGood: the same case folding as ChargeImport.FindByName, so names differing only in a capital outside those ranges count as different.
- ChargeImport.LoadRegistrySpec: the same case folding as ChargeImport.FindByName, so names differing only in a capital outside those ranges count as different.
- ChargeImport.FindOrCreate: the same case folding as ChargeImport.FindByName, so names differing only in a capital outside those ranges count as different.
- ChargeImport.ReadLine: the same case folding as ChargeImport.FindByName, so names differing only in a capital outside those ranges count as different.
- ChargeImport.LoadChargeRegistry: the same case folding as ChargeImport.FindByName, so names differing only in a capital outside those ranges count as different.
- ChargeImport.ReadLines: the same case folding as ChargeImport.FindByName, so names differing only in a capital outside those ranges count as different.
- JsText.UpperChar: it raises only the small letters of the pairs JsText.LowerChar folds (and the final sigma); other small letters stay, and `toUpperCase` of "ß" gives "SS" in JavaScript and "ß" here.
- TripPricing.CustomPrice: a custom price given as text with no number in it stays `NaN` in the TypeScript core (the older JavaScript copy writes `|| 0`); the model has no `NaN` and reads it as 0.
- JsText.ParseInt: `parseInt` without a radix reads a "0x" prefix in base 16; the model reads only decimal digits, so "0x10" gives 0 instead of 16.

- Battery.AdvancedSoHJs: the JavaScript twin reads a charge's energy and speed with `parseFloat(...) || 0` where the typed twin uses `checkNum`; on the numbers a charge record holds here both give the same value, so one tally serves both.

- DateUtils.Construct: `new Date(year, month, day)` rolls an out-of-range month or day over into the next month or year (`new Date(2024, 1, 30)` is 1 March 2024); the model gives no day for such input instead, because every date text it reads comes from eight-digit fields and overflow normalisation would need the full calendar arithmetic of `Date`.

## Findings

| source | as written | input that shows it | evidently intended | confidence | as-written member | corrected member |
|---|---|---|---|---|---|---|
| src/core/formatters.ts:64-67 | the percentile divides by the number of trips of at least 1 km with non-zero energy, which can be 0 when the list is not empty | a list holding a single trip of 0.5 km, asked for that trip | 50 when no trip can be compared, as for an empty list | not executed | Formatters.PercentileAsWritten | Formatters.Percentile |
| src/hooks/useModalState.js:123 | `isAnyModalOpen` ORs the dialog flags with the registry's car list, and an empty array is truthy | the initial record, with every dialog closed | true exactly when some dialog flag is set, as in the TypeScript hook | not executed | ModalState.JsAnyModalOpenAlwaysTrue | ModalState.Modals.IsAnyModalOpen |
