# Weight tracker core in Dafny

This project models the computational core of an Android weight-tracking app and proves
properties of that model.

- **Trend engine.** `WeightTrendCalculator` turns weight samples into two series:
  - daily averages: one point per sampled day, holding the mean of that day's weights;
  - a seven-day rolling average. It is computed over every day from the first sampled
    day to the last. Days without samples are filled by linear interpolation between
    the nearest sampled days. Each window mean is rounded to tenths.
- **Goal store.** The goal list of `DataStoreGoalRepository` is the stored value of one
  preferences key, with a `"[]"` default. The model covers:
  - append, replace-by-id and remove-by-id;
  - the stable sort by target date behind `goalsStream`;
  - the field mapping between stored and domain goals.
- **Value types.** `WeightEntry` and `WeightGoal` convert between kilograms and pounds
  and round to tenths. `WeightGoal` answers due-date questions. `WeightUnit.fromString`
  parses stored unit names.

Modelling choices:

- Days are `int` day numbers, and weights are exact `real`s.
- Each sample carries the calendar day that the calculator's time zone gives its
  instant.
- Kotlin's `(x * 10).roundToInt() / 10.0` is `Floor(x * 10 + 1/2) / 10`: round to the
  nearest tenth, ties upward. Module `Rounding` defines it once. The three source files
  that repeat it all use that one definition.
- Every window mean is rounded, including a window with a single supporting day (`WeightTrendCalculator.kt:73`); `SingleEntry` and `BuildSingleDay` show it.
- The window size is a Kotlin `Int`: the newtype `int32`. `rollingWindow - 1` is
  computed in 32 bits, so the minimum value wraps (`WindowSpan`, `WindowSpanWraps`).
- The loops of `buildRollingAverage` and `interpolateWeights` are methods with loop
  invariants. Each method is proved equal to a function:
  - `ContinuousDates` to `DateRange`;
  - `InterpolateWeights` to `Interpolated`;
  - `MovingAverages` to `RollingPoints`;
  - `BuildRollingAverage` to `RollingAverage`;
  - `Calculate`, which has no loop, to `TrendOf`.
  The properties are lemmas about those functions.
- The loops of `buildRollingAverage` are split into the methods `ContinuousDates` and `MovingAverages`, and the inner branch of `interpolateWeights` into `FillDay`. The steps are the source's, in the same order.
- The repository is a class with one field, `stored`. It holds the decoded value of
  the "goals" key, or `None` while the key is missing. Each edit writes the field
  through `SaveGoalsList`.

Modules:

| module | file | models |
|---|---|---|
| `Rounding` | Rounding.dfy | `roundToTenths`, `KG_TO_LB` |
| `Units` | Units.dfy | `WeightUnit`, `fromString` |
| `Entries` | Entries.dfy | `WeightEntry` |
| `Goals` | Goals.dfy | `WeightGoal` |
| `Trend` | Trend.dfy | `TrendPoint`, `WeightTrend` |
| `TrendCalculator` | TrendCalculator.dfy | `calculate`, `buildRollingAverage`, `interpolateWeights` |
| `TrendProperties` | TrendProperties.dfy | interpolation, window and coverage properties of `buildRollingAverage`'s result |
| `CalculateProperties` | CalculateProperties.dfy | properties of `calculate`'s result |
| `TrendExamples` | TrendExamples.dfy | the calculator's worked cases |
| `GoalStore` | GoalStore.dfy | `DataStoreGoalRepository` |
| `Wrappers` | Wrappers.dfy | `Option` |

## Model

| member | source | states |
|---|---|---|
| Rounding.RoundToTenthsNearest | app/src/main/java/com/example/weighttracker/domain/usecase/WeightTrendCalculator.kt:125 | the rounded value is a whole number of tenths, above x - 0.05 and at most x + 0.05 (a tie goes up) |
| Rounding.RoundToTenths | app/src/main/java/com/example/weighttracker/domain/usecase/WeightTrendCalculator.kt:125 | `(x * 10).roundToInt() / 10.0`; its meaning is stated by `RoundToTenthsNearest` and `RoundToTenthsUnique` |
| Rounding.RoundToTenthsUnique | app/src/main/java/com/example/weighttracker/domain/usecase/WeightTrendCalculator.kt:125 | any multiple of 0.1 in (x - 0.05, x + 0.05] is the rounded value, so the rounding is fully characterised |
| Rounding.RoundToTenthsOfTenths | app/src/main/java/com/example/weighttracker/domain/usecase/WeightTrendCalculator.kt:125 | a value that is already a whole number of tenths rounds to itself |
| Rounding.RoundToTenthsIdempotent | app/src/main/java/com/example/weighttracker/domain/model/WeightEntry.kt:28 | rounding twice equals rounding once |
| Units.WeightUnit.Symbol | app/src/main/java/com/example/weighttracker/domain/model/WeightUnit.kt:6-8 | the symbol has two letters and is "lb" exactly for pounds |
| Units.FromString | app/src/main/java/com/example/weighttracker/domain/model/WeightUnit.kt:11-15 | a null name gives kilograms |
| Units.Lowercase | app/src/main/java/com/example/weighttracker/domain/model/WeightUnit.kt:12 | the ASCII letters A to Z become a to z, every other character is kept, and the length is unchanged (see "## Left out") |
| Units.LowercaseMatches | app/src/main/java/com/example/weighttracker/domain/model/WeightUnit.kt:12 | a text lower-cases to a lower-case word exactly when it spells that word with each letter in either case |
| Units.FromStringPounds | app/src/main/java/com/example/weighttracker/domain/model/WeightUnit.kt:12-14 | pounds if and only if the name spells "lbs", "lb" or "pounds" with each letter in either case; every other name gives kilograms |
| Units.FromStringIgnoresCase | app/src/main/java/com/example/weighttracker/domain/model/WeightUnit.kt:12 | two names with the same lower-case form parse to the same unit |
| Units.FromStringSymbol | app/src/main/java/com/example/weighttracker/domain/model/WeightUnit.kt:7-8 | each unit's symbol parses back to that unit |
| Units.FromStringPoundExamples | app/src/main/java/com/example/weighttracker/domain/model/WeightUnit.kt:13 | "LB" and "lbs" give pounds |
| Units.FromStringCapitalisedPounds | app/src/main/java/com/example/weighttracker/domain/model/WeightUnit.kt:12-13 | "Pounds" gives pounds |
| Units.FromStringKilogramExamples | app/src/main/java/com/example/weighttracker/domain/model/WeightUnit.kt:14 | "", "kg" and "KG" give kilograms |
| Entries.WeightEntry.WeightLbs | app/src/main/java/com/example/weighttracker/domain/model/WeightEntry.kt:26 | dividing the pounds by 2.2046226218 gives the kilograms back, and a positive weight weighs more in pounds |
| Entries.WeightEntry.RoundedKg | app/src/main/java/com/example/weighttracker/domain/model/WeightEntry.kt:28 | a whole number of tenths within half a tenth of the weight, a tie going up |
| Entries.WeightEntry.RoundedLbs | app/src/main/java/com/example/weighttracker/domain/model/WeightEntry.kt:30 | a whole number of tenths within half a tenth of the weight in pounds, a tie going up |
| Entries.RoundedKgIdempotent | app/src/main/java/com/example/weighttracker/domain/model/WeightEntry.kt:28 | an entry carrying its own rounded weight rounds to the same value |
| Entries.RoundedLbsIsNearestTenth | app/src/main/java/com/example/weighttracker/domain/model/WeightEntry.kt:30 | `roundedLbs` is the tenths rounding of `weightLbs`: the only multiple of 0.1 in (lbs - 0.05, lbs + 0.05] |
| Goals.WeightGoal.TargetWeightLbs | app/src/main/java/com/example/weighttracker/domain/model/WeightGoal.kt:18-24 | dividing the pounds by 2.2046226218 gives the target kilograms back, and a positive target weighs more in pounds |
| Goals.WeightGoal.RoundedKg | app/src/main/java/com/example/weighttracker/domain/model/WeightGoal.kt:29 | a whole number of tenths within half a tenth of the target, a tie going up |
| Goals.WeightGoal.RoundedLbs | app/src/main/java/com/example/weighttracker/domain/model/WeightGoal.kt:34 | a whole number of tenths within half a tenth of the target in pounds, a tie going up |
| Goals.WeightGoal.DaysRemaining | app/src/main/java/com/example/weighttracker/domain/model/WeightGoal.kt:49-50 | adding the result to `today` reaches the target date (negative when it has passed) |
| Goals.WeightGoal.IsPastDue | app/src/main/java/com/example/weighttracker/domain/model/WeightGoal.kt:39 | `isPastDue` with `today` given; `DueStatusMatchesDaysRemaining` shows it holds exactly when fewer than zero days remain |
| Goals.WeightGoal.IsDueToday | app/src/main/java/com/example/weighttracker/domain/model/WeightGoal.kt:44 | `isDueToday` with `today` given; `DueStatusMatchesDaysRemaining` shows it holds exactly when no days remain |
| Goals.DueStatusMatchesDaysRemaining | app/src/main/java/com/example/weighttracker/domain/model/WeightGoal.kt:39-50 | past due if and only if fewer than zero days remain; due today if and only if none remain; never both |
| Goals.RoundedKgIdempotent | app/src/main/java/com/example/weighttracker/domain/model/WeightGoal.kt:29 | a goal carrying its own rounded target rounds to the same value |
| GoalStore.FieldMappingRoundTrip | app/src/main/java/com/example/weighttracker/data/local/DataStoreGoalRepository.kt:98-112 | `toDomain` and `toSerializable` are inverse both ways: no field is lost |
| GoalStore.ToDomain | app/src/main/java/com/example/weighttracker/data/local/DataStoreGoalRepository.kt:98-104 | `toDomain`, field by field; see `FieldMappingRoundTrip` |
| GoalStore.ToSerializable | app/src/main/java/com/example/weighttracker/data/local/DataStoreGoalRepository.kt:106-112 | `toSerializable`, field by field; see `FieldMappingRoundTrip` |
| GoalStore.ToDomainAll | app/src/main/java/com/example/weighttracker/data/local/DataStoreGoalRepository.kt:89 | the mapped list has the same length and maps each position by `toDomain` |
| GoalStore.ToSerializableAll | app/src/main/java/com/example/weighttracker/data/local/DataStoreGoalRepository.kt:93 | the mapped list has the same length and maps each position by `toSerializable` |
| GoalStore.ListRoundTrip | app/src/main/java/com/example/weighttracker/data/local/DataStoreGoalRepository.kt:86-96 | a list saved and read back is the same list |
| GoalStore.Replaced | app/src/main/java/com/example/weighttracker/data/local/DataStoreGoalRepository.kt:68 | replace-by-id; see `ReplacedAt`, `ReplacedAbsent`, `ReplacedPresent`, `ReplacedIdempotent` |
| GoalStore.Removed | app/src/main/java/com/example/weighttracker/data/local/DataStoreGoalRepository.kt:76 | remove-by-id; see `RemovedHasNoId`, `RemovedCounts`, `RemovedIsSubsequence` |
| GoalStore.InsertByDate | app/src/main/java/com/example/weighttracker/data/local/DataStoreGoalRepository.kt:54 | one step of the stable sort; see `InsertByDateCounts`, `InsertByDateAscending`, `InsertByDateOnDate` |
| GoalStore.SortedByDate | app/src/main/java/com/example/weighttracker/data/local/DataStoreGoalRepository.kt:54 | `sortedBy { it.targetDate }`; see `SortedByDateCounts`, `SortedByDateAscending`, `SortedByDateStable` |
| GoalStore.ReplacedAt | app/src/main/java/com/example/weighttracker/data/local/DataStoreGoalRepository.kt:68 | updating keeps the length; each goal with the new goal's id becomes the new goal and every other position is unchanged |
| GoalStore.ReplacedAbsent | app/src/main/java/com/example/weighttracker/data/local/DataStoreGoalRepository.kt:68 | updating with an id not in the list changes nothing; nothing is inserted |
| GoalStore.ReplacedPresent | app/src/main/java/com/example/weighttracker/data/local/DataStoreGoalRepository.kt:68 | updating with an id that is in the list puts the new goal in the list |
| GoalStore.ReplacedIdempotent | app/src/main/java/com/example/weighttracker/data/local/DataStoreGoalRepository.kt:68 | updating twice with the same goal equals updating once |
| GoalStore.RemovedHasNoId | app/src/main/java/com/example/weighttracker/data/local/DataStoreGoalRepository.kt:76 | after deleting, no goal has the deleted id |
| GoalStore.RemovedCounts | app/src/main/java/com/example/weighttracker/data/local/DataStoreGoalRepository.kt:76 | deleting drops every goal with the id and keeps every other goal exactly as often as before |
| GoalStore.RemovedIsSubsequence | app/src/main/java/com/example/weighttracker/data/local/DataStoreGoalRepository.kt:76 | the remaining goals keep their relative order |
| GoalStore.RemovedAbsent | app/src/main/java/com/example/weighttracker/data/local/DataStoreGoalRepository.kt:76 | deleting an id not in the list changes nothing |
| GoalStore.RemovedIdempotent | app/src/main/java/com/example/weighttracker/data/local/DataStoreGoalRepository.kt:76 | deleting twice equals deleting once |
| GoalStore.InsertByDateCounts | app/src/main/java/com/example/weighttracker/data/local/DataStoreGoalRepository.kt:54 | one insertion step of the sort adds exactly the inserted goal |
| GoalStore.InsertByDateAscending | app/src/main/java/com/example/weighttracker/data/local/DataStoreGoalRepository.kt:54 | one insertion step keeps the list ascending by target date |
| GoalStore.InsertByDateOnDate | app/src/main/java/com/example/weighttracker/data/local/DataStoreGoalRepository.kt:54 | the inserted goal goes ahead of the goals already placed for its day |
| GoalStore.SortedByDateCounts | app/src/main/java/com/example/weighttracker/data/local/DataStoreGoalRepository.kt:54 | the sorted list is a permutation of the input |
| GoalStore.SortedByDateAscending | app/src/main/java/com/example/weighttracker/domain/repository/GoalRepository.kt:11 | the sorted list is ascending by target date |
| GoalStore.SortedByDateStable | app/src/main/java/com/example/weighttracker/data/local/DataStoreGoalRepository.kt:54 | the sort is stable: for every day, the goals due that day keep their stored order |
| GoalStore.DataStoreGoalRepository.constructor | app/src/main/java/com/example/weighttracker/data/local/DataStoreGoalRepository.kt:26-33 | the repository starts from what the "weight_goals" file holds under "goals": nothing for a fresh file, the saved list otherwise |
| GoalStore.DataStoreGoalRepository.CurrentGoals | app/src/main/java/com/example/weighttracker/data/local/DataStoreGoalRepository.kt:86-90 | no stored key gives the empty list; otherwise one goal per stored goal |
| GoalStore.DataStoreGoalRepository.GoalsStream | app/src/main/java/com/example/weighttracker/data/local/DataStoreGoalRepository.kt:48-55 | the emitted list is ascending by target date, a permutation of the stored goals, with the goals of each day in stored order |
| GoalStore.DataStoreGoalRepository.SaveGoalsList | app/src/main/java/com/example/weighttracker/data/local/DataStoreGoalRepository.kt:92-96 | the key holds the list in stored form, and reading it back gives the list that was saved |
| GoalStore.DataStoreGoalRepository.GetAllGoals | app/src/main/java/com/example/weighttracker/data/local/DataStoreGoalRepository.kt:81-84 | returns the list current at the call, unsorted, as `getCurrentGoalsList` reads it (see "## Left out" on the private `first()`) |
| GoalStore.DataStoreGoalRepository.AddGoal | app/src/main/java/com/example/weighttracker/data/local/DataStoreGoalRepository.kt:57-63 | the new list is the old list with the goal appended, even when the id is already present |
| GoalStore.DataStoreGoalRepository.UpdateGoal | app/src/main/java/com/example/weighttracker/data/local/DataStoreGoalRepository.kt:65-71 | the new list is the old list with replace-by-id applied (see `ReplacedAt`, `ReplacedAbsent`) |
| GoalStore.DataStoreGoalRepository.DeleteGoal | app/src/main/java/com/example/weighttracker/data/local/DataStoreGoalRepository.kt:73-79 | the new list is the old list with remove-by-id applied (see `RemovedHasNoId`, `RemovedIsSubsequence`) |
| TrendCalculator.WindowSpan | app/src/main/java/com/example/weighttracker/domain/usecase/WeightTrendCalculator.kt:65 | a window of w >= 1 days reaches w - 1 days back; a non-positive window reaches a negative distance; the minimum `Int` wraps to 2^31 - 1 |
| TrendCalculator.WindowSpanWraps | app/src/main/java/com/example/weighttracker/domain/usecase/WeightTrendCalculator.kt:65 | the span is the 32-bit two's-complement value of `rollingWindow - 1` |
| TrendCalculator.DefaultWindowSpan | app/src/main/java/com/example/weighttracker/domain/usecase/WeightTrendCalculator.kt:11 | the default window of `DEFAULT_WINDOW_DAYS` = 7 days reaches six days back (line 128) |
| TrendCalculator.Sum | app/src/main/java/com/example/weighttracker/domain/usecase/WeightTrendCalculator.kt:73 | `sum()` of a list; see `SumConstant` |
| TrendCalculator.Mean | app/src/main/java/com/example/weighttracker/domain/usecase/WeightTrendCalculator.kt:25 | `average()` of a non-empty list; see `MeanConstant`, `MeanSingle` |
| TrendCalculator.DayWeights | app/src/main/java/com/example/weighttracker/domain/usecase/WeightTrendCalculator.kt:22-25 | the weights of one `groupBy` group, in input order; see `DayWeightsNonEmpty`, `DayWeightsConstant` |
| TrendCalculator.DayMean | app/src/main/java/com/example/weighttracker/domain/usecase/WeightTrendCalculator.kt:24-25 | the average of a sampled day; see `DailyPointsMeans` |
| TrendCalculator.SortedDays | app/src/main/java/com/example/weighttracker/domain/usecase/WeightTrendCalculator.kt:28 | `dailyValues.keys.sorted()`; see `SortedDaysCorrect` |
| TrendCalculator.DateRange | app/src/main/java/com/example/weighttracker/domain/usecase/WeightTrendCalculator.kt:48-55 | `allDates`; see `DateRangeAt`, `ContinuousDates` |
| TrendCalculator.Estimate | app/src/main/java/com/example/weighttracker/domain/usecase/WeightTrendCalculator.kt:97-118 | the value `interpolateWeights` gives a day without data; see `EstimateSorted`, `InterpolatedBetween` |
| TrendCalculator.Interpolated | app/src/main/java/com/example/weighttracker/domain/usecase/WeightTrendCalculator.kt:81-123 | what `interpolateWeights` returns; see `InterpolateWeights`, `InterpolatedKeepsRecorded`, `InterpolatedBetween`, `InterpolatedCovers` |
| TrendCalculator.WindowValues | app/src/main/java/com/example/weighttracker/domain/usecase/WeightTrendCalculator.kt:68-70 | the values of one window; see `WindowValuesOfRange`, `RangeWindow` |
| TrendCalculator.RollingPoints | app/src/main/java/com/example/weighttracker/domain/usecase/WeightTrendCalculator.kt:61-76 | the points the `forEach` has added; see `MovingAverages`, `RollingPointsEveryDay`, `RangeRollingPointAt` |
| TrendCalculator.RollingAverage | app/src/main/java/com/example/weighttracker/domain/usecase/WeightTrendCalculator.kt:41-79 | what `buildRollingAverage` returns; see `BuildRollingAverage`, `BuildCoverage`, `BuildConstant` |
| TrendCalculator.TrendOf | app/src/main/java/com/example/weighttracker/domain/usecase/WeightTrendCalculator.kt:14-39 | what `calculate` returns; see `Calculate`, `CalculateFeedsBuild`, `DailyPointsDays`, `DailyPointsMeans` |
| TrendCalculator.DayWeightsNonEmpty | app/src/main/java/com/example/weighttracker/domain/usecase/WeightTrendCalculator.kt:22-26 | a day's group of weights is non-empty exactly when the day was sampled, so its average is defined |
| TrendCalculator.DailyValues | app/src/main/java/com/example/weighttracker/domain/usecase/WeightTrendCalculator.kt:22-26 | the map's keys are exactly the sampled days |
| TrendCalculator.InsertDayMembers | app/src/main/java/com/example/weighttracker/domain/usecase/WeightTrendCalculator.kt:28 | one insertion step of the day sort keeps the old days and adds the new one |
| TrendCalculator.InsertDaySorted | app/src/main/java/com/example/weighttracker/domain/usecase/WeightTrendCalculator.kt:28 | one insertion step keeps the days strictly ascending |
| TrendCalculator.SortedDaysCorrect | app/src/main/java/com/example/weighttracker/domain/usecase/WeightTrendCalculator.kt:28 | the sorted keys are strictly ascending and are exactly the sampled days |
| TrendCalculator.SortedDaysHaveValues | app/src/main/java/com/example/weighttracker/domain/usecase/WeightTrendCalculator.kt:28-30 | every sorted day has a daily value, so `getValue` cannot fail |
| TrendCalculator.PointsOf | app/src/main/java/com/example/weighttracker/domain/usecase/WeightTrendCalculator.kt:29-31 | one point per sorted day, in order, carrying that day's value |
| TrendCalculator.DateRangeAt | app/src/main/java/com/example/weighttracker/domain/usecase/WeightTrendCalculator.kt:48-55 | the range from first to last has last - first + 1 days (none if first > last), and its i-th day is first + i |
| TrendCalculator.ContinuousDates | app/src/main/java/com/example/weighttracker/domain/usecase/WeightTrendCalculator.kt:50-55 | the `while` loop lists exactly the days from the first date to the last |
| TrendCalculator.LastBefore | app/src/main/java/com/example/weighttracker/domain/usecase/WeightTrendCalculator.kt:97 | a found day is listed and lies before the date; none found means no listed day lies before it |
| TrendCalculator.FirstAfter | app/src/main/java/com/example/weighttracker/domain/usecase/WeightTrendCalculator.kt:98 | a found day is listed and lies after the date; none found means no listed day lies after it |
| TrendCalculator.RecordedIsMap | app/src/main/java/com/example/weighttracker/domain/usecase/WeightTrendCalculator.kt:89-91 | after the first loop has visited n sorted days, the map holds exactly those days and their daily values |
| TrendCalculator.InterpolatedSnoc | app/src/main/java/com/example/weighttracker/domain/usecase/WeightTrendCalculator.kt:94-120 | visiting one more day adds its estimate unless the day already has a value or has no neighbour |
| TrendCalculator.RecordedIsInterpolatedOfNone | app/src/main/java/com/example/weighttracker/domain/usecase/WeightTrendCalculator.kt:86-91 | after the first loop the map is the interpolation over no days |
| TrendCalculator.FilledIsInterpolated | app/src/main/java/com/example/weighttracker/domain/usecase/WeightTrendCalculator.kt:94-120 | after the second loop has visited n days, the map is the interpolation over those n days |
| TrendCalculator.FillDay | app/src/main/java/com/example/weighttracker/domain/usecase/WeightTrendCalculator.kt:95-118 | a day already in the map is left alone; otherwise it gets the interpolated value, or the one neighbour's value, or nothing |
| TrendCalculator.InterpolateWeights | app/src/main/java/com/example/weighttracker/domain/usecase/WeightTrendCalculator.kt:81-123 | the two loops compute `Interpolated`: recorded days keep their daily value; other days get their estimate |
| TrendCalculator.MovingAverages | app/src/main/java/com/example/weighttracker/domain/usecase/WeightTrendCalculator.kt:61-78 | the `forEach` loop appends one point per day whose window is non-empty, in day order |
| TrendCalculator.BuildRollingAverage | app/src/main/java/com/example/weighttracker/domain/usecase/WeightTrendCalculator.kt:41-79 | no sorted days give no points; otherwise the result is the rolling series over the continuous interpolated range |
| TrendCalculator.Calculate | app/src/main/java/com/example/weighttracker/domain/usecase/WeightTrendCalculator.kt:14-39 | no entries give two empty series; otherwise the daily and rolling series of `TrendOf` |
| TrendProperties.LastBeforeSorted | app/src/main/java/com/example/weighttracker/domain/usecase/WeightTrendCalculator.kt:97 | in ascending days, `lastOrNull { isBefore }` is the nearest recorded day before the date |
| TrendProperties.FirstAfterSorted | app/src/main/java/com/example/weighttracker/domain/usecase/WeightTrendCalculator.kt:98 | in ascending days, `firstOrNull { isAfter }` is the nearest recorded day after the date |
| TrendProperties.RatioBetween | app/src/main/java/com/example/weighttracker/domain/usecase/WeightTrendCalculator.kt:105-107 | strictly between two days, the ratio lies strictly between 0 and 1 (the divisor is positive) |
| TrendProperties.LerpBetween | app/src/main/java/com/example/weighttracker/domain/usecase/WeightTrendCalculator.kt:108 | for a ratio in [0, 1], the interpolated value lies between the two neighbour values |
| TrendProperties.LerpConstant | app/src/main/java/com/example/weighttracker/domain/usecase/WeightTrendCalculator.kt:108 | interpolating between equal values gives that value |
| TrendProperties.InterpolatedKeepsRecorded | app/src/main/java/com/example/weighttracker/domain/usecase/WeightTrendCalculator.kt:89-95 | every recorded day keeps its daily value; the second loop never overwrites it |
| TrendProperties.BetweenNotRecorded | app/src/main/java/com/example/weighttracker/domain/usecase/WeightTrendCalculator.kt:95 | a day strictly between two consecutive recorded days is not recorded |
| TrendProperties.InterpolatedEstimate | app/src/main/java/com/example/weighttracker/domain/usecase/WeightTrendCalculator.kt:94-119 | a listed, unrecorded day with an estimate gets that estimate |
| TrendProperties.LerpRatioBounds | app/src/main/java/com/example/weighttracker/domain/usecase/WeightTrendCalculator.kt:105-108 | strictly between two days the ratio is in (0, 1) and the value lies between the neighbour values |
| TrendProperties.EstimateSorted | app/src/main/java/com/example/weighttracker/domain/usecase/WeightTrendCalculator.kt:97-108 | between consecutive recorded days, the estimate interpolates those two days' values |
| TrendProperties.InterpolatedBetween | app/src/main/java/com/example/weighttracker/domain/usecase/WeightTrendCalculator.kt:94-109 | a day between consecutive recorded days gets before + (after - before) * (d - beforeDay) / (afterDay - beforeDay), between the two neighbour values |
| TrendProperties.InterpolatedCovers | app/src/main/java/com/example/weighttracker/domain/usecase/WeightTrendCalculator.kt:94-120 | with at least one recorded day, every listed day gets a value |
| TrendProperties.InterpolatedConstant | app/src/main/java/com/example/weighttracker/domain/usecase/WeightTrendCalculator.kt:86-120 | if every daily value is c, every interpolated value is c |
| TrendProperties.ValuesOfDaysAt | app/src/main/java/com/example/weighttracker/domain/usecase/WeightTrendCalculator.kt:68-70 | a run of days that all have values gives one value per day, in day order |
| TrendProperties.WindowValuesOfRange | app/src/main/java/com/example/weighttracker/domain/usecase/WeightTrendCalculator.kt:68-70 | over a continuous range, the window holds the values of the days in [start, date] clipped to the range |
| TrendProperties.WindowValuesHasDate | app/src/main/java/com/example/weighttracker/domain/usecase/WeightTrendCalculator.kt:68-72 | a window containing a valued day of the range is non-empty |
| TrendProperties.WindowValuesInverted | app/src/main/java/com/example/weighttracker/domain/usecase/WeightTrendCalculator.kt:65-70 | a window starting after its date is empty |
| TrendProperties.WindowValuesConstant | app/src/main/java/com/example/weighttracker/domain/usecase/WeightTrendCalculator.kt:68-70 | if every value is c, every window value is c |
| TrendProperties.SumConstant | app/src/main/java/com/example/weighttracker/domain/usecase/WeightTrendCalculator.kt:73 | n copies of c sum to n * c |
| TrendProperties.MeanConstant | app/src/main/java/com/example/weighttracker/domain/usecase/WeightTrendCalculator.kt:73 | the mean of copies of c is c |
| TrendProperties.RollingPointsEveryDay | app/src/main/java/com/example/weighttracker/domain/usecase/WeightTrendCalculator.kt:63-76 | with span >= 0 and a value for every day, the k-th point is the k-th day with the rounded mean of its (non-empty) window |
| TrendProperties.RollingPointsNegativeSpan | app/src/main/java/com/example/weighttracker/domain/usecase/WeightTrendCalculator.kt:65-72 | a negative span makes every window empty, so there are no points |
| TrendProperties.RollingPointsTenths | app/src/main/java/com/example/weighttracker/domain/usecase/WeightTrendCalculator.kt:73 | every rolling value is a whole number of tenths |
| TrendProperties.RollingPointsConstant | app/src/main/java/com/example/weighttracker/domain/usecase/WeightTrendCalculator.kt:68-74 | if every value is c, every rolling value is c rounded to tenths |
| TrendProperties.PointsOfSorted | app/src/main/java/com/example/weighttracker/domain/usecase/WeightTrendCalculator.kt:29-31 | from ascending days, the points are strictly ascending by date, with a point exactly for each listed day |
| TrendProperties.ConsecutiveGap | app/src/main/java/com/example/weighttracker/domain/usecase/WeightTrendCalculator.kt:97-98 | no recorded day lies strictly between two consecutive recorded days |
| TrendProperties.BetweenConsecutive | app/src/main/java/com/example/weighttracker/domain/usecase/WeightTrendCalculator.kt:97-101 | an unrecorded day inside the range lies between some pair of consecutive recorded days |
| TrendProperties.RollingPointOfDay | app/src/main/java/com/example/weighttracker/domain/usecase/WeightTrendCalculator.kt:63-75 | with a value for every day, day k's point is that day with the rounded mean of its non-empty window |
| TrendProperties.RangeWindow | app/src/main/java/com/example/weighttracker/domain/usecase/WeightTrendCalculator.kt:65-70 | over a continuous range, the window of the k-th day holds the values of days max(first, d - span) to d, which is min(k, span) + 1 values: early windows shrink and are not padded |
| TrendProperties.RangeCovered | app/src/main/java/com/example/weighttracker/domain/usecase/WeightTrendCalculator.kt:48-58 | a range whose days all have values has last - first + 1 days, each with a value |
| TrendProperties.RangeRollingPointAt | app/src/main/java/com/example/weighttracker/domain/usecase/WeightTrendCalculator.kt:63-75 | over a continuous valued range, point k is day first + k, carrying the rounded mean of the min(k, span) + 1 values ending there |
| TrendProperties.RangeRollingPointNear | app/src/main/java/com/example/weighttracker/domain/usecase/WeightTrendCalculator.kt:73 | each such rolling value is a whole number of tenths within half a tenth of its unrounded window mean |
| TrendProperties.RangeInterpolatedCovers | app/src/main/java/com/example/weighttracker/domain/usecase/WeightTrendCalculator.kt:48-58 | every day from the first recorded day to the last gets an interpolated value |
| TrendProperties.RangeInterpolatedBetween | app/src/main/java/com/example/weighttracker/domain/usecase/WeightTrendCalculator.kt:94-109 | over the continuous range, a missing day between consecutive recorded days is interpolated linearly and lies between its neighbours' values |
| TrendProperties.RangeCoverage | app/src/main/java/com/example/weighttracker/domain/usecase/WeightTrendCalculator.kt:63-76 | over a continuous valued range with span >= 0, there is one point per day, dated first + k |
| TrendProperties.BuildCoverage | app/src/main/java/com/example/weighttracker/domain/usecase/WeightTrendCalculator.kt:41-79 | for a window of at least one day, `buildRollingAverage` gives exactly last - first + 1 points, the k-th dated first + k |
| TrendProperties.BuildNonPositiveWindow | app/src/main/java/com/example/weighttracker/domain/usecase/WeightTrendCalculator.kt:65-76 | a window of zero or fewer days (except the wrapping minimum) gives no points |
| TrendProperties.BuildConstant | app/src/main/java/com/example/weighttracker/domain/usecase/WeightTrendCalculator.kt:58-76 | if every daily value is c, every rolling point is c rounded to tenths |
| TrendProperties.MeanSingle | app/src/main/java/com/example/weighttracker/domain/usecase/WeightTrendCalculator.kt:25 | the average of one value is that value |
| TrendProperties.BuildSingleDay | app/src/main/java/com/example/weighttracker/domain/usecase/WeightTrendCalculator.kt:41-79 | a single sorted day gives one point, its value rounded to tenths |
| CalculateProperties.CalculateFeedsBuild | app/src/main/java/com/example/weighttracker/domain/usecase/WeightTrendCalculator.kt:22-33 | `calculate` hands `buildRollingAverage` non-empty, strictly ascending days that all have daily values, and returns its result as the rolling series |
| CalculateProperties.DailyPointsDays | app/src/main/java/com/example/weighttracker/domain/usecase/WeightTrendCalculator.kt:22-31 | the daily series is strictly ascending by date, with a point exactly for each sampled day |
| CalculateProperties.DailyPointsMeans | app/src/main/java/com/example/weighttracker/domain/usecase/WeightTrendCalculator.kt:22-31 | each daily point carries the unweighted mean of that day's samples |
| CalculateProperties.NonPositiveWindow | app/src/main/java/com/example/weighttracker/domain/usecase/WeightTrendCalculator.kt:65-76 | a window of zero or fewer days (except the wrapping minimum) gives an empty rolling series |
| CalculateProperties.DayWeightsConstant | app/src/main/java/com/example/weighttracker/domain/usecase/WeightTrendCalculator.kt:23-25 | if every sample weighs c, so does every weight of a day's group |
| CalculateProperties.DailyValuesConstant | app/src/main/java/com/example/weighttracker/domain/usecase/WeightTrendCalculator.kt:22-26 | if every sample weighs c, every daily value is c |
| CalculateProperties.ConstantSeries | app/src/main/java/com/example/weighttracker/domain/usecase/WeightTrendCalculator.kt:14-39 | if every sample weighs c, every daily point is c and every rolling point is c rounded to tenths |
| CalculateProperties.ConstantNinety | app/src/test/java/com/example/weighttracker/domain/usecase/WeightTrendCalculatorTest.kt:137-150 | samples of 90.0 give rolling points of 90.0 only |
| CalculateProperties.SingleEntry | app/src/test/java/com/example/weighttracker/domain/usecase/WeightTrendCalculatorTest.kt:124-135 | one entry gives one daily point with its weight and one rolling point with its weight rounded to tenths |
| CalculateProperties.TwoDaySortedDays | app/src/test/java/com/example/weighttracker/domain/usecase/WeightTrendCalculatorTest.kt:17-21 | samples on days 0, 0 and 1 sort to the days [0, 1] |
| CalculateProperties.TwoDayWeights | app/src/test/java/com/example/weighttracker/domain/usecase/WeightTrendCalculatorTest.kt:17-21 | day 0 groups 90.0 and 91.0, and day 1 groups 89.5 |
| CalculateProperties.TwoDayDailyValues | app/src/test/java/com/example/weighttracker/domain/usecase/WeightTrendCalculatorTest.kt:16-28 | the daily values are 90.5 for day 0 and 89.5 for day 1 |
| CalculateProperties.DailyMeansExample | app/src/test/java/com/example/weighttracker/domain/usecase/WeightTrendCalculatorTest.kt:16-28 | the daily series of those samples is exactly (day 0, 90.5), (day 1, 89.5) |
| CalculateProperties.SumPermutation | app/src/main/java/com/example/weighttracker/domain/usecase/WeightTrendCalculator.kt:73 | the sum of a list of values depends only on which values it holds, each counted as often as it occurs (exact reals) |
| CalculateProperties.DayWeightsPermutation | app/src/main/java/com/example/weighttracker/domain/usecase/WeightTrendCalculator.kt:22-25 | reordering the samples gives each day the same weights, each as often |
| CalculateProperties.StrictlyIncreasingUnique | app/src/main/java/com/example/weighttracker/domain/usecase/WeightTrendCalculator.kt:28 | two strictly ascending lists with the same elements are equal, so the sorted days depend only on which days were sampled |
| CalculateProperties.OrderIndependent | app/src/main/java/com/example/weighttracker/domain/usecase/WeightTrendCalculator.kt:14-39 | the same samples in any order, including repeated days or samples, give the same daily and rolling series |
| TrendExamples.EvenlySpaced | app/src/test/java/com/example/weighttracker/domain/usecase/WeightTrendCalculatorTest.kt:104-117 | 80.0 and 84.0 four days apart interpolate to 80.0, 81.0, 82.0, 83.0, 84.0 |
| TrendExamples.EvenlySpacedBetween | app/src/test/java/com/example/weighttracker/domain/usecase/WeightTrendCalculatorTest.kt:116-117 | each of the three missing days gets 80.0 plus its distance from the first day |
| TrendExamples.GapLastWindow | app/src/test/java/com/example/weighttracker/domain/usecase/WeightTrendCalculatorTest.kt:118-121 | over five days valued 80.0 to 84.0, the last seven-day window holds the five days available, and its rounded mean is 82.0 |
| TrendExamples.GapRollingAverage | app/src/test/java/com/example/weighttracker/domain/usecase/WeightTrendCalculatorTest.kt:104-122 | two samples four days apart give five rolling points, the last one on the later sample's day with 82.0 |
| TrendExamples.FallingWeekWindows | app/src/test/java/com/example/weighttracker/domain/usecase/WeightTrendCalculatorTest.kt:39-42 | over eight days from 90.0 down by 0.5, the first window is the first day alone (90.0), and the last window is the latest seven days (88.0) |
| TrendExamples.FallingWeekRollingAverage | app/src/test/java/com/example/weighttracker/domain/usecase/WeightTrendCalculatorTest.kt:30-43 | eight consecutive sampled days from 90.0 down by 0.5 give eight rolling points, the first 90.0 and the last 88.0 |

## Left out

- The Compose UI, the ViewModel, Health Connect, permissions and Android wiring: platform, UI and I/O code.
- The DataStore file, the `edit {}` transaction, `Flow` and coroutine dispatching: the repository is one object whose methods never overlap. Concurrent edits are not modelled.
- GoalStore.DataStoreGoalRepository.GetAllGoals: the model returns the list current at the call. As written, `getAllGoals` reads the preferences through the class's own private `Flow.first()` (`DataStoreGoalRepository.kt:114-121`), whose `return@collect` leaves only the lambda. It therefore keeps collecting DataStore's `data` flow, which never completes, and never returns. Suspension and non-termination are not modelled.
- JSON encoding and decoding of the goal list: the stored value is the decoded list. A malformed stored string, which would throw, is not modelled.
- ISO-8601 date text in `SerializableGoal`: dates are day numbers, so `LocalDate.parse(date.toString())` is the identity here.
- `LocalDate.ofInstant` and time zones: each sample carries its day number. The display formatters of `WeightEntry` are left out too.
- `LocalDate.now()` and `UUID.randomUUID()`: `today` is a parameter, and ids and creation dates are always given. The members of `WeightGoal` all share the one `today` they are given. Each Kotlin getter calls `LocalDate.now()` on its own, so `DueStatusMatchesDaysRemaining`'s "never both" holds in the source only when the calls fall on the same day. Across midnight, `isDueToday()` and then `isPastDue()` can both return true.
- IEEE-754 doubles: weights are exact reals. Rounding error, `roundToInt` saturation and NaN are not modelled. So the model does not show, for example, a window mean landing just below a tie because of float error.
- `List.average()` and `sum()` add left to right in doubles; here the sum is exact. So `OrderIndependent` (the same samples in any order give the same trend) holds in doubles only up to rounding error, since each day's sum follows input order.
- The 0-to-10 test over fifteen days (a last rolling point of 7.9) and the direction-change test (the slope after the turn is greater than before it) are not restated as lemmas. Only their point counts follow, from `BuildCoverage`; their window values and the slope comparison are not proved.
- Units.Lowercase: lower-cases only the ASCII letters A to Z, one character at a time, and keeps the length. Kotlin's `lowercase()` maps every cased letter and can change the length (U+0130 becomes two characters).
- Units.FromString: lower-cases only the ASCII letters A to Z. Kotlin's `lowercase()` maps other letters too, but no character outside A to Z lower-cases to a letter of "lbs", "lb" or "pounds", so the parser gives the same answers.
- TrendProperties.RangeRollingPointAt: it is stated on an abstract map with a value for every day of the range, not on `calculate`'s entries directly. `RangeInterpolatedCovers` shows the interpolated map has such a value for every day, and `CalculateFeedsBuild` connects `calculate` to `buildRollingAverage`.
