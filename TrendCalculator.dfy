/**
 * `WeightTrendCalculator`: turns weight samples into daily averages and a rolling
 * average over a continuous, gap-interpolated range of days.
 *
 * The functions are the specification (and model the pure `groupBy`/`sorted`/`map`
 * pipeline); the methods model the loops of `buildRollingAverage` and
 * `interpolateWeights` and are proved equal to those functions.
 */
module TrendCalculator {
  import opened Wrappers
  import opened Rounding
  import opened Entries
  import opened Trend

  /** Kotlin `Int`. */
  newtype int32 = x: int | -0x8000_0000 <= x < 0x8000_0000

  /** `DEFAULT_WINDOW_DAYS`. */
  const DEFAULT_WINDOW_DAYS: int32 := 7

  /** `(rollingWindow - 1).toLong()`: the subtraction is done in 32 bits and wraps. */
  function WindowSpan(rollingWindow: int32): (span: int)
    ensures rollingWindow >= 1 ==> span == rollingWindow as int - 1
    ensures -0x8000_0000 < rollingWindow as int <= 0 ==> span < 0
    ensures rollingWindow as int == -0x8000_0000 ==> span == 0x7fff_ffff
  {
    if rollingWindow as int == -0x8000_0000 then 0x7fff_ffff else rollingWindow as int - 1
  }

  /** The default window reaches back six days: a window holds today and the six days
      before it. */
  lemma DefaultWindowSpan()
    ensures WindowSpan(DEFAULT_WINDOW_DAYS) == 6
  {
  }

  /** The span is the 32-bit two's-complement result of `rollingWindow - 1`. */
  lemma WindowSpanWraps(rollingWindow: int32)
    ensures WindowSpan(rollingWindow) == (rollingWindow as int - 1 + 0x8000_0000) % 0x1_0000_0000 - 0x8000_0000
    ensures -0x8000_0000 <= WindowSpan(rollingWindow) < 0x8000_0000
  {
    if rollingWindow as int == -0x8000_0000 {
      assert (rollingWindow as int - 1 + 0x8000_0000) % 0x1_0000_0000 == 0xffff_ffff;
    } else {
      assert 0 <= rollingWindow as int - 1 + 0x8000_0000 < 0x1_0000_0000;
    }
  }

  // ---------------------------------------------------------------- arithmetic

  /** `List<Double>.sum()`, added left to right. */
  function Sum(xs: seq<real>): real {
    if xs == [] then 0.0 else Sum(xs[..|xs| - 1]) + xs[|xs| - 1]
  }

  /** `average()` of a non-empty list. */
  function Mean(xs: seq<real>): real
    requires |xs| > 0
  {
    Sum(xs) / |xs| as real
  }

  // ---------------------------------------------------------------- daily values

  /** The distinct days that have at least one sample. */
  function DaySet(entries: seq<WeightEntry>): set<int> {
    set e | e in entries :: e.day
  }

  /** The weights recorded on `day`, in input order (one group of `groupBy`). */
  function DayWeights(entries: seq<WeightEntry>, day: int): seq<real> {
    if entries == [] then []
    else (if entries[0].day == day then [entries[0].weightKg] else []) + DayWeights(entries[1..], day)
  }

  /** A day has samples exactly when its group of weights is non-empty. */
  lemma {:induction false} DayWeightsNonEmpty(entries: seq<WeightEntry>, day: int)
    ensures |DayWeights(entries, day)| > 0 <==> day in DaySet(entries)
  {
    if entries != [] {
      DayWeightsNonEmpty(entries[1..], day);
      assert entries == [entries[0]] + entries[1..];
      assert DaySet(entries) == {entries[0].day} + DaySet(entries[1..]);
    }
  }

  /** The unweighted mean of the samples recorded on a sampled day. */
  function DayMean(entries: seq<WeightEntry>, day: int): real
    requires day in DaySet(entries)
  {
    DayWeightsNonEmpty(entries, day);
    Mean(DayWeights(entries, day))
  }

  /** `dailyValues`: every sampled day mapped to its mean weight. */
  function DailyValues(entries: seq<WeightEntry>): (dv: map<int, real>)
    ensures dv.Keys == DaySet(entries)
  {
    map d | d in DaySet(entries) :: DayMean(entries, d)
  }

  predicate StrictlyIncreasing(xs: seq<int>) {
    forall i, j :: 0 <= i < j < |xs| ==> xs[i] < xs[j]
  }

  /** Inserts x into an ascending list of distinct days unless it is already there. */
  function InsertDay(xs: seq<int>, x: int): seq<int> {
    if xs == [] then [x]
    else if x < xs[0] then [x] + xs
    else if x == xs[0] then xs
    else [xs[0]] + InsertDay(xs[1..], x)
  }

  /** Inserting keeps exactly the old days and the new one. */
  lemma {:induction false} InsertDayMembers(xs: seq<int>, x: int)
    ensures forall y :: y in InsertDay(xs, x) <==> y in xs || y == x
  {
    if xs != [] && x > xs[0] {
      InsertDayMembers(xs[1..], x);
      assert xs == [xs[0]] + xs[1..];
    }
  }

  /** Inserting keeps the list ascending and free of repeats. */
  lemma {:induction false} InsertDaySorted(xs: seq<int>, x: int)
    requires StrictlyIncreasing(xs)
    ensures StrictlyIncreasing(InsertDay(xs, x))
  {
    if xs != [] && x > xs[0] {
      var tail := xs[1..];
      InsertDaySorted(tail, x);
      InsertDayMembers(tail, x);
      var r := InsertDay(tail, x);
      assert forall k :: 0 <= k < |tail| ==> tail[k] == xs[k + 1];
      forall j | 0 <= j < |r| ensures xs[0] < r[j] {
        assert r[j] in r;
      }
    }
  }

  /** `dailyValues.keys.sorted()`. */
  function SortedDays(entries: seq<WeightEntry>): seq<int> {
    if entries == [] then [] else InsertDay(SortedDays(entries[1..]), entries[0].day)
  }

  /** The sorted days are ascending, without repeats, and are exactly the sampled days. */
  lemma {:induction false} SortedDaysCorrect(entries: seq<WeightEntry>)
    ensures StrictlyIncreasing(SortedDays(entries))
    ensures forall d :: d in SortedDays(entries) <==> d in DaySet(entries)
  {
    if entries != [] {
      SortedDaysCorrect(entries[1..]);
      InsertDayMembers(SortedDays(entries[1..]), entries[0].day);
      InsertDaySorted(SortedDays(entries[1..]), entries[0].day);
      assert entries == [entries[0]] + entries[1..];
      assert DaySet(entries) == {entries[0].day} + DaySet(entries[1..]);
    }
  }

  /** Every sorted day has a daily value (in the index form the later functions require). */
  lemma SortedDaysHaveValues(entries: seq<WeightEntry>)
    ensures forall i :: 0 <= i < |SortedDays(entries)| ==> SortedDays(entries)[i] in DailyValues(entries)
  {
    SortedDaysCorrect(entries);
    var ds := SortedDays(entries);
    forall i | 0 <= i < |ds| ensures ds[i] in DailyValues(entries) {
      assert ds[i] in ds;
    }
  }

  /** `sortedDates.map { TrendPoint(it, dailyValues.getValue(it)) }`. */
  function PointsOf(dates: seq<int>, values: map<int, real>): (ps: seq<TrendPoint>)
    requires forall i :: 0 <= i < |dates| ==> dates[i] in values
    ensures |ps| == |dates|
    ensures forall i :: 0 <= i < |dates| ==> ps[i] == TrendPoint(dates[i], values[dates[i]])
  {
    if dates == [] then [] else [TrendPoint(dates[0], values[dates[0]])] + PointsOf(dates[1..], values)
  }

  // ---------------------------------------------------------------- date range

  /** `allDates`: every day from `first` to `last` inclusive. */
  function DateRange(first: int, last: int): (r: seq<int>)
    decreases last - first
  {
    if first > last then [] else [first] + DateRange(first + 1, last)
  }

  lemma {:induction false} DateRangeAt(first: int, last: int)
    ensures |DateRange(first, last)| == if first <= last then last - first + 1 else 0
    ensures forall i :: 0 <= i < |DateRange(first, last)| ==> DateRange(first, last)[i] == first + i
    decreases last - first
  {
    if first <= last {
      DateRangeAt(first + 1, last);
    }
  }

  lemma {:induction false} DateRangeSnoc(first: int, last: int)
    requires first <= last + 1
    ensures DateRange(first, last + 1) == DateRange(first, last) + [last + 1]
    decreases last - first
  {
    if first <= last {
      DateRangeSnoc(first + 1, last);
    }
  }

  /** The `while` loop of `buildRollingAverage` that lists every day from `firstDate`
      to `lastDate`. */
  method ContinuousDates(firstDate: int, lastDate: int) returns (allDates: seq<int>)
    ensures allDates == DateRange(firstDate, lastDate)
  {
    allDates := [];
    var currentDate := firstDate;
    while currentDate <= lastDate
      invariant currentDate == firstDate || firstDate < currentDate <= lastDate + 1
      invariant allDates == DateRange(firstDate, currentDate - 1)
      decreases lastDate - currentDate
    {
      DateRangeSnoc(firstDate, currentDate - 1);
      allDates := allDates + [currentDate];
      currentDate := currentDate + 1;
    }
  }

  // ---------------------------------------------------------------- interpolation

  /** `sortedDates.lastOrNull { it.isBefore(date) }`: the last listed day before `date`. */
  function LastBefore(days: seq<int>, date: int): (b: Option<int>)
    ensures b.Some? ==> b.value in days && b.value < date
    ensures b.None? ==> forall x :: x in days ==> x >= date
  {
    if days == [] then None
    else if days[|days| - 1] < date then Some(days[|days| - 1])
    else
      assert days == days[..|days| - 1] + [days[|days| - 1]];
      LastBefore(days[..|days| - 1], date)
  }

  /** `sortedDates.firstOrNull { it.isAfter(date) }`: the first listed day after `date`. */
  function FirstAfter(days: seq<int>, date: int): (a: Option<int>)
    ensures a.Some? ==> a.value in days && a.value > date
    ensures a.None? ==> forall x :: x in days ==> x <= date
  {
    if days == [] then None
    else if days[0] > date then Some(days[0])
    else
      assert days == [days[0]] + days[1..];
      FirstAfter(days[1..], date)
  }

  /** The point a fraction `ratio` of the way from `from` to `to`. */
  function Lerp(from: real, to: real, ratio: real): real {
    from + (to - from) * ratio
  }

  /** The value `interpolateWeights` gives a day without data: the straight line between
      the neighbouring days, else the one neighbour's value, else nothing. */
  function Estimate(sortedDates: seq<int>, dailyValues: map<int, real>, date: int): Option<real>
    requires forall i :: 0 <= i < |sortedDates| ==> sortedDates[i] in dailyValues
  {
    var beforeDate := LastBefore(sortedDates, date);
    var afterDate := FirstAfter(sortedDates, date);
    if beforeDate.Some? && afterDate.Some? then
      var ratio := (date - beforeDate.value) as real / (afterDate.value - beforeDate.value) as real;
      Some(Lerp(dailyValues[beforeDate.value], dailyValues[afterDate.value], ratio))
    else if beforeDate.Some? then Some(dailyValues[beforeDate.value])
    else if afterDate.Some? then Some(dailyValues[afterDate.value])
    else None
  }

  lemma EstimateBetween(sortedDates: seq<int>, dailyValues: map<int, real>, date: int)
    requires forall i :: 0 <= i < |sortedDates| ==> sortedDates[i] in dailyValues
    requires LastBefore(sortedDates, date).Some? && FirstAfter(sortedDates, date).Some?
    ensures var b, a := LastBefore(sortedDates, date).value, FirstAfter(sortedDates, date).value;
      Estimate(sortedDates, dailyValues, date).Some? &&
      Estimate(sortedDates, dailyValues, date).value ==
        Lerp(dailyValues[b], dailyValues[a], (date - b) as real / (a - b) as real)
  {
  }

  /** The days `interpolateWeights` gives a value to. */
  function InterpolatedDays(allDates: seq<int>, sortedDates: seq<int>, dailyValues: map<int, real>): set<int>
    requires forall i :: 0 <= i < |sortedDates| ==> sortedDates[i] in dailyValues
  {
    (set d | d in sortedDates) +
    (set d | d in allDates && d !in sortedDates && Estimate(sortedDates, dailyValues, d).Some?)
  }

  /** What `interpolateWeights` returns: recorded days keep their daily value, the other
      days of `allDates` get their estimate. */
  function Interpolated(allDates: seq<int>, sortedDates: seq<int>, dailyValues: map<int, real>): (m: map<int, real>)
    requires forall i :: 0 <= i < |sortedDates| ==> sortedDates[i] in dailyValues
  {
    map d | d in InterpolatedDays(allDates, sortedDates, dailyValues) ::
      if d in sortedDates then dailyValues[d] else Estimate(sortedDates, dailyValues, d).value
  }

  /** The map after the first loop of `interpolateWeights` has visited `n` sorted days. */
  function Recorded(sortedDates: seq<int>, dailyValues: map<int, real>, n: nat): map<int, real>
    requires n <= |sortedDates|
    requires forall i :: 0 <= i < |sortedDates| ==> sortedDates[i] in dailyValues
  {
    if n == 0 then map[]
    else Recorded(sortedDates, dailyValues, n - 1)[sortedDates[n - 1] := dailyValues[sortedDates[n - 1]]]
  }

  /** The map after the second loop of `interpolateWeights` has visited `n` days of
      `allDates`. */
  function Filled(allDates: seq<int>, sortedDates: seq<int>, dailyValues: map<int, real>, n: nat): map<int, real>
    requires n <= |allDates|
    requires forall i :: 0 <= i < |sortedDates| ==> sortedDates[i] in dailyValues
  {
    if n == 0 then Recorded(sortedDates, dailyValues, |sortedDates|)
    else
      var m := Filled(allDates, sortedDates, dailyValues, n - 1);
      var date := allDates[n - 1];
      var estimate := Estimate(sortedDates, dailyValues, date);
      if date in m || estimate.None? then m else m[date := estimate.value]
  }

  lemma {:induction false} RecordedIsMap(sortedDates: seq<int>, dailyValues: map<int, real>, n: nat)
    requires n <= |sortedDates|
    requires forall i :: 0 <= i < |sortedDates| ==> sortedDates[i] in dailyValues
    ensures Recorded(sortedDates, dailyValues, n) == map d | d in sortedDates[..n] :: dailyValues[d]
  {
    if n > 0 {
      RecordedIsMap(sortedDates, dailyValues, n - 1);
      assert sortedDates[..n] == sortedDates[..n - 1] + [sortedDates[n - 1]];
    }
  }

  /** One step of the second loop of `interpolateWeights`, stated on `Interpolated`. */
  lemma InterpolatedSnoc(dates: seq<int>, d: int, sortedDates: seq<int>, dailyValues: map<int, real>)
    requires forall i :: 0 <= i < |sortedDates| ==> sortedDates[i] in dailyValues
    ensures var m := Interpolated(dates, sortedDates, dailyValues);
      Interpolated(dates + [d], sortedDates, dailyValues) ==
        if d in m || Estimate(sortedDates, dailyValues, d).None? then m
        else m[d := Estimate(sortedDates, dailyValues, d).value]
  {
    assert InterpolatedDays(dates + [d], sortedDates, dailyValues) ==
      InterpolatedDays(dates, sortedDates, dailyValues) +
      (if d !in sortedDates && Estimate(sortedDates, dailyValues, d).Some? then {d} else {});
  }

  /** After the first loop, the map holds exactly the recorded days. */
  lemma RecordedIsInterpolatedOfNone(sortedDates: seq<int>, dailyValues: map<int, real>)
    requires forall i :: 0 <= i < |sortedDates| ==> sortedDates[i] in dailyValues
    ensures Recorded(sortedDates, dailyValues, |sortedDates|) == Interpolated([], sortedDates, dailyValues)
  {
    RecordedIsMap(sortedDates, dailyValues, |sortedDates|);
    assert sortedDates[..|sortedDates|] == sortedDates;
    assert InterpolatedDays([], sortedDates, dailyValues) == set d | d in sortedDates;
  }

  /** The two loops of `interpolateWeights`, stopped after `n` days of the second one,
      have computed `Interpolated` of those days. */
  lemma {:induction false} FilledIsInterpolated(allDates: seq<int>, sortedDates: seq<int>, dailyValues: map<int, real>, n: nat)
    requires n <= |allDates|
    requires forall i :: 0 <= i < |sortedDates| ==> sortedDates[i] in dailyValues
    ensures Filled(allDates, sortedDates, dailyValues, n) == Interpolated(allDates[..n], sortedDates, dailyValues)
  {
    if n == 0 {
      RecordedIsInterpolatedOfNone(sortedDates, dailyValues);
    } else {
      FilledIsInterpolated(allDates, sortedDates, dailyValues, n - 1);
      var before, date := allDates[..n - 1], allDates[n - 1];
      assert allDates[..n] == before + [date];
      InterpolatedSnoc(before, date, sortedDates, dailyValues);
    }
  }

  lemma FilledAllIsInterpolated(allDates: seq<int>, sortedDates: seq<int>, dailyValues: map<int, real>)
    requires forall i :: 0 <= i < |sortedDates| ==> sortedDates[i] in dailyValues
    ensures Filled(allDates, sortedDates, dailyValues, |allDates|) == Interpolated(allDates, sortedDates, dailyValues)
  {
    FilledIsInterpolated(allDates, sortedDates, dailyValues, |allDates|);
    assert allDates[..|allDates|] == allDates;
  }

  /** The body of the second loop of `interpolateWeights`: a day without a value gets
      the interpolated one, or the nearest neighbour's, or stays without. */
  method FillDay(result: map<int, real>, date: int, sortedDates: seq<int>, dailyValues: map<int, real>)
    returns (filled: map<int, real>)
    requires forall i :: 0 <= i < |sortedDates| ==> sortedDates[i] in dailyValues
    ensures var estimate := Estimate(sortedDates, dailyValues, date);
      filled == if date in result || estimate.None? then result else result[date := estimate.value]
  {
    filled := result;
    if date !in filled {
      var beforeDate := LastBefore(sortedDates, date);
      var afterDate := FirstAfter(sortedDates, date);
      if beforeDate.Some? && afterDate.Some? {
        var beforeValue := dailyValues[beforeDate.value];
        var afterValue := dailyValues[afterDate.value];
        var totalDays := (afterDate.value - beforeDate.value) as real;
        var daysFromBefore := (date - beforeDate.value) as real;
        var ratio := daysFromBefore / totalDays;
        filled := filled[date := Lerp(beforeValue, afterValue, ratio)];
      } else if beforeDate.Some? {
        // only an earlier day: carry its value forward
        filled := filled[date := dailyValues[beforeDate.value]];
      } else if afterDate.Some? {
        // only a later day: carry its value back
        filled := filled[date := dailyValues[afterDate.value]];
      }
    }
  }

  /** `interpolateWeights`. */
  method InterpolateWeights(allDates: seq<int>, sortedDates: seq<int>, dailyValues: map<int, real>)
    returns (result: map<int, real>)
    requires forall i :: 0 <= i < |sortedDates| ==> sortedDates[i] in dailyValues
    ensures result == Interpolated(allDates, sortedDates, dailyValues)
  {
    result := map[];
    // the recorded days first
    for i := 0 to |sortedDates|
      invariant result == Recorded(sortedDates, dailyValues, i)
    {
      result := result[sortedDates[i] := dailyValues[sortedDates[i]]];
    }
    // then every other day of the range
    for j := 0 to |allDates|
      invariant result == Filled(allDates, sortedDates, dailyValues, j)
    {
      result := FillDay(result, allDates[j], sortedDates, dailyValues);
    }
    FilledAllIsInterpolated(allDates, sortedDates, dailyValues);
  }

  // ---------------------------------------------------------------- rolling window

  /** `allDates.filter { it >= start && it <= date }.mapNotNull { interpolatedValues[it] }`. */
  function WindowValues(allDates: seq<int>, values: map<int, real>, start: int, date: int): seq<real> {
    if allDates == [] then []
    else
      (if start <= allDates[0] <= date && allDates[0] in values then [values[allDates[0]]] else []) +
      WindowValues(allDates[1..], values, start, date)
  }

  /** The points the `forEach` has added after visiting the first `n` days of `allDates`. */
  function RollingPoints(allDates: seq<int>, values: map<int, real>, span: int, n: nat): seq<TrendPoint>
    requires n <= |allDates|
  {
    if n == 0 then []
    else
      var date := allDates[n - 1];
      var windowValues := WindowValues(allDates, values, date - span, date);
      if |windowValues| > 0 then
        RollingPoints(allDates, values, span, n - 1) + [TrendPoint(date, RoundToTenths(Sum(windowValues) / |windowValues| as real))]
      else RollingPoints(allDates, values, span, n - 1)
  }

  /** The `forEach` loop of `buildRollingAverage`: one point per day of `allDates`
      whose window holds at least one interpolated value. */
  method MovingAverages(allDates: seq<int>, interpolatedValues: map<int, real>, span: int)
    returns (points: seq<TrendPoint>)
    ensures points == RollingPoints(allDates, interpolatedValues, span, |allDates|)
  {
    points := [];
    for i := 0 to |allDates|
      invariant points == RollingPoints(allDates, interpolatedValues, span, i)
    {
      var date := allDates[i];
      // The window is [date - (rollingWindow - 1), date]
      var windowStart := date - span;
      var windowValues := WindowValues(allDates, interpolatedValues, windowStart, date);
      if |windowValues| > 0 {
        var average := RoundToTenths(Sum(windowValues) / |windowValues| as real);
        points := points + [TrendPoint(date, average)];
      }
    }
  }

  /** What `buildRollingAverage` returns. */
  function RollingAverage(sortedDates: seq<int>, dailyValues: map<int, real>, rollingWindow: int32): seq<TrendPoint>
    requires forall i :: 0 <= i < |sortedDates| ==> sortedDates[i] in dailyValues
  {
    if sortedDates == [] then []
    else
      var allDates := DateRange(sortedDates[0], sortedDates[|sortedDates| - 1]);
      RollingPoints(allDates, Interpolated(allDates, sortedDates, dailyValues), WindowSpan(rollingWindow), |allDates|)
  }

  method BuildRollingAverage(sortedDates: seq<int>, dailyValues: map<int, real>, rollingWindow: int32)
    returns (points: seq<TrendPoint>)
    requires forall i :: 0 <= i < |sortedDates| ==> sortedDates[i] in dailyValues
    ensures points == RollingAverage(sortedDates, dailyValues, rollingWindow)
  {
    if |sortedDates| == 0 {
      return [];
    }
    var firstDate := sortedDates[0];
    var lastDate := sortedDates[|sortedDates| - 1];
    var allDates := ContinuousDates(firstDate, lastDate);

    var interpolatedValues := InterpolateWeights(allDates, sortedDates, dailyValues);

    points := MovingAverages(allDates, interpolatedValues, WindowSpan(rollingWindow));
  }

  // ---------------------------------------------------------------- calculate

  /** What `calculate` returns. */
  function TrendOf(entries: seq<WeightEntry>, rollingWindow: int32): WeightTrend {
    if entries == [] then WeightTrend([], [])
    else
      var dailyValues := DailyValues(entries);
      var sortedDates := SortedDays(entries);
      SortedDaysHaveValues(entries);
      WeightTrend(PointsOf(sortedDates, dailyValues), RollingAverage(sortedDates, dailyValues, rollingWindow))
  }

  /** `calculate`. */
  method Calculate(entries: seq<WeightEntry>, rollingWindow: int32) returns (trend: WeightTrend)
    ensures entries == [] ==> trend == WeightTrend([], [])
    ensures trend == TrendOf(entries, rollingWindow)
  {
    if |entries| == 0 {
      return WeightTrend([], []);
    }
    var dailyValues := DailyValues(entries);
    var sortedDates := SortedDays(entries);
    SortedDaysHaveValues(entries);
    var dailyPoints := PointsOf(sortedDates, dailyValues);
    var rollingAveragePoints := BuildRollingAverage(sortedDates, dailyValues, rollingWindow);
    trend := WeightTrend(dailyPoints, rollingAveragePoints);
  }
}
