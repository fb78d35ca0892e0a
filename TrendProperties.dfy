/**
 * What the trend engine promises, proved about the specification functions of
 * TrendCalculator (the methods there are proved to compute them): the shape of the
 * daily series, the date coverage of the rolling series, recorded days as fixed
 * points, linear interpolation between neighbours, the trailing window and its
 * rounding.
 */
module TrendProperties {
  import opened Wrappers
  import opened Rounding
  import opened Entries
  import opened Trend
  import opened TrendCalculator

  function MinInt(a: int, b: int): int { if a <= b then a else b }
  function MaxInt(a: int, b: int): int { if a <= b then b else a }
  function MinReal(a: real, b: real): real { if a <= b then a else b }
  function MaxReal(a: real, b: real): real { if a <= b then b else a }

  // ---------------------------------------------------------------- neighbours

  /** In an ascending list, the last day before `date` is the largest one below it. */
  lemma {:induction false} LastBeforeSorted(days: seq<int>, date: int, k: int)
    requires StrictlyIncreasing(days)
    requires 0 <= k < |days| && days[k] < date
    requires k + 1 == |days| || date <= days[k + 1]
    ensures LastBefore(days, date) == Some(days[k])
    decreases |days|
  {
    if k + 1 < |days| {
      var prefix := days[..|days| - 1];
      assert days[k + 1] <= days[|days| - 1];
      assert StrictlyIncreasing(prefix);
      LastBeforeSorted(prefix, date, k);
    }
  }

  /** In an ascending list, the first day after `date` is the smallest one above it. */
  lemma {:induction false} FirstAfterSorted(days: seq<int>, date: int, k: int)
    requires StrictlyIncreasing(days)
    requires 0 <= k < |days| && date < days[k]
    requires k == 0 || days[k - 1] <= date
    ensures FirstAfter(days, date) == Some(days[k])
    decreases k
  {
    if k > 0 {
      assert days[0] <= days[k - 1];
      assert StrictlyIncreasing(days[1..]);
      FirstAfterSorted(days[1..], date, k - 1);
    }
  }

  lemma MulNonNegative(a: real, b: real)
    requires a >= 0.0 && b >= 0.0
    ensures a * b >= 0.0
  {
  }

  lemma DivMulCancel(num: real, den: real)
    requires den != 0.0
    ensures (num / den) * den == num
  {
  }

  lemma PositiveFactor(r: real, num: real, den: real)
    requires den > 0.0 && r * den == num && num > 0.0
    ensures r > 0.0
  {
  }

  lemma FactorBelowOne(r: real, num: real, den: real)
    requires den > 0.0 && r * den == num && num < den
    ensures r < 1.0
  {
  }

  /** The fraction of the way from `before` to `after` that `date` lies at is strictly
      between 0 and 1; in particular the divisor is positive. */
  lemma RatioBetween(before: int, date: int, after: int)
    requires before < date < after
    ensures 0.0 < (date - before) as real / (after - before) as real < 1.0
  {
    var num, den := (date - before) as real, (after - before) as real;
    var r := num / den;
    DivMulCancel(num, den);
    assert r * den == num;
    PositiveFactor(r, num, den);
    FactorBelowOne(r, num, den);
  }

  /** A point a fraction in [0, 1] of the way between two values lies between them. */
  lemma LerpBetween(from: real, to: real, ratio: real)
    requires 0.0 <= ratio <= 1.0
    ensures MinReal(from, to) <= Lerp(from, to, ratio) <= MaxReal(from, to)
  {
    if from <= to {
      MulNonNegative(to - from, ratio);
      MulNonNegative(to - from, 1.0 - ratio);
    } else {
      MulNonNegative(from - to, ratio);
      MulNonNegative(from - to, 1.0 - ratio);
    }
  }

  /** The straight line between two equal values is constant. */
  lemma LerpConstant(c: real, ratio: real)
    ensures Lerp(c, c, ratio) == c
  {
    assert (c - c) * ratio == 0.0 * ratio;
  }

  // ---------------------------------------------------------------- interpolation

  /** Recorded days keep their daily value: interpolation never overwrites them. */
  lemma InterpolatedKeepsRecorded(allDates: seq<int>, sortedDates: seq<int>, dailyValues: map<int, real>)
    requires forall i :: 0 <= i < |sortedDates| ==> sortedDates[i] in dailyValues
    ensures var m := Interpolated(allDates, sortedDates, dailyValues);
      forall i :: 0 <= i < |sortedDates| ==> sortedDates[i] in m && m[sortedDates[i]] == dailyValues[sortedDates[i]]
  {
    var m := Interpolated(allDates, sortedDates, dailyValues);
    forall i | 0 <= i < |sortedDates|
      ensures sortedDates[i] in m && m[sortedDates[i]] == dailyValues[sortedDates[i]]
    {
      assert sortedDates[i] in sortedDates;
      assert sortedDates[i] in InterpolatedDays(allDates, sortedDates, dailyValues);
    }
  }

  /** No recorded day lies strictly between two consecutive recorded days. */
  lemma BetweenNotRecorded(sortedDates: seq<int>, k: int, date: int)
    requires StrictlyIncreasing(sortedDates)
    requires 0 <= k < |sortedDates| - 1 && sortedDates[k] < date < sortedDates[k + 1]
    ensures date !in sortedDates
  {
    forall i | 0 <= i < |sortedDates| ensures sortedDates[i] != date {
      if i <= k {
        assert sortedDates[i] <= sortedDates[k];
      } else {
        assert sortedDates[i] >= sortedDates[k + 1];
      }
    }
  }

  /** A day of `allDates` without a recorded value gets its estimate, when it has one. */
  lemma InterpolatedEstimate(allDates: seq<int>, sortedDates: seq<int>, dailyValues: map<int, real>, date: int)
    requires forall i :: 0 <= i < |sortedDates| ==> sortedDates[i] in dailyValues
    requires date in allDates && date !in sortedDates
    requires Estimate(sortedDates, dailyValues, date).Some?
    ensures var m := Interpolated(allDates, sortedDates, dailyValues);
      date in m && m[date] == Estimate(sortedDates, dailyValues, date).value
  {
    assert date in InterpolatedDays(allDates, sortedDates, dailyValues);
  }

  /** The fraction of the way a day lies between two others is strictly between 0
      and 1, so the straight-line value there lies between the two values. */
  lemma LerpRatioBounds(before: int, date: int, after: int, from: real, to: real)
    requires before < date < after
    ensures var ratio := (date - before) as real / (after - before) as real;
      0.0 < ratio < 1.0 && MinReal(from, to) <= Lerp(from, to, ratio) <= MaxReal(from, to)
  {
    RatioBetween(before, date, after);
    LerpBetween(from, to, (date - before) as real / (after - before) as real);
  }

  /** Between two consecutive recorded days the estimate is the straight line between
      their daily values. */
  lemma EstimateSorted(sortedDates: seq<int>, dailyValues: map<int, real>, k: int, date: int)
    requires forall i :: 0 <= i < |sortedDates| ==> sortedDates[i] in dailyValues
    requires StrictlyIncreasing(sortedDates)
    requires 0 <= k < |sortedDates| - 1 && sortedDates[k] < date < sortedDates[k + 1]
    ensures var before, after := sortedDates[k], sortedDates[k + 1];
      Estimate(sortedDates, dailyValues, date).Some? &&
      Estimate(sortedDates, dailyValues, date).value ==
        Lerp(dailyValues[before], dailyValues[after], (date - before) as real / (after - before) as real)
  {
    LastBeforeSorted(sortedDates, date, k);
    FirstAfterSorted(sortedDates, date, k + 1);
    EstimateBetween(sortedDates, dailyValues, date);
  }

  /** A day strictly between two consecutive recorded days gets the straight-line value
      between their daily values, which lies between the two. */
  lemma InterpolatedBetween(allDates: seq<int>, sortedDates: seq<int>, dailyValues: map<int, real>, k: int, date: int)
    requires forall i :: 0 <= i < |sortedDates| ==> sortedDates[i] in dailyValues
    requires StrictlyIncreasing(sortedDates)
    requires 0 <= k < |sortedDates| - 1 && sortedDates[k] < date < sortedDates[k + 1]
    requires date in allDates
    ensures date !in sortedDates
    ensures var m := Interpolated(allDates, sortedDates, dailyValues);
      var before, after := sortedDates[k], sortedDates[k + 1];
      var ratio := (date - before) as real / (after - before) as real;
      date in m && 0.0 < ratio < 1.0 &&
      m[date] == Lerp(dailyValues[before], dailyValues[after], ratio) &&
      MinReal(dailyValues[before], dailyValues[after]) <= m[date] <= MaxReal(dailyValues[before], dailyValues[after])
  {
    var before, after := sortedDates[k], sortedDates[k + 1];
    BetweenNotRecorded(sortedDates, k, date);
    EstimateSorted(sortedDates, dailyValues, k, date);
    InterpolatedEstimate(allDates, sortedDates, dailyValues, date);
    LerpRatioBounds(before, date, after, dailyValues[before], dailyValues[after]);
  }

  /** With at least one recorded day, every day of `allDates` gets a value. */
  lemma InterpolatedCovers(allDates: seq<int>, sortedDates: seq<int>, dailyValues: map<int, real>)
    requires forall i :: 0 <= i < |sortedDates| ==> sortedDates[i] in dailyValues
    requires |sortedDates| > 0
    ensures forall i :: 0 <= i < |allDates| ==> allDates[i] in Interpolated(allDates, sortedDates, dailyValues)
  {
    forall i | 0 <= i < |allDates| ensures allDates[i] in Interpolated(allDates, sortedDates, dailyValues) {
      var date := allDates[i];
      if date !in sortedDates {
        assert sortedDates[0] in sortedDates;
        assert Estimate(sortedDates, dailyValues, date).Some?;
      }
    }
  }

  /** When every daily value is c, so is every interpolated value. */
  lemma InterpolatedConstant(allDates: seq<int>, sortedDates: seq<int>, dailyValues: map<int, real>, c: real)
    requires forall i :: 0 <= i < |sortedDates| ==> sortedDates[i] in dailyValues
    requires forall d :: d in dailyValues ==> dailyValues[d] == c
    ensures var m := Interpolated(allDates, sortedDates, dailyValues);
      forall d :: d in m ==> m[d] == c
  {
    var m := Interpolated(allDates, sortedDates, dailyValues);
    forall d | d in m ensures m[d] == c {
      if d !in sortedDates {
        var before, after := LastBefore(sortedDates, d), FirstAfter(sortedDates, d);
        if before.Some? && after.Some? {
          EstimateBetween(sortedDates, dailyValues, d);
          LerpConstant(c, (d - before.value) as real / (after.value - before.value) as real);
        }
      }
    }
  }

  // ---------------------------------------------------------------- windows

  /** The values `m` holds for the days `lo` to `hi`, in order, skipping days without one. */
  function ValuesOfDays(m: map<int, real>, lo: int, hi: int): seq<real>
    decreases hi - lo
  {
    if lo > hi then [] else (if lo in m then [m[lo]] else []) + ValuesOfDays(m, lo + 1, hi)
  }

  /** When every day from `lo` to `hi` has a value, there is one value per day. */
  lemma {:induction false} ValuesOfDaysAt(m: map<int, real>, lo: int, hi: int)
    requires forall d :: lo <= d <= hi ==> d in m
    ensures |ValuesOfDays(m, lo, hi)| == if lo <= hi then hi - lo + 1 else 0
    ensures forall i :: 0 <= i < |ValuesOfDays(m, lo, hi)| ==> ValuesOfDays(m, lo, hi)[i] == m[lo + i]
    decreases hi - lo
  {
    if lo <= hi {
      ValuesOfDaysAt(m, lo + 1, hi);
      var rest := ValuesOfDays(m, lo + 1, hi);
      assert ValuesOfDays(m, lo, hi) == [m[lo]] + rest;
      forall i | 0 < i <= |rest| ensures ([m[lo]] + rest)[i] == m[lo + i] {
        assert ([m[lo]] + rest)[i] == rest[i - 1];
      }
    }
  }

  /** Filtering the consecutive days `first..last` to the window `[start, date]` keeps
      the days of the intersection of the two ranges. */
  lemma {:induction false} WindowValuesOfRange(first: int, last: int, m: map<int, real>, start: int, date: int)
    ensures WindowValues(DateRange(first, last), m, start, date) == ValuesOfDays(m, MaxInt(first, start), MinInt(last, date))
    decreases last - first
  {
    if first <= last {
      var r := DateRange(first, last);
      assert r[0] == first && r[1..] == DateRange(first + 1, last);
      WindowValuesOfRange(first + 1, last, m, start, date);
      var rest := ValuesOfDays(m, MaxInt(first + 1, start), MinInt(last, date));
      if start <= first <= date {
        assert ValuesOfDays(m, first, MinInt(last, date)) == (if first in m then [m[first]] else []) + rest;
      } else if first < start {
        assert MaxInt(first, start) == MaxInt(first + 1, start);
      } else {
        assert rest == [] && ValuesOfDays(m, MaxInt(first, start), MinInt(last, date)) == [];
      }
    }
  }

  /** A window holding a day that has a value is not empty. */
  lemma {:induction false} WindowValuesHasDate(allDates: seq<int>, values: map<int, real>, start: int, date: int)
    requires date in allDates && date in values && start <= date
    ensures |WindowValues(allDates, values, start, date)| > 0
  {
    if allDates[0] != date {
      assert allDates == [allDates[0]] + allDates[1..];
      WindowValuesHasDate(allDates[1..], values, start, date);
    }
  }

  /** A window that starts after it ends is empty. */
  lemma {:induction false} WindowValuesInverted(allDates: seq<int>, values: map<int, real>, start: int, date: int)
    requires start > date
    ensures WindowValues(allDates, values, start, date) == []
  {
    if allDates != [] {
      WindowValuesInverted(allDates[1..], values, start, date);
    }
  }

  /** Every value in a window is one of the map's values. */
  lemma {:induction false} WindowValuesConstant(allDates: seq<int>, values: map<int, real>, start: int, date: int, c: real)
    requires forall d :: d in values ==> values[d] == c
    ensures forall i :: 0 <= i < |WindowValues(allDates, values, start, date)| ==> WindowValues(allDates, values, start, date)[i] == c
  {
    if allDates != [] {
      WindowValuesConstant(allDates[1..], values, start, date, c);
    }
  }

  // ---------------------------------------------------------------- means

  lemma {:induction false} SumConstant(xs: seq<real>, c: real)
    requires forall i :: 0 <= i < |xs| ==> xs[i] == c
    ensures Sum(xs) == |xs| as real * c
  {
    if xs != [] {
      SumConstant(xs[..|xs| - 1], c);
    }
  }

  /** The mean of equal values is that value. */
  lemma MeanConstant(xs: seq<real>, c: real)
    requires |xs| > 0
    requires forall i :: 0 <= i < |xs| ==> xs[i] == c
    ensures Mean(xs) == c
  {
    SumConstant(xs, c);
    var n := |xs| as real;
    assert (n * c) / n == c;
  }

  // ---------------------------------------------------------------- rolling series

  /** A day whose window holds a value adds the rounded mean of that window. */
  lemma RollingPointsStep(allDates: seq<int>, values: map<int, real>, span: int, n: nat)
    requires 0 < n <= |allDates|
    requires |WindowValues(allDates, values, allDates[n - 1] - span, allDates[n - 1])| > 0
    ensures var windowValues := WindowValues(allDates, values, allDates[n - 1] - span, allDates[n - 1]);
      RollingPoints(allDates, values, span, n) ==
        RollingPoints(allDates, values, span, n - 1) + [TrendPoint(allDates[n - 1], RoundToTenths(Mean(windowValues)))]
  {
  }

  /** With a non-negative span and a value for every day, each day gets exactly one
      point, carrying the rounded mean of its window. */
  lemma {:induction false} RollingPointsEveryDay(allDates: seq<int>, values: map<int, real>, span: int, n: nat)
    requires n <= |allDates| && span >= 0
    requires forall i :: 0 <= i < |allDates| ==> allDates[i] in values
    ensures |RollingPoints(allDates, values, span, n)| == n
    ensures forall k :: 0 <= k < n ==>
      var windowValues := WindowValues(allDates, values, allDates[k] - span, allDates[k]);
      |windowValues| > 0 &&
      RollingPoints(allDates, values, span, n)[k] == TrendPoint(allDates[k], RoundToTenths(Mean(windowValues)))
  {
    if n > 0 {
      RollingPointsEveryDay(allDates, values, span, n - 1);
      WindowValuesHasDate(allDates, values, allDates[n - 1] - span, allDates[n - 1]);
      RollingPointsStep(allDates, values, span, n);
    }
  }

  /** A negative span empties every window, so there are no points. */
  lemma {:induction false} RollingPointsNegativeSpan(allDates: seq<int>, values: map<int, real>, span: int, n: nat)
    requires n <= |allDates| && span < 0
    ensures RollingPoints(allDates, values, span, n) == []
  {
    if n > 0 {
      RollingPointsNegativeSpan(allDates, values, span, n - 1);
      WindowValuesInverted(allDates, values, allDates[n - 1] - span, allDates[n - 1]);
    }
  }

  /** Every rolling value is a whole number of tenths. */
  lemma {:induction false} RollingPointsTenths(allDates: seq<int>, values: map<int, real>, span: int, n: nat)
    requires n <= |allDates|
    ensures forall k :: 0 <= k < |RollingPoints(allDates, values, span, n)| ==>
      IsTenths(RollingPoints(allDates, values, span, n)[k].weightKg)
  {
    if n > 0 {
      RollingPointsTenths(allDates, values, span, n - 1);
      var windowValues := WindowValues(allDates, values, allDates[n - 1] - span, allDates[n - 1]);
      if |windowValues| > 0 {
        RoundToTenthsNearest(Sum(windowValues) / |windowValues| as real);
      }
    }
  }

  /** When every value is c, every rolling value is c rounded to tenths. */
  lemma {:induction false} RollingPointsConstant(allDates: seq<int>, values: map<int, real>, span: int, n: nat, c: real)
    requires n <= |allDates|
    requires forall d :: d in values ==> values[d] == c
    ensures forall k :: 0 <= k < |RollingPoints(allDates, values, span, n)| ==>
      RollingPoints(allDates, values, span, n)[k].weightKg == RoundToTenths(c)
  {
    if n > 0 {
      RollingPointsConstant(allDates, values, span, n - 1, c);
      var windowValues := WindowValues(allDates, values, allDates[n - 1] - span, allDates[n - 1]);
      if |windowValues| > 0 {
        WindowValuesConstant(allDates, values, allDates[n - 1] - span, allDates[n - 1], c);
        MeanConstant(windowValues, c);
      }
    }
  }

  // ---------------------------------------------------------------- over a sampled range

  /** Points built from ascending days are ascending, and hold exactly those days. */
  lemma PointsOfSorted(dates: seq<int>, values: map<int, real>)
    requires forall i :: 0 <= i < |dates| ==> dates[i] in values
    requires StrictlyIncreasing(dates)
    ensures var ps := PointsOf(dates, values);
      (forall i, j :: 0 <= i < j < |ps| ==> ps[i].date < ps[j].date) &&
      (forall d :: d in dates <==> exists i :: 0 <= i < |ps| && ps[i].date == d)
  {
    var ps := PointsOf(dates, values);
    forall d | d in dates ensures exists i :: 0 <= i < |ps| && ps[i].date == d {
      var i :| 0 <= i < |dates| && dates[i] == d;
      assert ps[i].date == d;
    }
  }

  /** No element of an ascending list lies strictly between two neighbours. */
  lemma ConsecutiveGap(xs: seq<int>, k: int)
    requires StrictlyIncreasing(xs) && 0 <= k < |xs| - 1
    ensures forall i :: 0 <= i < |xs| ==> xs[i] <= xs[k] || xs[k + 1] <= xs[i]
  {
    forall i | 0 <= i < |xs| ensures xs[i] <= xs[k] || xs[k + 1] <= xs[i] {
      if i > k + 1 {
        assert xs[k + 1] < xs[i];
      }
    }
  }

  /** A value outside an ascending list, strictly between its ends, lies between two
      neighbours. */
  lemma {:induction false} BetweenConsecutive(xs: seq<int>, date: int)
    requires StrictlyIncreasing(xs) && |xs| > 0
    requires xs[0] < date < xs[|xs| - 1] && date !in xs
    ensures exists k :: 0 <= k < |xs| - 1 && xs[k] < date < xs[k + 1]
  {
    if xs[1] < date {
      var tail := xs[1..];
      assert tail[0] == xs[1] && tail[|tail| - 1] == xs[|xs| - 1];
      assert forall i :: 0 <= i < |tail| ==> tail[i] == xs[i + 1];
      BetweenConsecutive(tail, date);
      var k :| 0 <= k < |tail| - 1 && tail[k] < date < tail[k + 1];
      assert xs[k + 1] < date < xs[k + 2];
    } else {
      assert xs[1] in xs;
    }
  }

  /** The k-th rolling point of a series with a value for every day is the rounded
      mean of its window. */
  lemma RollingPointOfDay(allDates: seq<int>, values: map<int, real>, span: int, k: int)
    requires span >= 0 && 0 <= k < |allDates|
    requires forall i :: 0 <= i < |allDates| ==> allDates[i] in values
    ensures var rp := RollingPoints(allDates, values, span, |allDates|);
      var windowValues := WindowValues(allDates, values, allDates[k] - span, allDates[k]);
      |rp| == |allDates| && |windowValues| > 0 &&
      rp[k] == TrendPoint(allDates[k], RoundToTenths(Mean(windowValues)))
  {
    RollingPointsEveryDay(allDates, values, span, |allDates|);
  }

  /** Over a range whose every day has a value, the window of its k-th day holds the
      values from `span` days before it (but not before the first day) to it. */
  lemma RangeWindow(first: int, last: int, values: map<int, real>, span: int, k: int)
    requires span >= 0 && 0 <= k <= last - first
    requires forall d :: first <= d <= last ==> d in values
    ensures var allDates := DateRange(first, last);
      var window := ValuesOfDays(values, MaxInt(first, first + k - span), first + k);
      k < |allDates| && allDates[k] == first + k &&
      WindowValues(allDates, values, allDates[k] - span, allDates[k]) == window &&
      |window| == MinInt(k, span) + 1
  {
    var lo, hi := MaxInt(first, first + k - span), first + k;
    assert MinInt(last, hi) == hi && first <= lo && hi - lo == MinInt(k, span);
    DateRangeAt(first, last);
    WindowValuesOfRange(first, last, values, hi - span, hi);
    ValuesOfDaysAt(values, lo, hi);
  }

  /** Every day of a range has a value when every day from first to last does. */
  lemma RangeCovered(first: int, last: int, values: map<int, real>)
    requires forall d :: first <= d <= last ==> d in values
    ensures |DateRange(first, last)| == if first <= last then last - first + 1 else 0
    ensures forall i :: 0 <= i < |DateRange(first, last)| ==> DateRange(first, last)[i] in values
  {
    DateRangeAt(first, last);
  }

  /** Every day of a range gets a rolling point when every day has a value; the k-th
      carries the rounded mean of the values from `span` days before it (but not before
      the first day) to it. */
  lemma RangeRollingPointAt(first: int, last: int, values: map<int, real>, span: int, k: int)
    requires span >= 0 && 0 <= k <= last - first
    requires forall d :: first <= d <= last ==> d in values
    ensures var rp := RollingPoints(DateRange(first, last), values, span, |DateRange(first, last)|);
      var window := ValuesOfDays(values, MaxInt(first, first + k - span), first + k);
      |rp| == last - first + 1 && rp[k].date == first + k &&
      |window| == MinInt(k, span) + 1 && rp[k].weightKg == RoundToTenths(Mean(window))
  {
    RangeCovered(first, last, values);
    RangeWindow(first, last, values, span, k);
    RollingPointOfDay(DateRange(first, last), values, span, k);
  }

  /** Every rolling point of such a range is a whole number of tenths within half a
      tenth of the mean of its window (a tie going up). */
  lemma RangeRollingPointNear(first: int, last: int, values: map<int, real>, span: int, k: int)
    requires span >= 0 && 0 <= k <= last - first
    requires forall d :: first <= d <= last ==> d in values
    ensures var rp := RollingPoints(DateRange(first, last), values, span, |DateRange(first, last)|);
      var window := ValuesOfDays(values, MaxInt(first, first + k - span), first + k);
      k < |rp| && |window| > 0 &&
      IsTenths(rp[k].weightKg) && Mean(window) - 0.05 < rp[k].weightKg <= Mean(window) + 0.05
  {
    RangeRollingPointAt(first, last, values, span, k);
    RoundToTenthsNearest(Mean(ValuesOfDays(values, MaxInt(first, first + k - span), first + k)));
  }

  // ---------------------------------------------------------------- buildRollingAverage

  /** Interpolating over the range from the first to the last sorted day gives every day
      of that range a value. */
  lemma RangeInterpolatedCovers(sortedDates: seq<int>, dailyValues: map<int, real>)
    requires forall i :: 0 <= i < |sortedDates| ==> sortedDates[i] in dailyValues
    requires |sortedDates| > 0
    ensures var first, last := sortedDates[0], sortedDates[|sortedDates| - 1];
      forall d :: first <= d <= last ==> d in Interpolated(DateRange(first, last), sortedDates, dailyValues)
  {
    var first, last := sortedDates[0], sortedDates[|sortedDates| - 1];
    var allDates := DateRange(first, last);
    InterpolatedCovers(allDates, sortedDates, dailyValues);
    DateRangeAt(first, last);
    forall d | first <= d <= last ensures d in Interpolated(allDates, sortedDates, dailyValues) {
      assert allDates[d - first] == d;
    }
  }

  /** A day strictly between the consecutive sorted days `k` and `k + 1` is not recorded
      and gets the straight line between their values, which lies between the two. */
  lemma RangeInterpolatedBetween(sortedDates: seq<int>, dailyValues: map<int, real>, k: int, date: int)
    requires forall i :: 0 <= i < |sortedDates| ==> sortedDates[i] in dailyValues
    requires StrictlyIncreasing(sortedDates)
    requires 0 <= k < |sortedDates| - 1 && sortedDates[k] < date < sortedDates[k + 1]
    ensures date !in sortedDates
    ensures var m := Interpolated(DateRange(sortedDates[0], sortedDates[|sortedDates| - 1]), sortedDates, dailyValues);
      var before, after := sortedDates[k], sortedDates[k + 1];
      var ratio := (date - before) as real / (after - before) as real;
      date in m && 0.0 < ratio < 1.0 &&
      m[date] == Lerp(dailyValues[before], dailyValues[after], ratio) &&
      MinReal(dailyValues[before], dailyValues[after]) <= m[date] <= MaxReal(dailyValues[before], dailyValues[after])
  {
    var first, last := sortedDates[0], sortedDates[|sortedDates| - 1];
    assert first <= sortedDates[k] && sortedDates[k + 1] <= last;
    var allDates := DateRange(first, last);
    DateRangeAt(first, last);
    assert allDates[date - first] == date;
    InterpolatedBetween(allDates, sortedDates, dailyValues, k, date);
  }

  /** Every day of a range whose days all have values gets one rolling point, in order. */
  lemma RangeCoverage(first: int, last: int, values: map<int, real>, span: int)
    requires span >= 0 && first <= last
    requires forall d :: first <= d <= last ==> d in values
    ensures var rp := RollingPoints(DateRange(first, last), values, span, |DateRange(first, last)|);
      |rp| == last - first + 1 && forall k :: 0 <= k < |rp| ==> rp[k].date == first + k
  {
    var allDates := DateRange(first, last);
    DateRangeAt(first, last);
    RangeCovered(first, last, values);
    RollingPointsEveryDay(allDates, values, span, |allDates|);
  }

  /** With a window of at least one day, `buildRollingAverage` gives one point for each
      day from the first to the last sorted day, in order. */
  lemma BuildCoverage(sortedDates: seq<int>, dailyValues: map<int, real>, rollingWindow: int32)
    requires forall i :: 0 <= i < |sortedDates| ==> sortedDates[i] in dailyValues
    requires StrictlyIncreasing(sortedDates) && |sortedDates| > 0 && WindowSpan(rollingWindow) >= 0
    ensures var rolling := RollingAverage(sortedDates, dailyValues, rollingWindow);
      var first, last := sortedDates[0], sortedDates[|sortedDates| - 1];
      |rolling| == last - first + 1 && forall k :: 0 <= k < |rolling| ==> rolling[k].date == first + k
  {
    var first, last := sortedDates[0], sortedDates[|sortedDates| - 1];
    assert first <= last;
    RangeInterpolatedCovers(sortedDates, dailyValues);
    RangeCoverage(first, last, Interpolated(DateRange(first, last), sortedDates, dailyValues), WindowSpan(rollingWindow));
  }

  /** A window below one day (other than the wrapped minimum) gives no rolling points. */
  lemma BuildNonPositiveWindow(sortedDates: seq<int>, dailyValues: map<int, real>, rollingWindow: int32)
    requires forall i :: 0 <= i < |sortedDates| ==> sortedDates[i] in dailyValues
    requires -0x8000_0000 < rollingWindow as int <= 0
    ensures RollingAverage(sortedDates, dailyValues, rollingWindow) == []
  {
    if sortedDates != [] {
      var allDates := DateRange(sortedDates[0], sortedDates[|sortedDates| - 1]);
      RollingPointsNegativeSpan(allDates, Interpolated(allDates, sortedDates, dailyValues), WindowSpan(rollingWindow), |allDates|);
    }
  }

  /** When every daily value is c, every rolling point is c rounded to tenths. */
  lemma BuildConstant(sortedDates: seq<int>, dailyValues: map<int, real>, rollingWindow: int32, c: real)
    requires forall i :: 0 <= i < |sortedDates| ==> sortedDates[i] in dailyValues
    requires forall d :: d in dailyValues ==> dailyValues[d] == c
    ensures var rolling := RollingAverage(sortedDates, dailyValues, rollingWindow);
      forall i :: 0 <= i < |rolling| ==> rolling[i].weightKg == RoundToTenths(c)
  {
    if sortedDates != [] {
      var allDates := DateRange(sortedDates[0], sortedDates[|sortedDates| - 1]);
      InterpolatedConstant(allDates, sortedDates, dailyValues, c);
      RollingPointsConstant(allDates, Interpolated(allDates, sortedDates, dailyValues), WindowSpan(rollingWindow), |allDates|, c);
    }
  }

  lemma MeanSingle(x: real)
    ensures Mean([x]) == x
  {
    assert [x][..0] == [];
    assert Sum([x]) == Sum([]) + x;
    assert |[x]| as real == 1.0;
  }

  /** A single sorted day gives a single rolling point: that day's value rounded to
      tenths, whatever the window. */
  lemma BuildSingleDay(day: int, dailyValues: map<int, real>, rollingWindow: int32)
    requires day in dailyValues && WindowSpan(rollingWindow) >= 0
    ensures RollingAverage([day], dailyValues, rollingWindow) == [TrendPoint(day, RoundToTenths(dailyValues[day]))]
  {
    var sortedDates := [day];
    var allDates := DateRange(day, day);
    var values := Interpolated(allDates, sortedDates, dailyValues);
    var span := WindowSpan(rollingWindow);
    RangeInterpolatedCovers(sortedDates, dailyValues);
    RangeRollingPointAt(day, day, values, span, 0);
    InterpolatedKeepsRecorded(allDates, sortedDates, dailyValues);
    assert MaxInt(day, day - span) == day;
    assert ValuesOfDays(values, day, day) == [dailyValues[day]];
    MeanSingle(dailyValues[day]);
  }
}
