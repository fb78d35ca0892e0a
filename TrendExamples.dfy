/**
 * Worked cases of buildRollingAverage with the default seven-day window: two samples
 * four days apart (80.0 then 84.0), and eight consecutive days falling by 0.5 a day
 * from 90.0.
 */
module TrendExamples {
  import opened Rounding
  import opened Trend
  import opened TrendCalculator
  import opened TrendProperties

  lemma SumOfFive(a: real, b: real, c: real, d: real, e: real)
    ensures Sum([a, b, c, d, e]) == a + b + c + d + e
  {
    assert [a, b, c, d, e][..4] == [a, b, c, d];
    assert [a, b, c, d][..3] == [a, b, c];
    assert [a, b, c][..2] == [a, b];
    assert [a, b][..1] == [a];
    assert [a][..0] == [];
    assert Sum([a]) == a;
    assert Sum([a, b]) == a + b;
    assert Sum([a, b, c]) == a + b + c;
    assert Sum([a, b, c, d]) == a + b + c + d;
  }

  // ------------------------------------------- 80.0 on one day, 84.0 four days later

  /** Between a sample of 80.0 on one day and one of 84.0 four days later, with no
      sample in between, the missing days get 81.0, 82.0 and 83.0. */
  lemma EvenlySpaced(days: seq<int>, values: map<int, real>)
    requires |days| == 2 && days[1] == days[0] + 4 && days[0] in values && days[1] in values
    requires values[days[0]] == 80.0 && values[days[1]] == 84.0
    ensures var m := Interpolated(DateRange(days[0], days[1]), days, values);
      forall d :: days[0] <= d <= days[1] ==> d in m && m[d] == 80.0 + (d - days[0]) as real
  {
    forall d | days[0] <= d <= days[1]
      ensures var m := Interpolated(DateRange(days[0], days[1]), days, values);
        d in m && m[d] == 80.0 + (d - days[0]) as real
    {
      if d == days[0] || d == days[1] {
        InterpolatedKeepsRecorded(DateRange(days[0], days[1]), days, values);
      } else {
        EvenlySpacedBetween(days, values, d);
      }
    }
  }

  lemma EvenlySpacedBetween(days: seq<int>, values: map<int, real>, d: int)
    requires |days| == 2 && days[1] == days[0] + 4 && days[0] in values && days[1] in values
    requires values[days[0]] == 80.0 && values[days[1]] == 84.0
    requires days[0] < d < days[1]
    ensures var m := Interpolated(DateRange(days[0], days[1]), days, values);
      d in m && m[d] == 80.0 + (d - days[0]) as real
  {
    RangeInterpolatedBetween(days, values, 0, d);
    QuarterSteps(Interpolated(DateRange(days[0], days[1]), days, values), days[0], d);
  }

  lemma QuarterSteps(m: map<int, real>, first: int, d: int)
    requires d in m && m[d] == Lerp(80.0, 84.0, (d - first) as real / (first + 4 - first) as real)
    ensures m[d] == 80.0 + (d - first) as real
  {
    var n := (d - first) as real;
    assert (first + 4 - first) as real == 4.0;
    assert (84.0 - 80.0) * (n / 4.0) == n;
  }

  /** Over five days valued 80.0 to 84.0, the seven-day window of the last day holds
      the five days available, whose mean is 82.0. */
  lemma GapLastWindow(first: int, values: map<int, real>)
    requires forall d :: first <= d <= first + 4 ==> d in values && values[d] == 80.0 + (d - first) as real
    ensures var rp := RollingPoints(DateRange(first, first + 4), values, 6, |DateRange(first, first + 4)|);
      |rp| == 5 && rp[4].date == first + 4 && rp[4].weightKg == 82.0
  {
    RangeRollingPointAt(first, first + 4, values, 6, 4);
    assert MaxInt(first, first + 4 - 6) == first;
    var window := ValuesOfDays(values, first, first + 4);
    ValuesOfDaysAt(values, first, first + 4);
    assert window == [window[0], window[1], window[2], window[3], window[4]];
    assert window[0] == values[first] && window[4] == values[first + 4];
    assert window == [80.0, 81.0, 82.0, 83.0, 84.0];
    SumOfFive(80.0, 81.0, 82.0, 83.0, 84.0);
    RoundToTenthsOfTenths(82.0);
  }

  /** Two samples four days apart, 80.0 then 84.0, give five rolling points, one per day,
      the last 82.0. */
  lemma GapRollingAverage(days: seq<int>, values: map<int, real>)
    requires |days| == 2 && days[1] == days[0] + 4 && days[0] in values && days[1] in values
    requires values[days[0]] == 80.0 && values[days[1]] == 84.0
    ensures var rolling := RollingAverage(days, values, DEFAULT_WINDOW_DAYS);
      |rolling| == 5 && rolling[4].date == days[1] && rolling[4].weightKg == 82.0
  {
    assert days[|days| - 1] == days[0] + 4;
    var m := Interpolated(DateRange(days[0], days[1]), days, values);
    EvenlySpaced(days, values);
    forall d | days[0] <= d <= days[0] + 4 ensures d in m && m[d] == 80.0 + (d - days[0]) as real {
      assert days[0] <= d <= days[1];
      assert d in Interpolated(DateRange(days[0], days[1]), days, values);
      assert Interpolated(DateRange(days[0], days[1]), days, values)[d] == 80.0 + (d - days[0]) as real;
    }
    GapLastWindow(days[0], m);
  }

  // ------------------------------------------- eight days falling from 90.0 by 0.5 a day

  lemma SumOfSeven(a: real, b: real, c: real, d: real, e: real, f: real, g: real)
    ensures Sum([a, b, c, d, e, f, g]) == a + b + c + d + e + f + g
  {
    assert [a, b, c, d, e, f, g][..6] == [a, b, c, d, e, f];
    assert [a, b, c, d, e, f][..5] == [a, b, c, d, e];
    SumOfFive(a, b, c, d, e);
  }

  /** Over eight days valued 90.0, 89.5, ..., 86.5, the first rolling point averages the
      first day alone and the last one averages the seven days before it and itself,
      leaving out the first day. */
  lemma FallingWeekWindows(first: int, values: map<int, real>)
    requires forall d :: first <= d <= first + 7 ==> d in values && values[d] == 90.0 - (d - first) as real / 2.0
    ensures var rp := RollingPoints(DateRange(first, first + 7), values, 6, |DateRange(first, first + 7)|);
      |rp| == 8 && rp[0].weightKg == 90.0 && rp[7].weightKg == 88.0
  {
    RangeRollingPointAt(first, first + 7, values, 6, 0);
    RangeRollingPointAt(first, first + 7, values, 6, 7);
    assert MaxInt(first, first + 0 - 6) == first + 0;
    assert MaxInt(first, first + 7 - 6) == first + 1;
    var single := ValuesOfDays(values, first + 0, first + 0);
    ValuesOfDaysAt(values, first + 0, first + 0);
    assert single == [90.0];
    MeanSingle(90.0);
    var week := ValuesOfDays(values, first + 1, first + 7);
    ValuesOfDaysAt(values, first + 1, first + 7);
    assert week == [week[0], week[1], week[2], week[3], week[4], week[5], week[6]];
    assert week == [89.5, 89.0, 88.5, 88.0, 87.5, 87.0, 86.5];
    SumOfSeven(89.5, 89.0, 88.5, 88.0, 87.5, 87.0, 86.5);
    RoundToTenthsOfTenths(90.0);
    RoundToTenthsOfTenths(88.0);
  }

  /** Eight consecutive sampled days from 90.0 down to 86.5 give eight rolling points, the
      first 90.0 (one day available) and the last 88.0 (the latest seven days). */
  lemma FallingWeekRollingAverage(days: seq<int>, values: map<int, real>)
    requires |days| == 8
    requires forall i :: 0 <= i < 8 ==> days[i] == days[0] + i && days[i] in values && values[days[i]] == 90.0 - i as real / 2.0
    ensures var rolling := RollingAverage(days, values, DEFAULT_WINDOW_DAYS);
      |rolling| == 8 && rolling[0].weightKg == 90.0 && rolling[7].weightKg == 88.0
  {
    assert days[|days| - 1] == days[7] == days[0] + 7;
    var m := Interpolated(DateRange(days[0], days[7]), days, values);
    InterpolatedKeepsRecorded(DateRange(days[0], days[7]), days, values);
    forall d | days[0] <= d <= days[0] + 7 ensures d in m && m[d] == 90.0 - (d - days[0]) as real / 2.0 {
      var i := d - days[0];
      assert days[i] == d;
    }
    FallingWeekWindows(days[0], m);
  }
}
