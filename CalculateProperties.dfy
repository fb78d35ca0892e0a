/**
 * What `calculate` returns, stated on TrendOf (which the Calculate method is proved to
 * compute): the daily series, the hand-off to buildRollingAverage (whose properties are
 * in TrendProperties), constant series, non-positive windows, a single entry, and
 * independence from the order of the samples.
 */
module CalculateProperties {
  import opened Rounding
  import opened Entries
  import opened Trend
  import opened TrendCalculator
  import opened TrendProperties

  /** `calculate` hands buildRollingAverage ascending, distinct days that each have a
      daily value, so the buildRollingAverage lemmas apply to its rolling series. */
  lemma CalculateFeedsBuild(entries: seq<WeightEntry>, rollingWindow: int32)
    requires entries != []
    ensures var ds, dv := SortedDays(entries), DailyValues(entries);
      |ds| > 0 && StrictlyIncreasing(ds) && (forall i :: 0 <= i < |ds| ==> ds[i] in dv) &&
      TrendOf(entries, rollingWindow).rollingAveragePoints == RollingAverage(ds, dv, rollingWindow)
  {
    SortedDaysCorrect(entries);
    SortedDaysHaveValues(entries);
    assert entries[0].day in DaySet(entries);
  }

  /** The daily series is ascending by day and has one point for each sampled day and no
      other. An empty input gives an empty series. */
  lemma DailyPointsDays(entries: seq<WeightEntry>, rollingWindow: int32)
    ensures var dp := TrendOf(entries, rollingWindow).dailyPoints;
      (forall i, j :: 0 <= i < j < |dp| ==> dp[i].date < dp[j].date) &&
      (forall d :: d in DaySet(entries) <==> exists i :: 0 <= i < |dp| && dp[i].date == d)
  {
    if entries != [] {
      SortedDaysCorrect(entries);
      SortedDaysHaveValues(entries);
      PointsOfSorted(SortedDays(entries), DailyValues(entries));
    }
  }

  /** Each daily point carries the unweighted mean of the weights sampled on its day. */
  lemma DailyPointsMeans(entries: seq<WeightEntry>, rollingWindow: int32)
    ensures var dp := TrendOf(entries, rollingWindow).dailyPoints;
      forall i :: 0 <= i < |dp| ==> dp[i].date in DaySet(entries) && dp[i].weightKg == DayMean(entries, dp[i].date)
  {
    if entries != [] {
      SortedDaysCorrect(entries);
      SortedDaysHaveValues(entries);
      var ds := SortedDays(entries);
      forall i | 0 <= i < |ds| ensures ds[i] in DaySet(entries) {
        assert ds[i] in ds;
      }
    }
  }

  /** A window below one day (other than the wrapped minimum) gives an empty rolling
      series. */
  lemma NonPositiveWindow(entries: seq<WeightEntry>, rollingWindow: int32)
    requires -0x8000_0000 < rollingWindow as int <= 0
    ensures TrendOf(entries, rollingWindow).rollingAveragePoints == []
  {
    if entries != [] {
      SortedDaysHaveValues(entries);
      BuildNonPositiveWindow(SortedDays(entries), DailyValues(entries), rollingWindow);
    }
  }

  lemma {:induction false} DayWeightsConstant(entries: seq<WeightEntry>, day: int, c: real)
    requires forall i :: 0 <= i < |entries| ==> entries[i].weightKg == c
    ensures forall i :: 0 <= i < |DayWeights(entries, day)| ==> DayWeights(entries, day)[i] == c
  {
    if entries != [] {
      DayWeightsConstant(entries[1..], day, c);
    }
  }

  /** When every sample weighs c, every daily value is c. */
  lemma DailyValuesConstant(entries: seq<WeightEntry>, c: real)
    requires forall i :: 0 <= i < |entries| ==> entries[i].weightKg == c
    ensures forall d :: d in DailyValues(entries) ==> DailyValues(entries)[d] == c
  {
    forall d | d in DailyValues(entries) ensures DailyValues(entries)[d] == c {
      DayWeightsNonEmpty(entries, d);
      DayWeightsConstant(entries, d, c);
      MeanConstant(DayWeights(entries, d), c);
    }
  }

  /** When every sample weighs c, every daily point is c and every rolling point is c
      rounded to tenths. */
  lemma ConstantSeries(entries: seq<WeightEntry>, rollingWindow: int32, c: real)
    requires forall i :: 0 <= i < |entries| ==> entries[i].weightKg == c
    ensures var trend := TrendOf(entries, rollingWindow);
      (forall i :: 0 <= i < |trend.dailyPoints| ==> trend.dailyPoints[i].weightKg == c) &&
      (forall i :: 0 <= i < |trend.rollingAveragePoints| ==> trend.rollingAveragePoints[i].weightKg == RoundToTenths(c))
  {
    if entries != [] {
      DailyValuesConstant(entries, c);
      SortedDaysHaveValues(entries);
      BuildConstant(SortedDays(entries), DailyValues(entries), rollingWindow, c);
    }
  }

  /** A week of 90.0 kg gives rolling points of 90.0 only. */
  lemma ConstantNinety(entries: seq<WeightEntry>)
    requires forall i :: 0 <= i < |entries| ==> entries[i].weightKg == 90.0
    ensures var rp := TrendOf(entries, DEFAULT_WINDOW_DAYS).rollingAveragePoints;
      forall i :: 0 <= i < |rp| ==> rp[i].weightKg == 90.0
  {
    ConstantSeries(entries, DEFAULT_WINDOW_DAYS, 90.0);
    RoundToTenthsOfTenths(90.0);
  }

  /** A single entry gives one daily point with its weight and one rolling point with
      that weight rounded to tenths, for any window of at least one day. */
  lemma SingleEntry(e: WeightEntry, rollingWindow: int32)
    requires WindowSpan(rollingWindow) >= 0
    ensures TrendOf([e], rollingWindow) ==
      WeightTrend([TrendPoint(e.day, e.weightKg)], [TrendPoint(e.day, RoundToTenths(e.weightKg))])
  {
    var entries := [e];
    assert entries[1..] == [];
    assert SortedDays(entries) == [e.day];
    assert DaySet(entries) == {e.day};
    assert DayWeights(entries, e.day) == [e.weightKg];
    MeanSingle(e.weightKg);
    assert DailyValues(entries)[e.day] == e.weightKg;
    BuildSingleDay(e.day, DailyValues(entries), rollingWindow);
  }

  /** Two samples on day 0 (90.0 and 91.0) and one on day 1 (89.5). */
  function TwoDayEntries(): seq<WeightEntry> {
    [WeightEntry("a", 90.0, 0), WeightEntry("b", 91.0, 0), WeightEntry("c", 89.5, 1)]
  }

  lemma TwoDaySortedDays()
    ensures SortedDays(TwoDayEntries()) == [0, 1]
  {
    var entries := TwoDayEntries();
    assert entries[1..][1..][1..] == [];
    assert SortedDays(entries[1..][1..]) == [1];
    assert SortedDays(entries[1..]) == [0, 1];
  }

  lemma TwoDayWeights()
    ensures DayWeights(TwoDayEntries(), 0) == [90.0, 91.0]
    ensures DayWeights(TwoDayEntries(), 1) == [89.5]
  {
    var entries := TwoDayEntries();
    assert entries[1..][1..][1..] == [];
  }

  lemma TwoDayDailyValues()
    ensures 0 in DailyValues(TwoDayEntries()) && DailyValues(TwoDayEntries())[0] == 90.5
    ensures 1 in DailyValues(TwoDayEntries()) && DailyValues(TwoDayEntries())[1] == 89.5
  {
    var entries := TwoDayEntries();
    TwoDayWeights();
    DayWeightsNonEmpty(entries, 0);
    DayWeightsNonEmpty(entries, 1);
    assert Sum([90.0, 91.0]) == Sum([90.0]) + 91.0;
    MeanSingle(90.0);
    MeanSingle(89.5);
  }

  /** The daily points of those entries are 90.5 on day 0 and 89.5 on day 1. */
  lemma DailyMeansExample()
    ensures TrendOf(TwoDayEntries(), DEFAULT_WINDOW_DAYS).dailyPoints == [TrendPoint(0, 90.5), TrendPoint(1, 89.5)]
  {
    TwoDaySortedDays();
    TwoDayDailyValues();
  }

  // ---------------------------------------------------------------- sample order

  lemma {:induction false} SumAppend(a: seq<real>, b: seq<real>)
    ensures Sum(a + b) == Sum(a) + Sum(b)
    decreases |b|
  {
    if b == [] {
      assert a + b == a;
    } else {
      var c := b[..|b| - 1];
      assert (a + b)[..|a + b| - 1] == a + c;
      assert (a + b)[|a + b| - 1] == b[|b| - 1];
      SumAppend(a, c);
    }
  }

  /** `sum()` over exact reals does not depend on the order of the values. */
  lemma {:induction false} SumPermutation(xs: seq<real>, ys: seq<real>)
    requires multiset(xs) == multiset(ys)
    ensures Sum(xs) == Sum(ys)
    decreases |xs|
  {
    if xs == [] {
      assert |ys| == |multiset(ys)| == 0;
    } else {
      var x := xs[|xs| - 1];
      var rest := xs[..|xs| - 1];
      assert xs == rest + [x];
      assert x in multiset(ys);
      var i :| 0 <= i < |ys| && ys[i] == x;
      var front, back := ys[..i], ys[i + 1..];
      assert ys == front + ([x] + back);
      assert multiset(front + back) == multiset(ys) - multiset{x};
      assert multiset(rest) == multiset(xs) - multiset{x};
      SumPermutation(rest, front + back);
      SumInsert(front, x, back);
      SumAppend(rest, [x]);
      assert Sum([x]) == Sum([]) + x;
    }
  }

  lemma SumInsert(front: seq<real>, x: real, back: seq<real>)
    ensures Sum(front + ([x] + back)) == Sum(front + back) + x
  {
    SumAppend(front, [x] + back);
    SumAppend([x], back);
    SumAppend(front, back);
    assert Sum([x]) == Sum([]) + x;
  }

  lemma {:induction false} DayWeightsAppend(a: seq<WeightEntry>, b: seq<WeightEntry>, day: int)
    ensures DayWeights(a + b, day) == DayWeights(a, day) + DayWeights(b, day)
  {
    if a == [] {
      assert a + b == b;
    } else {
      var head := if a[0].day == day then [a[0].weightKg] else [];
      assert (a + b)[0] == a[0];
      assert (a + b)[1..] == a[1..] + b;
      assert DayWeights(a + b, day) == head + DayWeights(a[1..] + b, day);
      assert DayWeights(a, day) == head + DayWeights(a[1..], day);
      DayWeightsAppend(a[1..], b, day);
      assert head + (DayWeights(a[1..], day) + DayWeights(b, day)) == (head + DayWeights(a[1..], day)) + DayWeights(b, day);
    }
  }

  /** The same samples in another order give each day the same weights, each as often. */
  lemma {:induction false} DayWeightsPermutation(e1: seq<WeightEntry>, e2: seq<WeightEntry>, day: int)
    requires multiset(e1) == multiset(e2)
    ensures multiset(DayWeights(e1, day)) == multiset(DayWeights(e2, day))
    decreases |e1|
  {
    if e1 == [] {
      assert |e2| == |multiset(e2)| == 0;
    } else {
      var x := e1[0];
      assert e1 == [x] + e1[1..];
      assert x in multiset(e2);
      var i :| 0 <= i < |e2| && e2[i] == x;
      var front, back := e2[..i], e2[i + 1..];
      assert e2 == front + ([x] + back);
      assert multiset(front + back) == multiset(e2) - multiset{x};
      assert multiset(e1[1..]) == multiset(e1) - multiset{x};
      DayWeightsPermutation(e1[1..], front + back, day);
      DayWeightsInsert(front, x, back, day);
      DayWeightsAppend([x], e1[1..], day);
    }
  }

  lemma DayWeightsInsert(front: seq<WeightEntry>, x: WeightEntry, back: seq<WeightEntry>, day: int)
    ensures multiset(DayWeights(front + ([x] + back), day)) ==
      multiset(DayWeights([x], day)) + multiset(DayWeights(front + back, day))
  {
    DayWeightsAppend(front, [x] + back, day);
    DayWeightsAppend([x], back, day);
    DayWeightsAppend(front, back, day);
  }

  /** A strictly ascending list is determined by its elements. */
  lemma {:induction false} StrictlyIncreasingUnique(s1: seq<int>, s2: seq<int>)
    requires StrictlyIncreasing(s1) && StrictlyIncreasing(s2)
    requires forall d :: d in s1 <==> d in s2
    ensures s1 == s2
    decreases |s1|
  {
    if s1 == [] {
      forall d ensures d !in multiset(s2) {
        assert d in multiset(s2) <==> d in s2;
      }
      assert multiset(s2) == multiset{};
      assert |s2| == |multiset(s2)|;
    } else {
      assert s1[0] in s1;
      assert s2 != [];
      assert s2[0] in s2;
      assert s1[0] == s2[0];
      var t1, t2 := s1[1..], s2[1..];
      forall d ensures d in t1 <==> d in t2 {
        assert d in t1 <==> d in s1 && d != s1[0];
        assert d in t2 <==> d in s2 && d != s2[0];
      }
      StrictlyIncreasingUnique(t1, t2);
    }
  }

  /** `calculate` depends only on which samples it is given, each counted as often as it
      occurs, and not on their order. */
  lemma OrderIndependent(e1: seq<WeightEntry>, e2: seq<WeightEntry>, rollingWindow: int32)
    requires multiset(e1) == multiset(e2)
    ensures TrendOf(e1, rollingWindow) == TrendOf(e2, rollingWindow)
  {
    if e1 == [] {
      assert |e2| == |multiset(e2)| == 0;
    } else {
      assert e2 != [] by { assert |e2| == |multiset(e2)| == |multiset(e1)| == |e1|; }
      forall e ensures e in e1 <==> e in e2 {
        assert e in e1 <==> e in multiset(e1);
        assert e in e2 <==> e in multiset(e2);
      }
      assert DaySet(e1) == DaySet(e2);
      forall d | d in DaySet(e1) ensures DayMean(e1, d) == DayMean(e2, d) {
        DayWeightsPermutation(e1, e2, d);
        SumPermutation(DayWeights(e1, d), DayWeights(e2, d));
        assert |DayWeights(e1, d)| == |multiset(DayWeights(e1, d))| == |DayWeights(e2, d)|;
      }
      assert DailyValues(e1) == DailyValues(e2);
      SortedDaysCorrect(e1);
      SortedDaysCorrect(e2);
      StrictlyIncreasingUnique(SortedDays(e1), SortedDays(e2));
    }
  }
}
