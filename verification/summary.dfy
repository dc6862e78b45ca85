/** The dashboard's summary statistics over the most recent week of entries:
    mean mood, mean stress, total sleep, entry count and a two-half trend. */
module Summary {
  import opened Taxonomy
  import opened Entries
  import opened Stats

  /** How many of the most recent entries the statistics look at. */
  const WindowSize: nat := 7

  /** How far apart the two half-window mood means must be to count as a trend. */
  const Threshold: real := 0.5

  /** The most recent entries: the last `WindowSize` of them, or all of them
      when there are fewer. */
  function Window<T>(s: seq<T>): (w: seq<T>)
    ensures |w| == if |s| < WindowSize then |s| else WindowSize
    ensures s[|s| - |w|..] == w
  {
    if |s| <= WindowSize then s else s[|s| - WindowSize..]
  }

  /** Splits a window at the floor of half its length; an odd length gives
      the extra element to the second half. */
  function Split<T>(w: seq<T>): (halves: (seq<T>, seq<T>))
    ensures halves.0 + halves.1 == w
    ensures |halves.0| == |w| / 2
    ensures |halves.0| <= |halves.1| <= |halves.0| + 1
  {
    (w[..|w| / 2], w[|w| / 2..])
  }

  datatype Trend = Positive | Stable | NeedsAttention

  /** Compares the mood means of the two halves: exactly one of the three
      outcomes holds, and each one holds precisely on its own interval. */
  function Classify(firstAvg: real, secondAvg: real): (t: Trend)
    ensures t == Positive <==> secondAvg > firstAvg + Threshold
    ensures t == NeedsAttention <==> secondAvg < firstAvg - Threshold
    ensures t == Stable <==> firstAvg - Threshold <= secondAvg <= firstAvg + Threshold
  {
    if secondAvg > firstAvg + Threshold then Positive
    else if secondAvg < firstAvg - Threshold then NeedsAttention
    else Stable
  }

  /** The trend of a window of mood scores. A window of three or fewer
      scores is always stable; a longer one is split into two non-empty
      halves whose means are compared. */
  function TrendOf(xs: seq<int>): (t: Trend)
    ensures |xs| <= 3 ==> t == Stable
    ensures |xs| > 3 ==>
      var (first, second) := Split(xs);
      && 0 < |first| <= |second|
      && (t == Positive <==> Mean(second) > Mean(first) + Threshold)
      && (t == NeedsAttention <==> Mean(second) < Mean(first) - Threshold)
  {
    if |xs| <= 3 then Stable
    else
      var (first, second) := Split(xs);
      Classify(Mean(first), Mean(second))
  }

  /** The derived statistics, before they are formatted for display. */
  datatype SummaryStats = SummaryStats(
    avgMood: real,
    avgStress: real,
    totalSleep: real,
    improvement: Trend,
    totalEntries: nat)

  /** The summary of an empty history. */
  const EmptySummary := SummaryStats(0.0, 0.0, 0.0, Stable, 0)

  /** Summary statistics over the last week of entries. The empty history
      gets the zeroed default and nothing is divided by zero. Otherwise the
      means are the means over the window, each lying between the least and
      greatest value it averages; the sleep is summed over the window; the
      trend is the window's trend; and the entry count is the whole history,
      not the window. */
  function Summarize(es: seq<Entry>): (s: SummaryStats)
    ensures |es| == 0 ==> s == EmptySummary
    ensures s.totalEntries == |es|
    ensures |es| <= 3 ==> s.improvement == Stable
    ensures |es| > 0 ==>
      Min(Scores(Window(es))) as real <= s.avgMood <= Max(Scores(Window(es))) as real
    ensures |es| > 0 ==>
      Min(Stresses(Window(es))) as real <= s.avgStress <= Max(Stresses(Window(es))) as real
    ensures |es| > 0 ==>
      && s.avgMood == Mean(Scores(Window(es)))
      && s.avgStress == Mean(Stresses(Window(es)))
      && s.totalSleep == SumReal(Sleeps(Window(es)))
      && s.improvement == TrendOf(Scores(Window(es)))
  {
    if |es| == 0 then EmptySummary
    else
      var recent := Window(es);
      MeanBetweenMinMax(Scores(recent));
      MeanBetweenMinMax(Stresses(recent));
      SummaryStats(
        Mean(Scores(recent)),
        Mean(Stresses(recent)),
        SumReal(Sleeps(recent)),
        TrendOf(Scores(recent)),
        |es|)
  }

  /** The summary's trend, stated through the window's halves: with more
      than three entries, it is positive exactly when the second half's mean
      mood beats the first half's by more than 0.5, needs attention exactly
      when it falls short by more than 0.5, and is stable otherwise. */
  lemma SummaryTrend(es: seq<Entry>)
    requires |es| > 3
    ensures var (first, second) := Split(Scores(Window(es)));
      && 0 < |first| <= |second|
      && (Summarize(es).improvement == Positive <==> Mean(second) > Mean(first) + Threshold)
      && (Summarize(es).improvement == NeedsAttention <==> Mean(second) < Mean(first) - Threshold)
      && (Summarize(es).improvement == Stable <==>
            Mean(first) - Threshold <= Mean(second) <= Mean(first) + Threshold)
  {
    var xs := Scores(Window(es));
    assert |xs| > 3;
    assert Summarize(es).improvement == TrendOf(xs);
  }

  /** Entries older than the most recent week change nothing but the count. */
  lemma OnlyRecentWeekCounts(older: seq<Entry>, recent: seq<Entry>)
    requires |recent| >= WindowSize
    ensures Summarize(older + recent) == Summarize(recent).(totalEntries := |older| + |recent|)
  {
    var all := older + recent;
    assert Window(all) == Window(recent) by {
      assert all[|all| - WindowSize..] == recent[|recent| - WindowSize..];
    }
  }

  /** When every logged sleep lies in [lo, hi] hours, the total sleep lies
      between lo and hi hours per entry of the window. */
  lemma TotalSleepBounds(es: seq<Entry>, lo: real, hi: real)
    requires forall i :: 0 <= i < |es| ==> lo <= es[i].sleep <= hi
    ensures lo * |Window(es)| as real <= Summarize(es).totalSleep <= hi * |Window(es)| as real
  {
    if |es| > 0 {
      WindowSleepBounds(es, lo, hi);
      assert Summarize(es).totalSleep == SumReal(Sleeps(Window(es)));
    }
  }

  /** The sleep summed over the window obeys the per-entry bounds times the
      window length. */
  lemma WindowSleepBounds(es: seq<Entry>, lo: real, hi: real)
    requires forall i :: 0 <= i < |es| ==> lo <= es[i].sleep <= hi
    ensures lo * |Window(es)| as real <= SumReal(Sleeps(Window(es))) <= hi * |Window(es)| as real
  {
    var sleeps := Sleeps(Window(es));
    WindowKeepsSleepBounds(es, lo, hi);
    SumRealBounds(sleeps, lo, hi);
  }

  /** Each sleep of the window obeys the bounds every logged sleep obeys. */
  lemma WindowKeepsSleepBounds(es: seq<Entry>, lo: real, hi: real)
    requires forall i :: 0 <= i < |es| ==> lo <= es[i].sleep <= hi
    ensures forall i :: 0 <= i < |Window(es)| ==> lo <= Sleeps(Window(es))[i] <= hi
  {
    var w := Window(es);
    forall i | 0 <= i < |w|
      ensures lo <= Sleeps(w)[i] <= hi
    {
      assert w[i] == es[|es| - |w| + i];
    }
  }

  /** A strictly rising window of more than three scores is a positive trend:
      every second-half score beats every first-half score by at least 1. */
  lemma RisingIsPositive(xs: seq<int>)
    requires |xs| > 3
    requires forall i, j :: 0 <= i < j < |xs| ==> xs[i] < xs[j]
    ensures TrendOf(xs) == Positive
  {
    var (first, second) := Split(xs);
    var k := |first|;
    assert first == xs[..k] && second == xs[k..];
    MeanBetweenMinMax(first);
    MeanBetweenMinMax(second);
    var i :| 0 <= i < k && first[i] == Max(first);
    var j :| 0 <= j < |second| && second[j] == Min(second);
    assert xs[i] < xs[k + j];
  }

  /** A strictly falling window of more than three scores needs attention. */
  lemma FallingNeedsAttention(xs: seq<int>)
    requires |xs| > 3
    requires forall i, j :: 0 <= i < j < |xs| ==> xs[i] > xs[j]
    ensures TrendOf(xs) == NeedsAttention
  {
    var (first, second) := Split(xs);
    var k := |first|;
    assert first == xs[..k] && second == xs[k..];
    MeanBetweenMinMax(first);
    MeanBetweenMinMax(second);
    var i :| 0 <= i < k && first[i] == Min(first);
    var j :| 0 <= j < |second| && second[j] == Max(second);
    assert xs[i] > xs[k + j];
  }

  /** A flat window is stable. */
  lemma FlatIsStable(xs: seq<int>, c: int)
    requires forall i :: 0 <= i < |xs| ==> xs[i] == c
    ensures TrendOf(xs) == Stable
  {
    if |xs| > 3 {
      var (first, second) := Split(xs);
      assert first == xs[..|first|] && second == xs[|first|..];
      MeanConstant(first, c);
      MeanConstant(second, c);
    }
  }

  /** The demonstration week the dashboard starts with before any data loads. */
  const MockEntries: seq<Entry> := [
    Entry("1", "2025-01-22", Label("Happy"), 4, 7.5, "", "demo-user"),
    Entry("2", "2025-01-23", Label("Down"), 6, 6.0, "", "demo-user"),
    Entry("3", "2025-01-24", Label("Content"), 3, 8.0, "", "demo-user"),
    Entry("4", "2025-01-25", Label("Excited"), 7, 5.5, "", "demo-user"),
    Entry("5", "2025-01-26", Label("Down"), 4, 7.0, "", "demo-user"),
    Entry("6", "2025-01-27", Label("Happy"), 2, 8.5, "", "demo-user"),
    Entry("7", "2025-01-28", Label("Content"), 5, 7.0, "", "demo-user")
  ]

  /** The demonstration week summarises to a mood of 39/7 (about 5.6), a
      stress of 31/7, 49.5 hours of sleep and a positive trend (first half
      averages 5, second half 6). */
  lemma MockWeekSummary()
    ensures Summarize(MockEntries) == SummaryStats(39.0 / 7.0, 31.0 / 7.0, 49.5, Positive, 7)
  {
    WeekSummary(MockEntries, [8, 2, 5, 9, 2, 8, 5], [4, 6, 3, 7, 4, 2, 5],
                [7.5, 6.0, 8.0, 5.5, 7.0, 8.5, 7.0]);
    MockMoodSum();
    MockStressSum();
    MockSleepSum();
    MockTrend();
  }

  /** The summary of a history no longer than one window, in terms of its
      projections. */
  lemma WeekSummary(es: seq<Entry>, moods: seq<int>, stresses: seq<int>, sleeps: seq<real>)
    requires 0 < |es| <= WindowSize
    requires Scores(es) == moods && Stresses(es) == stresses && Sleeps(es) == sleeps
    ensures Summarize(es) == SummaryStats(
      Sum(moods) as real / |es| as real,
      Sum(stresses) as real / |es| as real,
      SumReal(sleeps),
      TrendOf(moods),
      |es|)
  {
  }

  /** The mood sum of the first half of the demonstration week. */
  lemma MockFirstHalfSum()
    ensures Sum([8, 2, 5]) == 15
  {
    assert Sum([8]) == 8 by {
      SumSnoc([], 8);
      assert [] + [8] == [8];
    }
    assert Sum([8, 2]) == 10 by {
      SumSnoc([8], 2);
      assert [8] + [2] == [8, 2];
    }
    SumSnoc([8, 2], 5);
    assert [8, 2] + [5] == [8, 2, 5];
  }

  /** The mood sum of the second half of the demonstration week. */
  lemma MockSecondHalfSum()
    ensures Sum([9, 2, 8, 5]) == 24
  {
    assert Sum([9]) == 9 by {
      SumSnoc([], 9);
      assert [] + [9] == [9];
    }
    assert Sum([9, 2]) == 11 by {
      SumSnoc([9], 2);
      assert [9] + [2] == [9, 2];
    }
    assert Sum([9, 2, 8]) == 19 by {
      SumSnoc([9, 2], 8);
      assert [9, 2] + [8] == [9, 2, 8];
    }
    SumSnoc([9, 2, 8], 5);
    assert [9, 2, 8] + [5] == [9, 2, 8, 5];
  }

  /** The stress sum of the demonstration week. */
  lemma MockStressSum()
    ensures Sum([4, 6, 3, 7, 4, 2, 5]) == 31
  {
    assert Sum([4]) == 4 by {
      SumSnoc([], 4);
      assert [] + [4] == [4];
    }
    assert Sum([4, 6]) == 10 by {
      SumSnoc([4], 6);
      assert [4] + [6] == [4, 6];
    }
    assert Sum([4, 6, 3]) == 13 by {
      SumSnoc([4, 6], 3);
      assert [4, 6] + [3] == [4, 6, 3];
    }
    assert Sum([4, 6, 3, 7]) == 20 by {
      SumSnoc([4, 6, 3], 7);
      assert [4, 6, 3] + [7] == [4, 6, 3, 7];
    }
    assert Sum([4, 6, 3, 7, 4]) == 24 by {
      SumSnoc([4, 6, 3, 7], 4);
      assert [4, 6, 3, 7] + [4] == [4, 6, 3, 7, 4];
    }
    assert Sum([4, 6, 3, 7, 4, 2]) == 26 by {
      SumSnoc([4, 6, 3, 7, 4], 2);
      assert [4, 6, 3, 7, 4] + [2] == [4, 6, 3, 7, 4, 2];
    }
    SumSnoc([4, 6, 3, 7, 4, 2], 5);
    assert [4, 6, 3, 7, 4, 2] + [5] == [4, 6, 3, 7, 4, 2, 5];
  }

  /** The sleep sum of the demonstration week. */
  lemma MockSleepSum()
    ensures SumReal([7.5, 6.0, 8.0, 5.5, 7.0, 8.5, 7.0]) == 49.5
  {
    assert SumReal([7.5]) == 7.5 by {
      SumRealSnoc([], 7.5);
      assert [] + [7.5] == [7.5];
    }
    assert SumReal([7.5, 6.0]) == 13.5 by {
      SumRealSnoc([7.5], 6.0);
      assert [7.5] + [6.0] == [7.5, 6.0];
    }
    assert SumReal([7.5, 6.0, 8.0]) == 21.5 by {
      SumRealSnoc([7.5, 6.0], 8.0);
      assert [7.5, 6.0] + [8.0] == [7.5, 6.0, 8.0];
    }
    assert SumReal([7.5, 6.0, 8.0, 5.5]) == 27.0 by {
      SumRealSnoc([7.5, 6.0, 8.0], 5.5);
      assert [7.5, 6.0, 8.0] + [5.5] == [7.5, 6.0, 8.0, 5.5];
    }
    assert SumReal([7.5, 6.0, 8.0, 5.5, 7.0]) == 34.0 by {
      SumRealSnoc([7.5, 6.0, 8.0, 5.5], 7.0);
      assert [7.5, 6.0, 8.0, 5.5] + [7.0] == [7.5, 6.0, 8.0, 5.5, 7.0];
    }
    assert SumReal([7.5, 6.0, 8.0, 5.5, 7.0, 8.5]) == 42.5 by {
      SumRealSnoc([7.5, 6.0, 8.0, 5.5, 7.0], 8.5);
      assert [7.5, 6.0, 8.0, 5.5, 7.0] + [8.5] == [7.5, 6.0, 8.0, 5.5, 7.0, 8.5];
    }
    SumRealSnoc([7.5, 6.0, 8.0, 5.5, 7.0, 8.5], 7.0);
    assert [7.5, 6.0, 8.0, 5.5, 7.0, 8.5] + [7.0] == [7.5, 6.0, 8.0, 5.5, 7.0, 8.5, 7.0];
  }

  /** The mood sum of the demonstration week. */
  lemma MockMoodSum()
    ensures Sum([8, 2, 5, 9, 2, 8, 5]) == 39
  {
    MockFirstHalfSum();
    MockSecondHalfSum();
    SumAppend([8, 2, 5], [9, 2, 8, 5]);
    assert [8, 2, 5] + [9, 2, 8, 5] == [8, 2, 5, 9, 2, 8, 5];
  }

  /** The demonstration week trends upward: its halves average 5 and 6. */
  lemma MockTrend()
    ensures TrendOf([8, 2, 5, 9, 2, 8, 5]) == Positive
  {
    var xs := [8, 2, 5, 9, 2, 8, 5];
    var (first, second) := Split(xs);
    assert first == [8, 2, 5] && second == [9, 2, 8, 5];
    MockFirstHalfSum();
    MockSecondHalfSum();
  }
}
