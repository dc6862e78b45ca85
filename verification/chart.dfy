/** The chart series: one point per entry, in entry order, carrying the date,
    the mood score, the stress level and the hours slept. */
module Chart {
  import opened Taxonomy
  import opened Entries
  import opened Stats
  import opened Summary

  /** One plotted day. `date` is the stored date; its display formatting is
      not part of this model. */
  datatype ChartPoint = ChartPoint(date: string, mood: int, stress: int, sleep: real)

  /** The point plotted for one entry. */
  function PointOf(e: Entry): ChartPoint {
    ChartPoint(e.date, MoodToNumber(e.mood), e.stress, e.sleep)
  }

  /** The series: same length and order as the entries, the mood scored and
      stress and sleep copied unchanged. */
  function ChartSeries(es: seq<Entry>): (cs: seq<ChartPoint>)
    ensures |cs| == |es|
    ensures forall i :: 0 <= i < |es| ==>
      && cs[i].date == es[i].date
      && cs[i].mood == MoodToNumber(es[i].mood)
      && cs[i].stress == es[i].stress
      && cs[i].sleep == es[i].sleep
  {
    seq(|es|, i requires 0 <= i < |es| => PointOf(es[i]))
  }

  /** The mood column of a series. */
  function MoodColumn(cs: seq<ChartPoint>): (xs: seq<int>)
    ensures |xs| == |cs|
    ensures forall i :: 0 <= i < |cs| ==> xs[i] == cs[i].mood
  {
    seq(|cs|, i requires 0 <= i < |cs| => cs[i].mood)
  }

  /** Shaping preserves order: the series of a concatenation is the
      concatenation of the series. */
  lemma ChartAppend(a: seq<Entry>, b: seq<Entry>)
    ensures ChartSeries(a + b) == ChartSeries(a) + ChartSeries(b)
  {
  }

  /** The chart's mood column is the sequence of mood scores the summary averages. */
  lemma ChartMoodsAreScores(es: seq<Entry>)
    ensures MoodColumn(ChartSeries(es)) == Scores(es)
  {
  }

  /** The summary's mean mood is the mean of the mood column over the last
      week of the plotted series. */
  lemma ChartAgreesWithSummary(es: seq<Entry>)
    requires |es| > 0
    ensures Summarize(es).avgMood == Mean(MoodColumn(Window(ChartSeries(es))))
  {
    ChartWindow(es);
    ChartMoodsAreScores(Window(es));
  }

  /** The last week of the series is the series of the last week. */
  lemma ChartWindow(es: seq<Entry>)
    ensures Window(ChartSeries(es)) == ChartSeries(Window(es))
  {
  }
}
