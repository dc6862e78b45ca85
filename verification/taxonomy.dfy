/** The mood taxonomy of the wellness dashboard.

    A recorded mood is either one of five categorical labels or an already
    numeric score. The forward map sends a mood to a score through a fixed
    table with a default of 5; the inverse map sends a score back to a label
    through five contiguous score bands. The two maps are defined independently
    and are not mutual inverses: the lemmas at the end of this module say
    exactly where they agree and where they do not. */
module Taxonomy {

  datatype Option<+T> = None | Some(value: T)

  /** The five mood labels, in ascending order of the score bands they name. */
  datatype Band = Down | Content | Peaceful | Happy | Excited {

    /** The label as the dashboard spells it. */
    function Name(): string {
      match this
      case Down => "Down"
      case Content => "Content"
      case Peaceful => "Peaceful"
      case Happy => "Happy"
      case Excited => "Excited"
    }

    /** Position of the band on the score axis: 0 for Down up to 4 for Excited. */
    function Rank(): nat {
      match this
      case Down => 0
      case Content => 1
      case Peaceful => 2
      case Happy => 3
      case Excited => 4
    }
  }

  /** A recorded mood: a categorical label (any string, recognised or not)
      or a score that is already numeric. */
  datatype Mood = Label(text: string) | Num(score: int)

  /** The forward table from label spelling to score. */
  const MoodMap: map<string, int> :=
    map["Down" := 2, "Content" := 5, "Peaceful" := 7, "Happy" := 8, "Excited" := 9]

  /** The score given to a label string the table does not know. */
  const DefaultScore: int := 5

  /** Recognises one of the five label spellings. */
  function ParseLabel(s: string): (r: Option<Band>)
    ensures r.Some? ==> r.value.Name() == s
    ensures forall b: Band :: b.Name() == s ==> r == Some(b)
  {
    if s == "Down" then Some(Down)
    else if s == "Content" then Some(Content)
    else if s == "Peaceful" then Some(Peaceful)
    else if s == "Happy" then Some(Happy)
    else if s == "Excited" then Some(Excited)
    else None
  }

  /** The forward map: a numeric mood passes through unchanged, a label is
      looked up in the table, and an unknown label scores the default. */
  function MoodToNumber(m: Mood): (r: int)
    ensures m.Num? ==> r == m.score
    ensures m.Label? ==> r in {2, 5, 7, 8, 9}
    ensures m.Label? && ParseLabel(m.text).None? ==> r == DefaultScore
  {
    match m
    case Num(n) => n
    case Label(s) => if s in MoodMap then MoodMap[s] else DefaultScore
  }

  /** The score band a label names, stated as a two-sided interval so that it
      is independent of the cascade of comparisons in NumberToMood. */
  predicate InBand(n: int, b: Band) {
    match b
    case Down => n <= 2
    case Content => 3 <= n <= 4
    case Peaceful => 5 <= n <= 6
    case Happy => 7 <= n <= 8
    case Excited => 9 <= n
  }

  /** The inverse map: the label of the band a score falls into. */
  function NumberToMood(n: int): (b: Band)
    ensures InBand(n, b)
  {
    if n <= 2 then Down
    else if n <= 4 then Content
    else if n <= 6 then Peaceful
    else if n <= 8 then Happy
    else Excited
  }

  /** The table's keys are exactly the five label spellings. */
  lemma MoodMapKeys(s: string)
    ensures s in MoodMap <==> ParseLabel(s).Some?
  {
  }

  /** The documented score of each label. */
  lemma LabelScores()
    ensures MoodToNumber(Label("Down")) == 2
    ensures MoodToNumber(Label("Content")) == 5
    ensures MoodToNumber(Label("Peaceful")) == 7
    ensures MoodToNumber(Label("Happy")) == 8
    ensures MoodToNumber(Label("Excited")) == 9
  {
  }

  /** Scoring is idempotent on scores: re-scoring a numeric mood changes nothing. */
  lemma MoodToNumberIdempotent(m: Mood)
    ensures MoodToNumber(Num(MoodToNumber(m))) == MoodToNumber(m)
  {
  }

  /** The bands do not overlap: a score lies in exactly one band, the one
      NumberToMood picks (both directions). */
  lemma BandsPartition(n: int, b: Band)
    ensures InBand(n, b) <==> NumberToMood(n) == b
  {
  }

  /** Each band is contiguous: a score between two scores of a band is in it. */
  lemma BandContiguous(lo: int, n: int, hi: int, b: Band)
    requires InBand(lo, b) && InBand(hi, b)
    requires lo <= n <= hi
    ensures InBand(n, b)
  {
  }

  /** The inverse map is monotone in the score. */
  lemma NumberToMoodMonotone(a: int, c: int)
    requires a <= c
    ensures NumberToMood(a).Rank() <= NumberToMood(c).Rank()
  {
  }

  /** Consecutive scores never skip a band, so the bands leave no gap. */
  lemma NumberToMoodNoGap(n: int)
    ensures NumberToMood(n + 1).Rank() <= NumberToMood(n).Rank() + 1
  {
  }

  /** Label to score to label is the identity exactly for Down, Happy and
      Excited; Content comes back as Peaceful and Peaceful as Happy. */
  lemma LabelRoundTrip(b: Band)
    ensures NumberToMood(MoodToNumber(Label(b.Name()))) == b <==> b in {Down, Happy, Excited}
    ensures b == Content ==> NumberToMood(MoodToNumber(Label(b.Name()))) == Peaceful
    ensures b == Peaceful ==> NumberToMood(MoodToNumber(Label(b.Name()))) == Happy
  {
  }
}
