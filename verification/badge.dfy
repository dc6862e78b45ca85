/** The mood badge on each history item: a colour tier chosen from the mood
    score, and the mood text shown inside it. */
module Badge {
  import opened Taxonomy
  import opened Distribution

  /** The three badge colours, from best to worst. */
  datatype Tier = High | Medium | Low

  /** The tier of a mood score: 8 and up is high, 6 and 7 are medium, and
      anything lower is low. */
  function TierOf(v: int): (t: Tier)
    ensures t == High <==> 8 <= v
    ensures t == Medium <==> 6 <= v < 8
    ensures t == Low <==> v < 6
  {
    if v >= 8 then High
    else if v >= 6 then Medium
    else Low
  }

  /** The tier of an entry's badge, chosen from its mood score: a numeric
      mood by its own value, a known label by the score the table gives it,
      and an unknown label by the default score 5, which is low. */
  function EntryTier(m: Mood): (t: Tier)
    ensures m.Num? ==> (t == High <==> 8 <= m.score) && (t == Low <==> m.score < 6)
    ensures m.Label? ==> (t == High <==> ParseLabel(m.text) in {Some(Happy), Some(Excited)})
    ensures m.Label? ==> (t == Medium <==> ParseLabel(m.text) == Some(Peaceful))
  {
    TierOf(MoodToNumber(m))
  }

  /** The text shown in the badge: a categorical mood as written, a numeric
      mood as the label of its band. */
  function BadgeText(m: Mood): (s: string)
    ensures m.Label? ==> s == m.text
    ensures m.Num? ==> exists b: Band :: InBand(m.score, b) && s == b.Name()
  {
    match m
    case Label(text) => text
    case Num(_) => NumberToMood(MoodToNumber(m)).Name()
  }

  /** The tier order follows the score order. */
  lemma TierMonotone(a: int, c: int)
    requires a <= c
    ensures TierOf(a) == High ==> TierOf(c) == High
    ensures TierOf(c) == Low ==> TierOf(a) == Low
  {
  }

  /** The tiers the five labels get: Happy and Excited are high, Peaceful is
      medium, and Content, Down and any unknown label are low. */
  lemma LabelTiers(s: string)
    ensures EntryTier(Label(s)) == High <==> s == "Happy" || s == "Excited"
    ensures EntryTier(Label(s)) == Medium <==> s == "Peaceful"
  {
  }

  /** The badge of a recognised mood names the label the distribution counts
      it under. */
  lemma BadgeAgreesWithDistribution(m: Mood)
    requires BucketOf(m).Some?
    ensures BadgeText(m) == BucketOf(m).value.Name()
  {
  }
}
