/** A daily wellness entry as the dashboard receives it, and the projections
    of a sequence of entries that the aggregations work on. */
module Entries {
  import opened Taxonomy

  /** One logged day. `date` is the calendar date as stored; `stress` and
      `sleep` are the stress level and hours slept. */
  datatype Entry = Entry(
    id: string,
    date: string,
    mood: Mood,
    stress: int,
    sleep: real,
    journal: string,
    user: string)

  /** The mood score of every entry, in order. */
  function Scores(es: seq<Entry>): (xs: seq<int>)
    ensures |xs| == |es|
    ensures forall i :: 0 <= i < |es| ==> xs[i] == MoodToNumber(es[i].mood)
  {
    seq(|es|, i requires 0 <= i < |es| => MoodToNumber(es[i].mood))
  }

  /** The stress level of every entry, in order. */
  function Stresses(es: seq<Entry>): (xs: seq<int>)
    ensures |xs| == |es|
    ensures forall i :: 0 <= i < |es| ==> xs[i] == es[i].stress
  {
    seq(|es|, i requires 0 <= i < |es| => es[i].stress)
  }

  /** The hours slept of every entry, in order. */
  function Sleeps(es: seq<Entry>): (xs: seq<real>)
    ensures |xs| == |es|
    ensures forall i :: 0 <= i < |es| ==> xs[i] == es[i].sleep
  {
    seq(|es|, i requires 0 <= i < |es| => es[i].sleep)
  }

  /** Scoring commutes with slicing: scoring part of the entries gives the
      same part of the scores. */
  lemma ScoresSlice(es: seq<Entry>, lo: nat, hi: nat)
    requires lo <= hi <= |es|
    ensures Scores(es[lo..hi]) == Scores(es)[lo..hi]
  {
  }
}
