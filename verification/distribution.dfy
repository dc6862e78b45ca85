/** The mood distribution: how many entries fall under each of the five mood
    labels, listed in a fixed order with empty labels left out. */
module Distribution {
  import opened Taxonomy
  import opened Entries

  /** One slice of the distribution: a label and the number of entries
      counted under it. */
  datatype Slice = Slice(band: Band, value: nat) {
    function Name(): string {
      band.Name()
    }
  }

  /** The labels in the order the distribution lists them, highest first. */
  const DisplayOrder: seq<Band> := [Excited, Happy, Peaceful, Content, Down]

  /** The label an entry is counted under, if any. A categorical mood counts
      only under its own spelling, so an unknown label is dropped; a numeric
      mood is counted under the band its score falls into. */
  function BucketOf(m: Mood): (r: Option<Band>)
    ensures m.Num? ==> r == Some(NumberToMood(m.score))
    ensures r.None? <==> m.Label? && m.text !in MoodMap
    ensures m.Label? && r.Some? ==> r.value.Name() == m.text
  {
    match m
    case Label(s) => ParseLabel(s)
    case Num(_) => Some(NumberToMood(MoodToNumber(m)))
  }

  /** How many entries are counted under label `b`. */
  function Count(es: seq<Entry>, b: Band): nat {
    if |es| == 0 then 0
    else Count(es[..|es| - 1], b) + (if BucketOf(es[|es| - 1].mood) == Some(b) then 1 else 0)
  }

  /** How many entries are counted under some label. */
  function Counted(es: seq<Entry>): nat {
    if |es| == 0 then 0
    else Counted(es[..|es| - 1]) + (if BucketOf(es[|es| - 1].mood).Some? then 1 else 0)
  }

  /** The non-empty slices for the labels of `order`, in that order. */
  function Slices(order: seq<Band>, es: seq<Entry>): seq<Slice> {
    if |order| == 0 then []
    else
      var b := order[|order| - 1];
      Slices(order[..|order| - 1], es) + (if Count(es, b) > 0 then [Slice(b, Count(es, b))] else [])
  }

  /** The distribution as a function of the entries. */
  function DistributionOf(es: seq<Entry>): seq<Slice> {
    Slices(DisplayOrder, es)
  }

  /** The sum of the slice values. */
  function Total(r: seq<Slice>): nat {
    if |r| == 0 then 0 else Total(r[..|r| - 1]) + r[|r| - 1].value
  }

  /** Counts the entries into five label counters, then lists the non-empty
      counters in display order. */
  method Distribution(es: seq<Entry>) returns (r: seq<Slice>)
    ensures r == DistributionOf(es)
  {
    var ranges: map<Band, nat> := map[Excited := 0, Happy := 0, Peaceful := 0, Content := 0, Down := 0];
    forall b: Band
      ensures b in ranges && ranges[b] == Count(es[..0], b)
    {
      match b
      case Excited =>
      case Happy =>
      case Peaceful =>
      case Content =>
      case Down =>
    }
    var i := 0;
    while i < |es|
      invariant 0 <= i <= |es|
      invariant forall b: Band :: b in ranges && ranges[b] == Count(es[..i], b)
    {
      assert es[..i + 1][..i] == es[..i];
      match BucketOf(es[i].mood) {
        case Some(b) =>
          ranges := ranges[b := ranges[b] + 1];
        case None =>
      }
      i := i + 1;
    }
    assert es[..i] == es;
    r := [];
    var j := 0;
    while j < |DisplayOrder|
      invariant 0 <= j <= |DisplayOrder|
      invariant r == Slices(DisplayOrder[..j], es)
    {
      var b := DisplayOrder[j];
      assert DisplayOrder[..j + 1][..j] == DisplayOrder[..j];
      if ranges[b] > 0 {
        r := r + [Slice(b, ranges[b])];
      }
      j := j + 1;
    }
    assert DisplayOrder[..j] == DisplayOrder;
  }

  /** Labels listed in strictly descending band order. */
  predicate Descending(order: seq<Band>) {
    forall i, j :: 0 <= i < j < |order| ==> order[i].Rank() > order[j].Rank()
  }

  /** Every slice is non-empty, carries its label's count, and is for a
      label of `order`. */
  lemma {:induction false} SlicesCounts(order: seq<Band>, es: seq<Entry>)
    ensures forall k :: 0 <= k < |Slices(order, es)| ==>
      && 0 < Slices(order, es)[k].value == Count(es, Slices(order, es)[k].band)
      && Slices(order, es)[k].band in order
  {
    if |order| > 0 {
      var init := order[..|order| - 1];
      SlicesCounts(init, es);
      assert Slices(order, es)[..|Slices(init, es)|] == Slices(init, es);
    }
  }

  /** Slices keep the order of `order`: listed in descending band order when
      `order` is. */
  lemma {:induction false} SlicesDescending(order: seq<Band>, es: seq<Entry>)
    requires Descending(order)
    ensures forall k, l :: 0 <= k < l < |Slices(order, es)| ==>
      Slices(order, es)[k].band.Rank() > Slices(order, es)[l].band.Rank()
  {
    if |order| > 0 {
      var init := order[..|order| - 1];
      var last := order[|order| - 1];
      SlicesDescending(init, es);
      SlicesCounts(init, es);
      var pre := Slices(init, es);
      var r := Slices(order, es);
      assert r[..|pre|] == pre;
      forall k | 0 <= k < |pre|
        ensures pre[k].band.Rank() > last.Rank()
      {
        assert pre[k].band in init;
        var m :| 0 <= m < |init| && init[m] == pre[k].band;
      }
      forall k, l | 0 <= k < l < |r|
        ensures r[k].band.Rank() > r[l].band.Rank()
      {
        if l >= |pre| {
          assert r[l].band == last;
          assert r[k] == pre[k];
        } else {
          assert r[k] == pre[k] && r[l] == pre[l];
        }
      }
    }
  }

  /** A label of `order` has a slice exactly when some entry is counted under it. */
  lemma {:induction false} SlicesComplete(order: seq<Band>, es: seq<Entry>, b: Band)
    requires b in order
    ensures Count(es, b) > 0 <==> exists k :: 0 <= k < |Slices(order, es)| && Slices(order, es)[k].band == b
  {
    var r := Slices(order, es);
    SlicesCounts(order, es);
    if Count(es, b) > 0 {
      var init := order[..|order| - 1];
      var last := order[|order| - 1];
      var pre := Slices(init, es);
      assert r[..|pre|] == pre;
      if b == last {
        assert r[|r| - 1].band == b;
      } else {
        assert b in init;
        SlicesComplete(init, es, b);
        var k :| 0 <= k < |pre| && pre[k].band == b;
        assert r[k].band == b;
      }
    }
  }

  /** The distribution's slices are non-empty, carry their label's count,
      appear in the order Excited, Happy, Peaceful, Content, Down without
      repetition, and cover every label some entry is counted under. */
  lemma DistributionShape(es: seq<Entry>)
    ensures var r := DistributionOf(es);
      && (forall k :: 0 <= k < |r| ==> 0 < r[k].value == Count(es, r[k].band))
      && (forall k, l :: 0 <= k < l < |r| ==> r[k].band.Rank() > r[l].band.Rank())
      && (forall b: Band :: Count(es, b) > 0 <==> exists k :: 0 <= k < |r| && r[k].band == b)
  {
    assert DistributionOf(es) == Slices(DisplayOrder, es);
    SlicesCounts(DisplayOrder, es);
    SlicesDescending(DisplayOrder, es);
    forall b: Band
      ensures Count(es, b) > 0 <==> exists k :: 0 <= k < |DistributionOf(es)| && DistributionOf(es)[k].band == b
    {
      InDisplayOrder(b);
      SlicesComplete(DisplayOrder, es, b);
    }
  }

  /** Every label is listed in the display order. */
  lemma InDisplayOrder(b: Band)
    ensures b in DisplayOrder
  {
    match b
    case Excited => assert DisplayOrder[0] == b;
    case Happy => assert DisplayOrder[1] == b;
    case Peaceful => assert DisplayOrder[2] == b;
    case Content => assert DisplayOrder[3] == b;
    case Down => assert DisplayOrder[4] == b;
  }

  /** Every counted entry is counted under exactly one label. */
  lemma {:induction false} CountedSplits(es: seq<Entry>)
    ensures Counted(es) ==
      Count(es, Excited) + Count(es, Happy) + Count(es, Peaceful) + Count(es, Content) + Count(es, Down)
  {
    if |es| > 0 {
      CountedSplits(es[..|es| - 1]);
    }
  }

  /** An entry goes uncounted exactly when its mood is an unknown label. */
  lemma {:induction false} CountedBound(es: seq<Entry>)
    ensures Counted(es) <= |es|
    ensures Counted(es) == |es| <==>
      forall i :: 0 <= i < |es| ==> es[i].mood.Num? || es[i].mood.text in MoodMap
  {
    if |es| > 0 {
      var init := es[..|es| - 1];
      CountedBound(init);
      assert forall i :: 0 <= i < |init| ==> init[i] == es[i];
    }
  }

  /** The values of a slice list add up to the counts of the labels it was
      built from; dropping empty labels loses nothing. */
  lemma {:induction false} SlicesTotal(order: seq<Band>, es: seq<Entry>)
    ensures Total(Slices(order, es)) == SumCounts(order, es)
  {
    if |order| > 0 {
      var init := order[..|order| - 1];
      var b := order[|order| - 1];
      SlicesTotal(init, es);
      var pre := Slices(init, es);
      if Count(es, b) > 0 {
        assert (pre + [Slice(b, Count(es, b))])[..|pre|] == pre;
      } else {
        assert pre + [] == pre;
      }
    }
  }

  /** The total of the counts of the labels of `order`. */
  function SumCounts(order: seq<Band>, es: seq<Entry>): nat {
    if |order| == 0 then 0 else SumCounts(order[..|order| - 1], es) + Count(es, order[|order| - 1])
  }

  /** Count conservation: the distribution accounts for every entry except
      those whose mood is a label outside the five, and for all of them when
      there is no such entry. */
  lemma DistributionTotal(es: seq<Entry>)
    ensures Total(DistributionOf(es)) == Counted(es) <= |es|
    ensures Total(DistributionOf(es)) == |es| <==>
      forall i :: 0 <= i < |es| ==> es[i].mood.Num? || es[i].mood.text in MoodMap
  {
    SlicesTotal(DisplayOrder, es);
    DisplayOrderCounts(es);
    CountedSplits(es);
    CountedBound(es);
  }

  /** The counts over the display order are the counts of all five labels. */
  lemma DisplayOrderCounts(es: seq<Entry>)
    ensures SumCounts(DisplayOrder, es) ==
      Count(es, Excited) + Count(es, Happy) + Count(es, Peaceful) + Count(es, Content) + Count(es, Down)
  {
    var c1 := Count(es, Excited);
    var c2 := Count(es, Happy);
    var c3 := Count(es, Peaceful);
    var c4 := Count(es, Content);
    assert SumCounts([Excited], es) == c1 by {
      assert [Excited][..0] == [];
    }
    assert SumCounts([Excited, Happy], es) == c1 + c2 by {
      assert [Excited, Happy][..1] == [Excited];
    }
    assert SumCounts([Excited, Happy, Peaceful], es) == c1 + c2 + c3 by {
      assert [Excited, Happy, Peaceful][..2] == [Excited, Happy];
    }
    assert SumCounts([Excited, Happy, Peaceful, Content], es) == c1 + c2 + c3 + c4 by {
      assert [Excited, Happy, Peaceful, Content][..3] == [Excited, Happy, Peaceful];
    }
    assert DisplayOrder[..4] == [Excited, Happy, Peaceful, Content];
  }

  /** Two Happy days and one Down day give a Happy slice of 2 and a Down
      slice of 1; the three empty labels are left out. */
  lemma HappyHappyDown(es: seq<Entry>)
    requires |es| == 3
    requires es[0].mood == Label("Happy") && es[1].mood == Label("Happy") && es[2].mood == Label("Down")
    ensures DistributionOf(es) == [Slice(Happy, 2), Slice(Down, 1)]
  {
    var e1 := es[..1];
    var e2 := es[..2];
    assert e2[..1] == e1 && es[..2] == e2 && e1[..0] == [];
    forall b: Band
      ensures Count(es, b) == (if b == Happy then 2 else if b == Down then 1 else 0)
    {
      assert Count(e1, b) == (if b == Happy then 1 else 0);
      assert Count(e2, b) == (if b == Happy then 2 else 0);
    }
    assert Slices([Excited], es) == [] by {
      assert [Excited][..0] == [];
    }
    assert Slices([Excited, Happy], es) == [Slice(Happy, 2)] by {
      assert [Excited, Happy][..1] == [Excited];
    }
    assert Slices([Excited, Happy, Peaceful], es) == [Slice(Happy, 2)] by {
      assert [Excited, Happy, Peaceful][..2] == [Excited, Happy];
    }
    assert Slices([Excited, Happy, Peaceful, Content], es) == [Slice(Happy, 2)] by {
      assert [Excited, Happy, Peaceful, Content][..3] == [Excited, Happy, Peaceful];
    }
    assert DisplayOrder[..4] == [Excited, Happy, Peaceful, Content];
  }
}
