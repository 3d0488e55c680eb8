/** The five-element scorer of `utils/astrologyUtils.ts`
    (`calculateFiveElementsScore`). Scores are kept in tenths: a stem adds
    10 (1.0) and a branch 12 (1.2) to its element. */
module FiveElements {

  import opened JsMath
  import opened Elements
  import opened BaZi

  const STEM_WEIGHT := 10
  const BRANCH_WEIGHT := 12

  /** The order of the score table and thus of ties in the result. */
  const ELEMENT_ORDER: seq<Element> := [Metal, Wood, Water, Fire, Earth]

  function Rank(e: Element): (r: nat)
    ensures r < |ELEMENT_ORDER| && ELEMENT_ORDER[r] == e
  {
    match e
    case Metal => 0
    case Wood => 1
    case Water => 2
    case Fire => 3
    case Earth => 4
  }

  /** One row of the distribution: score in tenths, percent of the total. */
  datatype ElementScore = ElementScore(element: Element, score: nat, percent: int)

  /** What `addScore` adds to element e for one pillar; a character missing
      from the element tables adds nothing. */
  function PillarScore(p: Pillar, e: Element): nat
  {
    (if p.stem in STEM_ELEMENTS && STEM_ELEMENTS[p.stem] == e then STEM_WEIGHT else 0)
    + (if p.branch in BRANCH_ELEMENTS && BRANCH_ELEMENTS[p.branch] == e then BRANCH_WEIGHT else 0)
  }

  function RawScore(c: BaZiChart, e: Element): nat
  {
    PillarScore(c.year, e) + PillarScore(c.month, e) + PillarScore(c.day, e) + PillarScore(c.hour, e)
  }

  function Total(c: BaZiChart): nat
  {
    RawScore(c, Metal) + RawScore(c, Wood) + RawScore(c, Water) + RawScore(c, Fire) + RawScore(c, Earth)
  }

  /** `total === 0 ? 0 : Math.round((score / total) * 100)`: the nearest
      whole percent, halves rounded up; 0 when nothing was scored. */
  function Percent(score: nat, total: nat): (r: int)
    ensures total == 0 ==> r == 0
    ensures total > 0 ==> 2 * total * r - total <= 200 * score < 2 * total * r + total
    ensures score <= total ==> 0 <= r <= 100
  {
    if total == 0 then 0 else JsRound(100 * score, total)
  }

  /** The row of one element: its score and its share of the total. */
  function Row(c: BaZiChart, e: Element): ElementScore
  {
    ElementScore(e, RawScore(c, e), Percent(RawScore(c, e), Total(c)))
  }

  predicate IsRow(c: BaZiChart, x: ElementScore)
  {
    x == Row(c, x.element)
  }

  /** The four pillars of a chart, year first. */
  function PillarsOf(c: BaZiChart): seq<Pillar>
  {
    [c.year, c.month, c.day, c.hour]
  }

  /** 1 when the pillar's stem has element e, else 0. */
  function StemHit(p: Pillar, e: Element): nat
  {
    if p.stem in STEM_ELEMENTS && STEM_ELEMENTS[p.stem] == e then 1 else 0
  }

  /** 1 when the pillar's branch has element e, else 0. */
  function BranchHit(p: Pillar, e: Element): nat
  {
    if p.branch in BRANCH_ELEMENTS && BRANCH_ELEMENTS[p.branch] == e then 1 else 0
  }

  /** How many of the pillars have a stem of element e. */
  function StemCount(ps: seq<Pillar>, e: Element): nat
  {
    if |ps| == 0 then 0 else StemHit(ps[0], e) + StemCount(ps[1..], e)
  }

  /** How many of the pillars have a branch of element e. */
  function BranchCount(ps: seq<Pillar>, e: Element): nat
  {
    if |ps| == 0 then 0 else BranchHit(ps[0], e) + BranchCount(ps[1..], e)
  }

  /** Counting over four pillars is adding up their four hits. */
  lemma {:induction false} CountFour(a: Pillar, b: Pillar, c: Pillar, d: Pillar, e: Element)
    ensures StemCount([a, b, c, d], e) == StemHit(a, e) + StemHit(b, e) + StemHit(c, e) + StemHit(d, e)
    ensures BranchCount([a, b, c, d], e) == BranchHit(a, e) + BranchHit(b, e) + BranchHit(c, e) + BranchHit(d, e)
  {
    assert [a, b, c, d][1..] == [b, c, d];
    assert [b, c, d][1..] == [c, d];
    assert [c, d][1..] == [d];
    assert [d][1..] == [];
    assert StemCount([d], e) == StemHit(d, e) + StemCount([], e);
    assert BranchCount([d], e) == BranchHit(d, e) + BranchCount([], e);
    assert StemCount([c, d], e) == StemHit(c, e) + StemCount([d], e);
    assert BranchCount([c, d], e) == BranchHit(c, e) + BranchCount([d], e);
    assert StemCount([b, c, d], e) == StemHit(b, e) + StemCount([c, d], e);
    assert BranchCount([b, c, d], e) == BranchHit(b, e) + BranchCount([c, d], e);
  }

  /** An element's score is 1.0 per stem and 1.2 per branch of that element. */
  lemma RawScoreCounts(c: BaZiChart, e: Element)
    ensures RawScore(c, e) == STEM_WEIGHT * StemCount(PillarsOf(c), e) + BRANCH_WEIGHT * BranchCount(PillarsOf(c), e)
  {
    CountFour(c.year, c.month, c.day, c.hour, e);
  }

  /** The score table in declaration order, before sorting. */
  function Tally(c: BaZiChart): (t: seq<ElementScore>)
    ensures |t| == |ELEMENT_ORDER|
    ensures forall k :: 0 <= k < |t| ==> t[k] == Row(c, ELEMENT_ORDER[k])
    ensures forall x :: x in t ==> IsRow(c, x)
  {
    [Row(c, Metal), Row(c, Wood), Row(c, Water), Row(c, Fire), Row(c, Earth)]
  }

  /** The unsorted table has one row per element in the order 金木水火土;
      a row's score is 1.0 for each stem and 1.2 for each branch of its
      element among the four pillars, and its percent is its rounded share
      of the table's total. */
  lemma TallyCounts(c: BaZiChart, k: nat)
    requires k < |ELEMENT_ORDER|
    ensures Tally(c)[k].element == ELEMENT_ORDER[k]
    ensures Tally(c)[k].score
      == STEM_WEIGHT * StemCount(PillarsOf(c), ELEMENT_ORDER[k]) + BRANCH_WEIGHT * BranchCount(PillarsOf(c), ELEMENT_ORDER[k])
    ensures Tally(c)[k].percent == Percent(Tally(c)[k].score, SumScores(Tally(c)))
  {
    RawScoreCounts(c, ELEMENT_ORDER[k]);
    TallySum(c);
  }

  /** The order of the result: higher score first, ties in table order. */
  predicate Before(a: ElementScore, b: ElementScore)
  {
    a.score > b.score || (a.score == b.score && Rank(a.element) < Rank(b.element))
  }

  predicate SortedByScore(s: seq<ElementScore>)
  {
    forall i, j :: 0 <= i < j < |s| ==> Before(s[i], s[j])
  }

  function SumScores(s: seq<ElementScore>): nat
  {
    if |s| == 0 then 0 else s[0].score + SumScores(s[1..])
  }

  function SumPercents(s: seq<ElementScore>): int
  {
    if |s| == 0 then 0 else s[0].percent + SumPercents(s[1..])
  }

  /** All entries of s come after a. */
  predicate AllAfter(a: ElementScore, s: seq<ElementScore>)
  {
    forall j :: 0 <= j < |s| ==> Before(a, s[j])
  }

  /** One step of the stable sort: x goes after every entry of s scoring at
      least as much. */
  function Insert(x: ElementScore, s: seq<ElementScore>): seq<ElementScore>
  {
    if |s| == 0 then [x]
    else if s[0].score >= x.score then [s[0]] + Insert(x, s[1..])
    else [x] + s
  }

  /** Inserting adds exactly that entry, and adds its score and percent to
      the sums. */
  lemma {:induction false} InsertPermutes(x: ElementScore, s: seq<ElementScore>)
    ensures |Insert(x, s)| == |s| + 1
    ensures multiset(Insert(x, s)) == multiset(s) + multiset{x}
    ensures SumScores(Insert(x, s)) == SumScores(s) + x.score
    ensures SumPercents(Insert(x, s)) == SumPercents(s) + x.percent
  {
    if |s| > 0 && s[0].score >= x.score {
      InsertPermutes(x, s[1..]);
      assert s == [s[0]] + s[1..];
    }
  }

  /** Inserting an entry that is later in table order than everything in a
      sorted list keeps it sorted. */
  lemma {:induction false} InsertSorted(x: ElementScore, s: seq<ElementScore>)
    requires SortedByScore(s)
    requires forall i :: 0 <= i < |s| ==> Rank(s[i].element) < Rank(x.element)
    ensures forall a :: AllAfter(a, s) && Before(a, x) ==> AllAfter(a, Insert(x, s))
    ensures SortedByScore(Insert(x, s))
  {
    if |s| == 0 {
    } else if s[0].score >= x.score {
      var rest := Insert(x, s[1..]);
      InsertSorted(x, s[1..]);
      InsertPermutes(x, s[1..]);
      assert AllAfter(s[0], s[1..]);
      assert Before(s[0], x);
      assert AllAfter(s[0], rest);
      forall a | AllAfter(a, s) && Before(a, x)
        ensures AllAfter(a, Insert(x, s))
      {
        assert AllAfter(a, s[1..]);
      }
    } else {
      assert Before(x, s[0]);
      assert AllAfter(x, s);
    }
  }

  /** Strictly increasing table order, as in the unsorted score table. */
  predicate InTableOrder(s: seq<ElementScore>)
  {
    forall i, j :: 0 <= i < j < |s| ==> Rank(s[i].element) < Rank(s[j].element)
  }

  /** `Array.prototype.sort` with comparator `b.score - a.score`: a stable
      sort by descending score, written as an insertion sort. */
  function StableSort(s: seq<ElementScore>): seq<ElementScore>
  {
    if |s| == 0 then [] else Insert(s[|s| - 1], StableSort(s[..|s| - 1]))
  }

  /** Sorting rearranges the entries: same length, same entries. */
  lemma {:induction false} StableSortPermutes(s: seq<ElementScore>)
    ensures |StableSort(s)| == |s|
    ensures multiset(StableSort(s)) == multiset(s)
  {
    if |s| > 0 {
      var init, last := s[..|s| - 1], s[|s| - 1];
      StableSortPermutes(init);
      InsertPermutes(last, StableSort(init));
      assert s == init + [last];
      assert multiset(s) == multiset(init) + multiset{last};
    }
  }

  /** Sorting keeps the sums of the scores and of the percents. */
  lemma {:induction false} StableSortSums(s: seq<ElementScore>)
    ensures SumScores(StableSort(s)) == SumScores(s)
    ensures SumPercents(StableSort(s)) == SumPercents(s)
  {
    if |s| > 0 {
      var init, last := s[..|s| - 1], s[|s| - 1];
      StableSortSums(init);
      InsertPermutes(last, StableSort(init));
      assert s == init + [last];
      SumAppend(init, last);
    }
  }

  /** Sorting a list in table order yields a list ordered by descending
      score with ties in table order. */
  lemma {:induction false} StableSortSorted(s: seq<ElementScore>)
    requires InTableOrder(s)
    ensures SortedByScore(StableSort(s))
  {
    if |s| > 0 {
      var init, last := s[..|s| - 1], s[|s| - 1];
      var sorted := StableSort(init);
      StableSortSorted(init);
      StableSortPermutes(init);
      forall i | 0 <= i < |sorted|
        ensures Rank(sorted[i].element) < Rank(last.element)
      {
        assert sorted[i] in multiset(init);
        var k :| 0 <= k < |init| && init[k] == sorted[i];
        assert s[k] == init[k];
      }
      InsertSorted(last, sorted);
    }
  }

  lemma SumOfFive(s: seq<ElementScore>)
    requires |s| == 5
    ensures SumScores(s) == s[0].score + s[1].score + s[2].score + s[3].score + s[4].score
    ensures SumPercents(s) == s[0].percent + s[1].percent + s[2].percent + s[3].percent + s[4].percent
  {
    assert s[4..][1..] == [];
    assert SumScores(s[4..]) == s[4].score && SumPercents(s[4..]) == s[4].percent;
    assert s[3..][1..] == s[4..];
    assert SumScores(s[3..]) == s[3].score + SumScores(s[4..]);
    assert SumPercents(s[3..]) == s[3].percent + SumPercents(s[4..]);
    assert s[2..][1..] == s[3..];
    assert SumScores(s[2..]) == s[2].score + SumScores(s[3..]);
    assert SumPercents(s[2..]) == s[2].percent + SumPercents(s[3..]);
    assert s[1..][1..] == s[2..];
    assert SumScores(s[1..]) == s[1].score + SumScores(s[2..]);
    assert SumPercents(s[1..]) == s[1].percent + SumPercents(s[2..]);
  }

  lemma {:induction false} SumAppend(s: seq<ElementScore>, x: ElementScore)
    ensures SumScores(s + [x]) == SumScores(s) + x.score
    ensures SumPercents(s + [x]) == SumPercents(s) + x.percent
  {
    if |s| > 0 {
      assert (s + [x])[1..] == s[1..] + [x];
      SumAppend(s[1..], x);
    }
  }

  /** `calculateFiveElementsScore`: one row per element, ordered by
      non-increasing score with ties in the order 金木水火土, each row's score
      and percent those of the element in the tally. */
  function FiveElementsScore(c: BaZiChart): (r: seq<ElementScore>)
    ensures |r| == |ELEMENT_ORDER|
    ensures multiset(r) == multiset(Tally(c))
    ensures SortedByScore(r)
    ensures forall x :: x in r ==> x.score == RawScore(c, x.element) && x.percent == Percent(x.score, Total(c))
    ensures SumScores(r) == Total(c)
    ensures SumPercents(r) == SumPercents(Tally(c))
  {
    SortedTally(c);
    StableSort(Tally(c))
  }

  lemma TallySum(c: BaZiChart)
    ensures SumScores(Tally(c)) == Total(c)
  {
    var t := Tally(c);
    SumOfFive(t);
    assert t[0].score == RawScore(c, Metal) && t[1].score == RawScore(c, Wood) && t[2].score == RawScore(c, Water)
      && t[3].score == RawScore(c, Fire) && t[4].score == RawScore(c, Earth);
  }

  lemma PermutedRows(c: BaZiChart, t: seq<ElementScore>, r: seq<ElementScore>)
    requires multiset(r) == multiset(t)
    requires forall x :: x in t ==> IsRow(c, x)
    ensures forall x :: x in r ==> IsRow(c, x)
  {
    forall x | x in r
      ensures IsRow(c, x)
    {
      assert x in multiset(r);
    }
  }

  lemma SortedTally(c: BaZiChart)
    ensures |StableSort(Tally(c))| == |ELEMENT_ORDER|
    ensures multiset(StableSort(Tally(c))) == multiset(Tally(c))
    ensures SortedByScore(StableSort(Tally(c)))
    ensures SumScores(StableSort(Tally(c))) == Total(c)
    ensures SumPercents(StableSort(Tally(c))) == SumPercents(Tally(c))
    ensures forall x :: x in StableSort(Tally(c)) ==> IsRow(c, x)
  {
    TallyInOrder(c);
    TallySum(c);
    SortRows(c, Tally(c));
  }

  lemma TallyInOrder(c: BaZiChart)
    ensures InTableOrder(Tally(c))
  {
    var t := Tally(c);
    forall i, j | 0 <= i < j < |t|
      ensures Rank(t[i].element) < Rank(t[j].element)
    {
      assert t[i].element == ELEMENT_ORDER[i] && t[j].element == ELEMENT_ORDER[j];
    }
  }

  lemma SortRows(c: BaZiChart, t: seq<ElementScore>)
    requires InTableOrder(t)
    requires forall x :: x in t ==> IsRow(c, x)
    ensures |StableSort(t)| == |t|
    ensures multiset(StableSort(t)) == multiset(t)
    ensures SortedByScore(StableSort(t))
    ensures SumScores(StableSort(t)) == SumScores(t)
    ensures SumPercents(StableSort(t)) == SumPercents(t)
    ensures forall x :: x in StableSort(t) ==> IsRow(c, x)
  {
    StableSortSorted(t);
    StableSortPermutes(t);
    StableSortSums(t);
    PermutedRows(c, t, StableSort(t));
  }

  /** Every element appears exactly once in the distribution. */
  lemma OneRowPerElement(c: BaZiChart, e: Element)
    ensures exists i :: 0 <= i < |FiveElementsScore(c)| && FiveElementsScore(c)[i] == Row(c, e)
    ensures forall i, j :: 0 <= i < j < |FiveElementsScore(c)| ==>
      FiveElementsScore(c)[i].element != FiveElementsScore(c)[j].element
  {
    var r := FiveElementsScore(c);
    assert Tally(c)[Rank(e)] == Row(c, e);
    assert Row(c, e) in multiset(r);
    forall i, j | 0 <= i < j < |r|
      ensures r[i].element != r[j].element
    {
      assert r[i] in r && r[j] in r && Before(r[i], r[j]);
    }
  }

  /** Five whole percents, each within half a percent of its share of a
      positive total, add up to 100 give or take two. */
  lemma RoundedShares(n: int, s0: int, s1: int, s2: int, s3: int, s4: int,
                      p0: int, p1: int, p2: int, p3: int, p4: int)
    requires n > 0 && s0 + s1 + s2 + s3 + s4 == n
    requires 2 * n * p0 - n <= 200 * s0 < 2 * n * p0 + n
    requires 2 * n * p1 - n <= 200 * s1 < 2 * n * p1 + n
    requires 2 * n * p2 - n <= 200 * s2 < 2 * n * p2 + n
    requires 2 * n * p3 - n <= 200 * s3 < 2 * n * p3 + n
    requires 2 * n * p4 - n <= 200 * s4 < 2 * n * p4 + n
    ensures 98 <= p0 + p1 + p2 + p3 + p4 <= 102
  {
    var q := p0 + p1 + p2 + p3 + p4;
    var m := n * p0 + n * p1 + n * p2 + n * p3 + n * p4;
    assert 2 * n * p0 == 2 * (n * p0) && 2 * n * p1 == 2 * (n * p1) && 2 * n * p2 == 2 * (n * p2)
      && 2 * n * p3 == 2 * (n * p3) && 2 * n * p4 == 2 * (n * p4);
    assert 2 * m - 5 * n <= 200 * n < 2 * m + 5 * n;
    assert n * (2 * q) == 2 * m;
    MulMonotone(n, 195, 2 * q);
    MulMonotone(n, 2 * q, 206);
  }

  lemma PercentRows(n: int, t: seq<ElementScore>)
    requires n > 0 && |t| == 5 && SumScores(t) == n
    requires forall i :: 0 <= i < 5 ==> t[i].percent == Percent(t[i].score, n)
    ensures 98 <= SumPercents(t) <= 102
  {
    SumOfFive(t);
    RoundedShares(n, t[0].score, t[1].score, t[2].score, t[3].score, t[4].score,
      t[0].percent, t[1].percent, t[2].percent, t[3].percent, t[4].percent);
  }

  /** Percentages are rounded shares of the total: their sum is 100 up to the
      rounding of five entries, and all zero when nothing was scored. */
  lemma PercentSum(c: BaZiChart)
    ensures Total(c) == 0 ==> forall x :: x in FiveElementsScore(c) ==> x.percent == 0
    ensures Total(c) > 0 ==> 98 <= SumPercents(FiveElementsScore(c)) <= 102
  {
    if Total(c) > 0 {
      TallySum(c);
      PercentRows(Total(c), Tally(c));
    }
  }

  /** Each pillar's stem and branch together contribute 10 + 12 across the
      five elements when both characters are in the element tables. */
  lemma PillarContributes(p: Pillar)
    requires p.stem in STEM_ELEMENTS && p.branch in BRANCH_ELEMENTS
    ensures PillarScore(p, Metal) + PillarScore(p, Wood) + PillarScore(p, Water)
      + PillarScore(p, Fire) + PillarScore(p, Earth) == STEM_WEIGHT + BRANCH_WEIGHT
  {
  }

  /** A chart from the calculator always totals 8.8 (88 tenths). */
  lemma CalculatedChartTotal(t: SolarTime)
    requires ValidSolarTime(t)
    ensures Total(CalculateBaZi(t)) == 88
  {
    var c := CalculateBaZi(t);
    ElementTablesCover();
    PillarContributes(c.year);
    PillarContributes(c.month);
    PillarContributes(c.day);
    PillarContributes(c.hour);
  }
}
