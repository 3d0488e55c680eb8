/** The five elements, the `STEM_ELEMENTS` / `BRANCH_ELEMENTS` tables of
    `utils/astrologyUtils.ts`, and the generating cycle the pillar
    interpreter checks (木→火→土→金→水→木). */
module Elements {

  import opened Tables
  import opened Branches

  /** Declared in the order of the score table: 金, 木, 水, 火, 土. */
  datatype Element = Metal | Wood | Water | Fire | Earth

  function ElementChar(e: Element): string
  {
    match e
    case Metal => "金"
    case Wood => "木"
    case Water => "水"
    case Fire => "火"
    case Earth => "土"
  }

  lemma ElementCharInjective(a: Element, b: Element)
    ensures ElementChar(a) == ElementChar(b) <==> a == b
  {
  }

  const STEM_ELEMENTS: map<string, Element> := map[
    "甲" := Wood, "乙" := Wood, "丙" := Fire, "丁" := Fire, "戊" := Earth,
    "己" := Earth, "庚" := Metal, "辛" := Metal, "壬" := Water, "癸" := Water
  ]

  const BRANCH_ELEMENTS: map<string, Element> := map[
    "寅" := Wood, "卯" := Wood, "巳" := Fire, "午" := Fire, "辰" := Earth, "戌" := Earth,
    "丑" := Earth, "未" := Earth, "申" := Metal, "酉" := Metal, "亥" := Water, "子" := Water
  ]

  /** The element tables are keyed by exactly the stem and branch characters,
      so every stem and every branch has an element. */
  lemma ElementTablesCover()
    ensures forall k :: k in STEM_ELEMENTS <==> k in HEAVENLY_STEMS
    ensures forall k :: k in BRANCH_ELEMENTS <==> k in EARTHLY_BRANCHES
  {
  }

  function StemElement(s: StemIndex): (e: Element)
  {
    ElementTablesCover();
    STEM_ELEMENTS[HEAVENLY_STEMS[s]]
  }

  function BranchElement(b: BranchIndex): (e: Element)
  {
    ElementTablesCover();
    BRANCH_ELEMENTS[EARTHLY_BRANCHES[b]]
  }

  /** Wood produces Fire, Fire Earth, Earth Metal, Metal Water, Water Wood. */
  function Produces(e: Element): Element
  {
    match e
    case Wood => Fire
    case Fire => Earth
    case Earth => Metal
    case Metal => Water
    case Water => Wood
  }

  predicate Generates(a: Element, b: Element)
  {
    Produces(a) == b
  }

  /** The overcoming cycle: Wood over Earth, Earth over Water, Water over Fire,
      Fire over Metal, Metal over Wood. */
  predicate Overcomes(a: Element, b: Element)
  {
    match a
    case Wood => b == Earth
    case Earth => b == Water
    case Water => b == Fire
    case Fire => b == Metal
    case Metal => b == Wood
  }

  /** The cycle as the source writes it: two-character strings, stem element first. */
  const GENERATING_PAIRS: seq<string> := ["木火", "火土", "土金", "金水", "水木"]

  /** Membership of the concatenated element characters in the source's pair
      list is exactly the generating relation. */
  lemma GeneratingPairsMatch(a: Element, b: Element)
    ensures ElementChar(a) + ElementChar(b) in GENERATING_PAIRS <==> Generates(a, b)
  {
    match a
    case Wood => PairsFrom(a, b, "木");
    case Fire => PairsFrom(a, b, "火");
    case Earth => PairsFrom(a, b, "土");
    case Metal => PairsFrom(a, b, "金");
    case Water => PairsFrom(a, b, "水");
  }

  /** The pairs that start with one element's character: exactly the one
      naming the element it produces. */
  lemma PairsFrom(a: Element, b: Element, c: string)
    requires ElementChar(a) == c
    ensures ElementChar(a) + ElementChar(b) in GENERATING_PAIRS <==> Generates(a, b)
  {
    var s := ElementChar(a) + ElementChar(b);
    assert |s| == 2 && s[0] == c[0] && s[1..] == ElementChar(b);
    if s in GENERATING_PAIRS {
      var k :| 0 <= k < |GENERATING_PAIRS| && GENERATING_PAIRS[k] == s;
      assert GENERATING_PAIRS[k][1..] == ElementChar(b);
      ElementCharInjective(b, Produces(a));
    }
    if Generates(a, b) {
      assert s == GENERATING_PAIRS[match a case Wood => 0 case Fire => 1 case Earth => 2 case Metal => 3 case Water => 4];
    }
  }

  /** Two distinct elements stand in exactly one of four relations: one
      generates the other (either way) or one overcomes the other (either way). */
  lemma FourRelationsPartition(a: Element, b: Element)
    requires a != b
    ensures Generates(a, b) || Generates(b, a) || Overcomes(a, b) || Overcomes(b, a)
    ensures !(Generates(a, b) && Generates(b, a))
    ensures !((Generates(a, b) || Generates(b, a)) && (Overcomes(a, b) || Overcomes(b, a)))
    ensures !(Overcomes(a, b) && Overcomes(b, a))
  {
  }

  /** The stems come in Yang/Yin pairs that walk the generating cycle from
      Wood: 甲乙 Wood, 丙丁 Fire, 戊己 Earth, 庚辛 Metal, 壬癸 Water. */
  lemma StemElementsFollowCycle(s: StemIndex)
    ensures StemElement(s) == StemElement(s - s % 2)
    ensures s == 0 ==> StemElement(s) == Wood
    ensures s < 8 ==> Generates(StemElement(s), StemElement(s - s % 2 + 2))
  {
  }

  /** The branches' elements: the four "storage" branches 丑辰未戌 are Earth;
      each other element holds two adjacent branches. */
  lemma BranchElementCounts(b: BranchIndex)
    ensures BranchElement(b) == Earth <==> b % 3 == 1
    ensures BranchElement(b) == Wood <==> b == 2 || b == 3
    ensures BranchElement(b) == Fire <==> b == 5 || b == 6
    ensures BranchElement(b) == Metal <==> b == 8 || b == 9
    ensures BranchElement(b) == Water <==> b == 11 || b == 0
  {
  }
}
