/** The interpretation generator of `utils/astrologyUtils.ts`: the reading of
    a star in a palace (`getSpecificStarInterpretation`) and the reading of a
    four-pillar column (`getPillarDetailedMeaning`). Both are fixed
    string templates; the model keeps their exact text. */
module Interpretation {

  import opened Wrappers
  import opened JsString
  import opened Tables
  import opened Elements
  import opened BaZi

  /** `【star星】`, the opening of every star reading. */
  function StarTag(star: string): string
  {
    "【" + star + "星】"
  }

  /** The position of the first group that holds star, or |groups| when none
      does: the `if / else if` chain of `includes` tests. */
  function FirstGroup(groups: seq<seq<string>>, star: string): (k: nat)
    ensures k <= |groups|
    ensures k < |groups| ==> star in groups[k]
    ensures forall j :: 0 <= j < k ==> star !in groups[j]
    decreases |groups|
  {
    if |groups| == 0 then 0
    else if star in groups[0] then 0
    else 1 + FirstGroup(groups[1..], star)
  }

  const LIFE_GROUPS: seq<seq<string>> := [
    ["紫微", "天府", "太陽", "太陰"], ["武曲", "七殺", "破軍", "貪狼"],
    ["天機", "天同", "天梁", "天相"], ["巨門", "廉貞"]]

  const LIFE_PARAGRAPHS: seq<string> := ["這是一顆領導型或貴氣型的星曜，意味著您自尊心強，有宏觀視野，不喜歡被拘束。在人群中往往不怒自威，容易成為核心人物。但需注意有時是否過於主觀或清高。", "這是一顆開創型或行動力強的星曜。您性格剛毅果決，喜歡冒險和挑戰，不滿足於現狀。人生軌跡往往起伏較大，屬於「富貴險中求」的類型。", "這是一顆輔佐型或智慧型的星曜。您心思細膩，擅長思考與策劃，待人處事較為圓融。比起衝鋒陷陣，您更適合運籌帷幄或從事專業技術領域。", "這是一顆個性鮮明且複雜的星曜。您觀察力敏銳，具有批判精神或獨特的魅力。口才佳或社交手腕靈活，但也容易因直言或情緒多變而招惹是非。"]

  const SPOUSE_GROUPS: seq<seq<string>> := [
    ["紫微", "太陽", "天府", "武曲"], ["天機", "太陰", "天同", "天相"],
    ["貪狼", "廉貞", "七殺", "破軍"]]

  const SPOUSE_PARAGRAPHS: seq<string> := ["**配偶特質**：您的另一半通常能力出眾，個性獨立甚至強勢，在事業上多有所成。您欣賞強者，但相處時易有「誰說了算」的爭執。建議多包容對方的事業心。", "**配偶特質**：您的另一半多半溫柔體貼，或外貌清秀斯文。感情相處較注重精神層面的交流與生活情趣。對方可能比較依賴您，或需要您的呵護。", "**感情運勢**：這是一組變動較大的星曜。代表您的感情生活豐富精彩，配偶個性剛烈或極具魅力（桃花旺）。相處模式較為激烈，需防爭吵或第三者介入，晚婚或聚少離多較佳。"]

  const WEALTH_GROUPS: seq<seq<string>> := [
    ["武曲", "太陰", "天府", "祿存"], ["貪狼", "破軍", "七殺"], ["紫微", "太陽", "天梁"]]

  const WEALTH_PARAGRAPHS: seq<string> := ["**財運分析**：大吉。此乃正財星入庫，代表您天生對金錢敏感，善於理財與積蓄。財源穩定，且具有聚財能力，適合經商或金融投資，晚年財庫豐盈。", "**財運分析**：主偏財或橫財。您的財運帶有投機或波動性質，敢於冒險投資，有機會一夜致富，但也容易大進大出。建議見好就收，避免過度貪婪。", "**財運分析**：名大於利。您的財富多半伴隨著聲望或地位而來。適合從事公職、管理或專業顧問，先求名聲響亮，財富自然會隨之而來。"]

  const CAREER_GROUPS: seq<seq<string>> := [
    ["紫微", "太陽", "天相", "廉貞"], ["武曲", "七殺", "破軍"], ["文昌", "文曲", "天機", "太陰"]]

  const CAREER_PARAGRAPHS: seq<string> := ["**事業方向**：您具有領袖氣質，適合從事管理、行政、政治或公共關係等工作。在組織中容易獲得提拔，擔任主管職務。", "**事業方向**：您適合軍警、工程、重工業或外勤業務等需要開創力與執行力的工作。創業成功的機率也很高，屬於實幹型人才。", "**事業方向**：您適合從事學術研究、教育、設計、藝術或企劃等需要動腦與創意的行業。您的才華是您在職場上最大的武器。"]

  /** The paragraph of the first matching group, or the fallback. */
  function GroupParagraph(groups: seq<seq<string>>, paragraphs: seq<string>, star: string, fallback: string): string
    requires |groups| == |paragraphs|
  {
    var k := FirstGroup(groups, star);
    if k < |paragraphs| then paragraphs[k] else fallback
  }

  /** Life Palace (命宮): element and description, then the group paragraph;
      a star in no group gets no paragraph. */
  function LifeBody(star: string, info: StarInfo): string
  {
    LifeIntro(star, info) + GroupParagraph(LIFE_GROUPS, LIFE_PARAGRAPHS, star, "")
  }

  function LifeIntro(star: string, info: StarInfo): string
  {
    star + "五行屬" + info.element + "，" + info.description + "。\n\n"
    + "**性格特質**：您天生具有" + star + "的能量氣場。"
  }

  /** Spouse Palace (夫妻); the fallback quotes the second clause of the
      star's description. */
  function SpouseBody(star: string, info: StarInfo): string
  {
    SPOUSE_INTRO + GroupParagraph(SPOUSE_GROUPS, SPOUSE_PARAGRAPHS, star, SpouseFallback(star, info))
  }

  const SPOUSE_INTRO := "象徵您對感情的態度及配偶的特質。\n\n"

  function SpouseFallback(star: string, info: StarInfo): string
  {
    "**感情運勢**：配偶可能帶有" + star + "星的特質，" + Show(Field(info.description, '，', 1))
    + "。雙方緣分深厚，但相處細節需視星曜廟陷而定。"
  }

  /** Wealth Palace (財帛); the fallback quotes the first four characters of
      the star's description. */
  function WealthBody(star: string, info: StarInfo): string
  {
    WEALTH_INTRO + GroupParagraph(WEALTH_GROUPS, WEALTH_PARAGRAPHS, star, WealthFallback(info))
  }

  const WEALTH_INTRO := "主宰您的理財觀念與財富來源。\n\n"

  function WealthFallback(info: StarInfo): string
  {
    "**財運分析**：您的賺錢模式傾向於靠" + Prefix(info.description, 4)
    + "，財運平穩，需靠專業技能或辛勤工作來累積財富。"
  }

  /** Career Palace (官祿); the fallback quotes the second clause of the
      star's description. */
  function CareerBody(star: string, info: StarInfo): string
  {
    CAREER_INTRO + GroupParagraph(CAREER_GROUPS, CAREER_PARAGRAPHS, star, CareerFallback(star, info))
  }

  const CAREER_INTRO := "反映您的職場表現與適合行業。\n\n"

  function CareerFallback(star: string, info: StarInfo): string
  {
    "**事業方向**：工作風格受" + star + "星影響，表現為" + Show(Field(info.description, '，', 1))
    + "，適合穩定的行政職或專業技術職。"
  }

  /** Every other palace name, known or not: the domain is named only when it
      is one of the twelve roles, and the first clause of the description is
      quoted. */
  function GeneralBody(star: string, palaceName: string, info: StarInfo): string
  {
    "\n\n**宮位影響**：此宮位代表您人生中的"
    + (if IndexOf(PALACE_NAMES, palaceName) >= 0 then palaceName else "該領域")
    + "面向。" + star + "星在此，意味著您在處理這方面事務時，態度會傾向於「"
    + Show(Field(info.description, '，', 0))
    + "」。\n\n**大師點評**：星曜入宮顯示吉凶，但更需看三方四正的會照。若有吉星（如文昌、左輔）相佐，則"
    + star + "星的優點更易發揮；若遇煞星（如擎羊、火星），則需防範" + star + "星負面特質的顯現。"
  }

  /** The four palaces with a template of their own. */
  const TEMPLATE_PALACES: set<string> := {"命宮", "夫妻", "財帛", "官祿"}

  /** The words that follow the star's tag, chosen by palace name. */
  function Opening(palaceName: string): string
  {
    if palaceName == "命宮" then "坐守命宮。"
    else if palaceName == "夫妻" then "入夫妻宮。"
    else if palaceName == "財帛" then "鎮守財帛宮。"
    else if palaceName == "官祿" then "坐守官祿宮。"
    else "在" + palaceName + "。"
  }

  /** The rest of the palace's template. */
  function PalaceBody(star: string, palaceName: string, info: StarInfo): string
  {
    if palaceName == "命宮" then LifeBody(star, info)
    else if palaceName == "夫妻" then SpouseBody(star, info)
    else if palaceName == "財帛" then WealthBody(star, info)
    else if palaceName == "官祿" then CareerBody(star, info)
    else GeneralBody(star, palaceName, info)
  }

  /** `getSpecificStarInterpretation`: empty for a star without a dictionary
      entry, otherwise the star's tag followed by the palace's template. */
  function StarInterpretation(star: string, palaceName: string): (r: string)
    ensures r == "" <==> star !in STAR_INFO_MAP
    ensures star in STAR_INFO_MAP ==> StarTag(star) <= r
  {
    if star !in STAR_INFO_MAP then ""
    else StarTag(star) + (Opening(palaceName) + PalaceBody(star, palaceName, STAR_INFO_MAP[star]))
  }

  /** s ends with suffix. */
  predicate EndsWith(s: string, suffix: string)
  {
    |suffix| <= |s| && s[|s| - |suffix|..] == suffix
  }

  lemma EndsWithNested(a: string, b: string, c: string, d: string)
    ensures EndsWith(a + (b + (c + d)), d)
  {
    assert a + (b + (c + d)) == (a + b + c) + d;
  }

  /** The first and third characters of the opening tell which template
      was used: 坐守命宮, 入夫妻宮, 鎮守財帛宮, 坐守官祿宮, or 在 followed by
      the palace name for any other palace. */
  lemma OpeningKey(palaceName: string)
    ensures var o := Opening(palaceName);
      |o| >= 2
      && (palaceName == "命宮" <==> |o| > 2 && o[0] == '坐' && o[2] == '命')
      && (palaceName == "夫妻" <==> o[0] == '入')
      && (palaceName == "財帛" <==> o[0] == '鎮')
      && (palaceName == "官祿" <==> |o| > 2 && o[0] == '坐' && o[2] == '官')
      && (palaceName !in TEMPLATE_PALACES <==> o[0] == '在')
  {
  }

  /** The reading of a known star names the palace it was written for:
      after the tag, 坐守命宮 marks exactly the Life Palace, 入夫妻宮 the
      Spouse Palace, 鎮守財帛宮 the Wealth Palace and 坐守官祿宮 the Career
      Palace, while every other palace gets 在 followed by its name. */
  lemma PalaceDispatch(star: string, palaceName: string)
    requires star in STAR_INFO_MAP
    ensures var r := StarInterpretation(star, palaceName); var tag := StarTag(star);
      tag + Opening(palaceName) <= r
      && (tag + "坐守命宮。" <= r <==> palaceName == "命宮")
      && (tag + "入夫妻宮。" <= r <==> palaceName == "夫妻")
      && (tag + "鎮守財帛宮。" <= r <==> palaceName == "財帛")
      && (tag + "坐守官祿宮。" <= r <==> palaceName == "官祿")
      && (palaceName !in TEMPLATE_PALACES ==> tag + "在" + palaceName + "。" <= r)
      && |r| > |tag| && (r[|tag|] == '在' <==> palaceName !in TEMPLATE_PALACES)
  {
    var body := PalaceBody(star, palaceName, STAR_INFO_MAP[star]);
    assert StarInterpretation(star, palaceName) == StarTag(star) + (Opening(palaceName) + body);
    DispatchFromOpening(StarTag(star), palaceName, body);
  }

  /** The dispatch facts for any text made of a tag, the palace's opening
      and a body. */
  lemma DispatchFromOpening(tag: string, palaceName: string, body: string)
    ensures var r := tag + (Opening(palaceName) + body);
      tag + Opening(palaceName) <= r
      && (tag + "坐守命宮。" <= r <==> palaceName == "命宮")
      && (tag + "入夫妻宮。" <= r <==> palaceName == "夫妻")
      && (tag + "鎮守財帛宮。" <= r <==> palaceName == "財帛")
      && (tag + "坐守官祿宮。" <= r <==> palaceName == "官祿")
      && (palaceName !in TEMPLATE_PALACES ==> tag + "在" + palaceName + "。" <= r)
      && |r| > |tag| && (r[|tag|] == '在' <==> palaceName !in TEMPLATE_PALACES)
  {
    var o := Opening(palaceName);
    var t := o + body;
    OpeningKey(palaceName);
    HeadPrefix(tag, o, t);
    HeadKey(tag, "坐守命宮。", o, t);
    HeadKey(tag, "入夫妻宮。", o, t);
    HeadKey(tag, "鎮守財帛宮。", o, t);
    HeadKey(tag, "坐守官祿宮。", o, t);
    if palaceName !in TEMPLATE_PALACES {
      assert tag + "在" + palaceName + "。" == tag + o;
    }
    assert (tag + t)[|tag|] == o[0];
  }

  /** A head h can open tag + t, where t starts with the opening o, only if
      h agrees with o in the characters they both have. */
  lemma HeadKey(tag: string, h: string, o: string, t: string)
    requires o <= t && |h| > 2 && |o| >= 2
    ensures tag + h <= tag + t ==> h[0] == o[0] && (|o| > 2 ==> h[2] == o[2])
    ensures h == o ==> tag + h <= tag + t
  {
    HeadPrefix(tag, h, t);
  }

  /** tag + h opens tag + t exactly when h opens t. */
  lemma HeadPrefix(tag: string, h: string, t: string)
    ensures tag + h <= tag + t <==> h <= t
  {
    if tag + h <= tag + t {
      assert (tag + h)[|tag|..] == h;
      assert (tag + t)[|tag|..|tag| + |h|] == t[..|h|];
    }
  }

  /** No star belongs to two groups of one palace, so the order of the
      `includes` tests does not matter. */
  predicate DisjointGroups(groups: seq<seq<string>>)
  {
    forall i, j :: 0 <= i < j < |groups| ==> forall s :: s in groups[i] ==> s !in groups[j]
  }

  lemma TemplateGroupsDisjoint()
    ensures DisjointGroups(LIFE_GROUPS) && DisjointGroups(SPOUSE_GROUPS)
    ensures DisjointGroups(WEALTH_GROUPS) && DisjointGroups(CAREER_GROUPS)
  {
    LifeGroupsDisjoint();
    SpouseGroupsDisjoint();
    WealthGroupsDisjoint();
    CareerGroupsDisjoint();
  }

  lemma LifeGroupsDisjoint()
    ensures DisjointGroups(LIFE_GROUPS)
  {
  }

  lemma SpouseGroupsDisjoint()
    ensures DisjointGroups(SPOUSE_GROUPS)
  {
  }

  lemma WealthGroupsDisjoint()
    ensures DisjointGroups(WEALTH_GROUPS)
  {
  }

  lemma CareerGroupsDisjoint()
    ensures DisjointGroups(CAREER_GROUPS)
  {
  }

  predicate InNone(groups: seq<seq<string>>, star: string)
  {
    forall j :: 0 <= j < |groups| ==> star !in groups[j]
  }

  /** The chain falls through to its fallback exactly when no group holds
      the star. */
  lemma NoGroup(groups: seq<seq<string>>, star: string)
    ensures FirstGroup(groups, star) == |groups| <==> InNone(groups, star)
  {
  }

  /** With disjoint groups the first match is the only match. */
  lemma OnlyMatch(groups: seq<seq<string>>, star: string, k: nat)
    requires DisjointGroups(groups) && k < |groups|
    ensures FirstGroup(groups, star) == k <==> star in groups[k]
  {
  }

  /** The Life Palace groups partition the fourteen major stars: they hold
      only major stars, no star twice, and every major star is in one. */
  lemma LifeGroupsPartitionMajors()
    ensures DisjointGroups(LIFE_GROUPS)
    ensures forall k, s :: 0 <= k < |LIFE_GROUPS| && s in LIFE_GROUPS[k] ==> s in MAJOR_STARS
    ensures forall i :: 0 <= i < |MAJOR_STARS| ==> !InNone(LIFE_GROUPS, MAJOR_STARS[i])
  {
    LifeGroupsDisjoint();
    LifeGroupsByIndex();
    var m := MAJOR_STARS;
    forall k, s | 0 <= k < |LIFE_GROUPS| && s in LIFE_GROUPS[k]
      ensures s in MAJOR_STARS
    {
      var x :| 0 <= x < |LIFE_GROUPS[k]| && LIFE_GROUPS[k][x] == s;
      assert s in m;
    }
    forall i | 0 <= i < |MAJOR_STARS|
      ensures !InNone(LIFE_GROUPS, MAJOR_STARS[i])
    {
      LifeGroupOfMajor(i);
      NoGroup(LIFE_GROUPS, MAJOR_STARS[i]);
    }
  }

  /** In the Life Palace every major star gets a group paragraph and no
      minor star does. */
  lemma LifeGroupsCoverMajors()
    ensures forall i :: 0 <= i < |MAJOR_STARS| ==> FirstGroup(LIFE_GROUPS, MAJOR_STARS[i]) < |LIFE_GROUPS|
    ensures forall j :: 0 <= j < |MINOR_STARS_POOL| ==> FirstGroup(LIFE_GROUPS, MINOR_STARS_POOL[j]) == |LIFE_GROUPS|
  {
    forall i | 0 <= i < |MAJOR_STARS|
      ensures FirstGroup(LIFE_GROUPS, MAJOR_STARS[i]) < |LIFE_GROUPS|
    {
      LifeGroupOfMajor(i);
    }
    forall j | 0 <= j < |MINOR_STARS_POOL|
      ensures FirstGroup(LIFE_GROUPS, MINOR_STARS_POOL[j]) == |LIFE_GROUPS|
    {
      LifeGroupOfMinor(j);
    }
  }

  lemma LifeGroupOfMajor(i: nat)
    requires i < |MAJOR_STARS|
    ensures FirstGroup(LIFE_GROUPS, MAJOR_STARS[i]) < |LIFE_GROUPS|
  {
    var s := MAJOR_STARS[i];
    NoGroup(LIFE_GROUPS, s);
    assert s in LIFE_GROUPS[0] + LIFE_GROUPS[1] + LIFE_GROUPS[2] + LIFE_GROUPS[3];
  }

  lemma LifeGroupOfMinor(j: nat)
    requires j < |MINOR_STARS_POOL|
    ensures FirstGroup(LIFE_GROUPS, MINOR_STARS_POOL[j]) == |LIFE_GROUPS|
  {
    var s := MINOR_STARS_POOL[j];
    NoGroup(LIFE_GROUPS, s);
    StarPools();
    LifeGroupsByIndex();
  }

  /** The Life Palace groups as positions in the major-star table. */
  lemma LifeGroupsByIndex()
    ensures var m := MAJOR_STARS;
      LIFE_GROUPS == [[m[0], m[6], m[2], m[7]], [m[3], m[12], m[13], m[8]], [m[1], m[4], m[11], m[10]], [m[9], m[5]]]
  {
  }

  /** The major stars that fall through to the fallback sentence: 巨門 and
      天梁 in the Spouse Palace, 天機, 天同, 廉貞, 巨門 and 天相 in the Wealth
      Palace, and 天府, 天同, 貪狼, 巨門 and 天梁 in the Career Palace. */
  lemma SpouseFallbackMajors(i: nat)
    requires i < |MAJOR_STARS|
    ensures FirstGroup(SPOUSE_GROUPS, MAJOR_STARS[i]) == |SPOUSE_GROUPS| <==> MAJOR_STARS[i] in {"巨門", "天梁"}
  {
    var s := MAJOR_STARS[i];
    NoGroup(SPOUSE_GROUPS, s);
    assert InNone(SPOUSE_GROUPS, s) <==> s !in SPOUSE_GROUPS[0] && s !in SPOUSE_GROUPS[1] && s !in SPOUSE_GROUPS[2];
  }

  lemma WealthFallbackMajors(i: nat)
    requires i < |MAJOR_STARS|
    ensures FirstGroup(WEALTH_GROUPS, MAJOR_STARS[i]) == |WEALTH_GROUPS|
      <==> MAJOR_STARS[i] in {"天機", "天同", "廉貞", "巨門", "天相"}
  {
    var s := MAJOR_STARS[i];
    NoGroup(WEALTH_GROUPS, s);
    assert InNone(WEALTH_GROUPS, s) <==> s !in WEALTH_GROUPS[0] && s !in WEALTH_GROUPS[1] && s !in WEALTH_GROUPS[2];
  }

  lemma CareerFallbackMajors(i: nat)
    requires i < |MAJOR_STARS|
    ensures FirstGroup(CAREER_GROUPS, MAJOR_STARS[i]) == |CAREER_GROUPS|
      <==> MAJOR_STARS[i] in {"天府", "天同", "貪狼", "巨門", "天梁"}
  {
    var s := MAJOR_STARS[i];
    NoGroup(CAREER_GROUPS, s);
    assert InNone(CAREER_GROUPS, s) <==> s !in CAREER_GROUPS[0] && s !in CAREER_GROUPS[1] && s !in CAREER_GROUPS[2];
  }

  /** With disjoint groups the paragraph of any group holding the star is
      the one chosen, and the fallback is chosen when none holds it. */
  lemma GroupChoice(groups: seq<seq<string>>, paragraphs: seq<string>, star: string, fallback: string, k: nat)
    requires |groups| == |paragraphs| && DisjointGroups(groups)
    ensures k < |groups| && star in groups[k] ==> GroupParagraph(groups, paragraphs, star, fallback) == paragraphs[k]
    ensures InNone(groups, star) ==> GroupParagraph(groups, paragraphs, star, fallback) == fallback
  {
    if k < |groups| {
      OnlyMatch(groups, star, k);
    }
    NoGroup(groups, star);
  }

  /** A template made of a tag, an opening, an introduction and the group
      paragraph ends with the chosen paragraph or with the fallback. */
  lemma TemplateEnds(tag: string, o: string, intro: string, groups: seq<seq<string>>, paragraphs: seq<string>,
                     star: string, fallback: string, k: nat)
    requires |groups| == |paragraphs| && DisjointGroups(groups)
    ensures var r := tag + (o + (intro + GroupParagraph(groups, paragraphs, star, fallback)));
      (k < |groups| && star in groups[k] ==> EndsWith(r, paragraphs[k]))
      && (InNone(groups, star) ==> EndsWith(r, fallback))
  {
    GroupChoice(groups, paragraphs, star, fallback, k);
    EndsWithNested(tag, o, intro, GroupParagraph(groups, paragraphs, star, fallback));
  }

  /** The Life Palace reading of a known star ends with the paragraph of its
      group, or with the sentence on the star's energy when it is in none. */
  lemma LifeParagraph(star: string, k: nat)
    requires star in STAR_INFO_MAP
    ensures k < |LIFE_GROUPS| && star in LIFE_GROUPS[k] ==> EndsWith(StarInterpretation(star, "命宮"), LIFE_PARAGRAPHS[k])
    ensures InNone(LIFE_GROUPS, star) ==> EndsWith(StarInterpretation(star, "命宮"), "的能量氣場。")
  {
    var info := STAR_INFO_MAP[star];
    var g := GroupParagraph(LIFE_GROUPS, LIFE_PARAGRAPHS, star, "");
    LifeGroupsDisjoint();
    var intro := LifeIntro(star, info);
    assert StarInterpretation(star, "命宮") == StarTag(star) + ("坐守命宮。" + (intro + g));
    TemplateEnds(StarTag(star), "坐守命宮。", intro, LIFE_GROUPS, LIFE_PARAGRAPHS, star, "", k);
    if InNone(LIFE_GROUPS, star) {
      GroupChoice(LIFE_GROUPS, LIFE_PARAGRAPHS, star, "", k);
      LifeIntroEnds(star, info);
      EndsWithTrans(StarInterpretation(star, "命宮"), intro, "的能量氣場。");
    }
  }

  lemma LifeIntroEnds(star: string, info: StarInfo)
    ensures EndsWith(LifeIntro(star, info), "的能量氣場。")
  {
  }

  /** A text ending with s ends with every suffix of s. */
  lemma EndsWithTrans(r: string, s: string, t: string)
    requires EndsWith(r, s) && EndsWith(s, t)
    ensures EndsWith(r, t)
  {
    assert r[|r| - |t|..] == r[|r| - |s|..][|s| - |t|..];
  }

  /** The second clause the Spouse and Career fallbacks quote exists, so
      it is printed as it is and never as "undefined". */
  lemma QuotedSecondClause(star: string)
    requires star in STAR_INFO_MAP
    ensures Field(STAR_INFO_MAP[star].description, '，', 1).Some?
    ensures Show(Field(STAR_INFO_MAP[star].description, '，', 1)) == Field(STAR_INFO_MAP[star].description, '，', 1).value
  {
    QuotedFieldsExist(star);
  }

  /** The Spouse Palace reading of a known star ends with the paragraph of
      its group, or, in no group, with the fallback sentence quoting the
      description's second clause, which always exists. */
  lemma SpouseParagraph(star: string, k: nat)
    requires star in STAR_INFO_MAP
    ensures k < |SPOUSE_GROUPS| && star in SPOUSE_GROUPS[k] ==> EndsWith(StarInterpretation(star, "夫妻"), SPOUSE_PARAGRAPHS[k])
    ensures Field(STAR_INFO_MAP[star].description, '，', 1).Some?
    ensures InNone(SPOUSE_GROUPS, star) ==> EndsWith(StarInterpretation(star, "夫妻"),
      "**感情運勢**：配偶可能帶有" + star + "星的特質，" + Field(STAR_INFO_MAP[star].description, '，', 1).value
      + "。雙方緣分深厚，但相處細節需視星曜廟陷而定。")
  {
    var info := STAR_INFO_MAP[star];
    var fb := SpouseFallback(star, info);
    var g := GroupParagraph(SPOUSE_GROUPS, SPOUSE_PARAGRAPHS, star, fb);
    SpouseGroupsDisjoint();
    QuotedSecondClause(star);
    assert StarInterpretation(star, "夫妻") == StarTag(star) + ("入夫妻宮。" + (SPOUSE_INTRO + g));
    TemplateEnds(StarTag(star), "入夫妻宮。", SPOUSE_INTRO, SPOUSE_GROUPS, SPOUSE_PARAGRAPHS, star, fb, k);
  }

  /** The Wealth Palace reading of a known star ends with the paragraph of
      its group, or, in no group, with the fallback sentence quoting the
      description's first four characters. */
  lemma WealthParagraph(star: string, k: nat)
    requires star in STAR_INFO_MAP
    ensures k < |WEALTH_GROUPS| && star in WEALTH_GROUPS[k] ==> EndsWith(StarInterpretation(star, "財帛"), WEALTH_PARAGRAPHS[k])
    ensures InNone(WEALTH_GROUPS, star) ==> EndsWith(StarInterpretation(star, "財帛"),
      "**財運分析**：您的賺錢模式傾向於靠" + Prefix(STAR_INFO_MAP[star].description, 4)
      + "，財運平穩，需靠專業技能或辛勤工作來累積財富。")
  {
    var info := STAR_INFO_MAP[star];
    var fb := WealthFallback(info);
    var g := GroupParagraph(WEALTH_GROUPS, WEALTH_PARAGRAPHS, star, fb);
    WealthGroupsDisjoint();
    assert StarInterpretation(star, "財帛") == StarTag(star) + ("鎮守財帛宮。" + (WEALTH_INTRO + g));
    TemplateEnds(StarTag(star), "鎮守財帛宮。", WEALTH_INTRO, WEALTH_GROUPS, WEALTH_PARAGRAPHS, star, fb, k);
  }

  /** The Career Palace reading of a known star ends with the paragraph of
      its group, or, in no group, with the fallback sentence quoting the
      description's second clause, which always exists. */
  lemma CareerParagraph(star: string, k: nat)
    requires star in STAR_INFO_MAP
    ensures k < |CAREER_GROUPS| && star in CAREER_GROUPS[k] ==> EndsWith(StarInterpretation(star, "官祿"), CAREER_PARAGRAPHS[k])
    ensures Field(STAR_INFO_MAP[star].description, '，', 1).Some?
    ensures InNone(CAREER_GROUPS, star) ==> EndsWith(StarInterpretation(star, "官祿"),
      "**事業方向**：工作風格受" + star + "星影響，表現為" + Field(STAR_INFO_MAP[star].description, '，', 1).value
      + "，適合穩定的行政職或專業技術職。")
  {
    var info := STAR_INFO_MAP[star];
    var fb := CareerFallback(star, info);
    var g := GroupParagraph(CAREER_GROUPS, CAREER_PARAGRAPHS, star, fb);
    CareerGroupsDisjoint();
    QuotedSecondClause(star);
    assert StarInterpretation(star, "官祿") == StarTag(star) + ("坐守官祿宮。" + (CAREER_INTRO + g));
    TemplateEnds(StarTag(star), "坐守官祿宮。", CAREER_INTRO, CAREER_GROUPS, CAREER_PARAGRAPHS, star, fb, k);
  }

  /** 祿存 is listed in a Wealth group but has no dictionary entry, so its
      reading is empty in every palace and that list entry never applies. */
  lemma UnlistedWealthStar(palaceName: string)
    ensures "祿存" in WEALTH_GROUPS[0]
    ensures StarInterpretation("祿存", palaceName) == ""
  {
    UnknownStar();
  }

  /** The description fields the templates quote always exist, so no
      reading of a known star prints "undefined" for them. */
  lemma QuotedFieldsExist(star: string)
    requires star in STAR_INFO_MAP
    ensures Field(STAR_INFO_MAP[star].description, '，', 0).Some?
    ensures Field(STAR_INFO_MAP[star].description, '，', 1).Some?
  {
    DescriptionsHaveComma();
    SplitHasSecondField(STAR_INFO_MAP[star].description, '，');
  }

  /** Readings of two different known stars differ, whatever the palaces:
      the star's name sits right after the opening bracket. */
  lemma ReadingsDistinguishStars(s1: string, s2: string, p1: string, p2: string)
    requires s1 in STAR_INFO_MAP && s2 in STAR_INFO_MAP && s1 != s2
    ensures StarInterpretation(s1, p1) != StarInterpretation(s2, p2)
  {
    StarNamesHaveTwoCharacters();
    TagNamesStar(s1, StarInterpretation(s1, p1));
    TagNamesStar(s2, StarInterpretation(s2, p2));
  }

  /** A text that opens with the tag of a two-character star name holds
      that name at positions 1 and 2. */
  lemma TagNamesStar(star: string, r: string)
    requires |star| == 2 && StarTag(star) <= r
    ensures |r| >= 3 && r[1..3] == star
  {
    assert StarTag(star)[1..3] == star;
  }

  /** The relation of a pillar's stem element to its branch element. */
  datatype Relation = Congruent | Flow | Rooted | Clash

  /** `${el}` of a looked-up element: "undefined" for a character missing
      from the element tables. */
  function ElementName(e: Option<Element>): string
  {
    match e
    case None => "undefined"
    case Some(x) => ElementChar(x)
  }

  /** The classification of `getPillarDetailedMeaning`: equal elements
      (including two missing ones), then the stem+branch string in the
      generating list, then branch+stem, else a clash. */
  function Relate(stemEl: Option<Element>, branchEl: Option<Element>): Relation
  {
    if stemEl == branchEl then Congruent
    else if ElementName(stemEl) + ElementName(branchEl) in GENERATING_PAIRS then Flow
    else if ElementName(branchEl) + ElementName(stemEl) in GENERATING_PAIRS then Rooted
    else Clash
  }

  /** A missing element never forms a generating pair. */
  lemma MissingNeverGenerates(a: Option<Element>, b: Option<Element>)
    requires a.None? || b.None?
    ensures ElementName(a) + ElementName(b) !in GENERATING_PAIRS
  {
    assert |ElementName(a) + ElementName(b)| >= 10;
    assert forall k :: 0 <= k < |GENERATING_PAIRS| ==> |GENERATING_PAIRS[k]| == 2;
  }

  /** The string test agrees with the generating cycle: a pillar flows when
      its stem element generates its branch element, is rooted when the
      branch element generates the stem element, and otherwise, for two
      distinct known elements, clashes exactly when one overcomes the other. */
  lemma RelateMeaning(s: Option<Element>, b: Option<Element>)
    ensures Relate(s, b) == Congruent <==> s == b
    ensures Relate(s, b) == Flow <==> s.Some? && b.Some? && Generates(s.value, b.value)
    ensures Relate(s, b) == Rooted <==> s.Some? && b.Some? && Generates(b.value, s.value)
    ensures s.Some? && b.Some? && s != b ==>
      (Relate(s, b) == Clash <==> Overcomes(s.value, b.value) || Overcomes(b.value, s.value))
  {
    if s.Some? && b.Some? {
      GeneratingPairsMatch(s.value, b.value);
      GeneratingPairsMatch(b.value, s.value);
      if s != b {
        FourRelationsPartition(s.value, b.value);
      }
    } else {
      MissingNeverGenerates(s, b);
      MissingNeverGenerates(b, s);
    }
  }

  /** Exchanging stem and branch exchanges flowing and rooted. */
  lemma RelateSwap(s: Option<Element>, b: Option<Element>)
    ensures Relate(s, b) == Flow <==> Relate(b, s) == Rooted
    ensures Relate(s, b) == Congruent <==> Relate(b, s) == Congruent
    ensures Relate(s, b) == Clash <==> Relate(b, s) == Clash
  {
    RelateMeaning(s, b);
    RelateMeaning(b, s);
  }

  function RelationText(r: Relation): string
  {
    match r
    case Congruent => "【表裡如一】" + "：天干與地支五行相同，代表這個階段您的外在表現與內心想法非常一致，能量純粹，執行力強。"
    case Flow => "【順勢而為】" + "：外在環境（天干）滋養內在基礎（地支），代表雖然表面忙碌，但對您自身的積累是有益的，發展順遂。"
    case Rooted => "【根基深厚】" + "：內在實力（地支）支撐外在表現（天干），代表您底氣足，容易得到他人的支持或長輩的幫助。"
    case Clash => "【磨礪成長】" + "：天干與地支相剋，代表外在機遇與內在想法有衝突，雖然過程較為波折，但這也是一種自我突破和鍛煉。"
  }

  /** The four relation texts differ in the first character of their
      bracketed title, so a reading tells which relation was found. */
  lemma RelationTitlesDiffer(a: Relation, b: Relation)
    ensures |RelationText(a)| > 1 && |RelationText(b)| > 1
    ensures RelationText(a)[1] == RelationText(b)[1] <==> a == b
  {
    TitleChar(a);
    TitleChar(b);
  }

  lemma TitleChar(r: Relation)
    ensures |RelationText(r)| > 1
    ensures RelationText(r)[1] == match r case Congruent => '表' case Flow => '順' case Rooted => '根' case Clash => '磨'
  {
    match r
    case Congruent => assert RelationText(r)[1] == '表';
    case Flow => assert RelationText(r)[1] == '順';
    case Rooted => assert RelationText(r)[1] == '根';
    case Clash => assert RelationText(r)[1] == '磨';
  }

  function StemLookup(stem: string): Option<Element>
  {
    if stem in STEM_ELEMENTS then Some(STEM_ELEMENTS[stem]) else None
  }

  function BranchLookup(branch: string): Option<Element>
  {
    if branch in BRANCH_ELEMENTS then Some(BRANCH_ELEMENTS[branch]) else None
  }

  function PillarRelation(p: Pillar): Relation
  {
    Relate(StemLookup(p.stem), BranchLookup(p.branch))
  }

  /** The opening of each pillar's reading, in the order of `PILLAR_LABELS`. */
  const PILLAR_HEADINGS: seq<string> := [
    "此柱代表**幼年運及祖輩**。\n", "此柱代表**青年運及性格核心**。\n",
    "此柱代表**中年運及配偶**。\n", "此柱代表**晚年運及子女**。\n"]

  /** The closing of each pillar's reading, in the same order. */
  const PILLAR_CODAS: seq<string> := [
    "", "\n這是八字中最重要的部分，決定了您的主要性格特質。",
    "\n日支也代表配偶宮，這暗示了您與另一半的相處模式。", "\n這是您人生最終的歸宿感。"]

  /** `getPillarDetailedMeaning`: the slot's heading, the relation text and
      the slot's closing; empty for a label that names no pillar. */
  function PillarMeaning(p: Pillar, slot: string): (r: string)
    ensures r == "" <==> slot !in PILLAR_LABELS
  {
    var k := IndexOf(PILLAR_LABELS, slot);
    if k < 0 then ""
    else
      assert |PILLAR_HEADINGS[k]| > 0;
      PILLAR_HEADINGS[k] + RelationText(PillarRelation(p)) + PILLAR_CODAS[k]
  }

  /** A reading names the relation it found: equal readings of one slot
      come from pillars in the same relation. */
  lemma PillarMeaningShowsRelation(p1: Pillar, p2: Pillar, slot: string)
    requires slot in PILLAR_LABELS
    requires PillarMeaning(p1, slot) == PillarMeaning(p2, slot)
    ensures PillarRelation(p1) == PillarRelation(p2)
  {
    var k := IndexOf(PILLAR_LABELS, slot);
    var h := PILLAR_HEADINGS[k];
    TitleChar(PillarRelation(p1));
    TitleChar(PillarRelation(p2));
    assert PillarMeaning(p1, slot)[|h| + 1] == RelationText(PillarRelation(p1))[1];
    assert PillarMeaning(p2, slot)[|h| + 1] == RelationText(PillarRelation(p2))[1];
    RelationTitlesDiffer(PillarRelation(p1), PillarRelation(p2));
  }

  /** Pillars built from the stem and branch tables always find both
      elements, so their relation is the one of the element cycles. */
  lemma TablePillarRelation(p: PillarIndex, tag: string)
    ensures PillarRelation(ToPillar(p, tag)) == Relate(Some(StemElement(p.stem)), Some(BranchElement(p.branch)))
  {
    ElementTablesCover();
  }
}
