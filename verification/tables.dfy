/** The fixed vocabularies of `constants.ts`: the ten Heavenly Stems, the
    twelve Earthly Branches, the twelve palace roles, the star pools, the star
    dictionary and the palace/pillar definition tables. */
module Tables {

  import opened Wrappers
  import opened JsString

  predicate Distinct<T(==)>(s: seq<T>)
  {
    forall i, j :: 0 <= i < j < |s| ==> s[i] != s[j]
  }

  /** In a table without repeats, looking up entry i finds position i. */
  lemma TableIndex<T>(a: seq<T>, i: nat)
    requires Distinct(a) && i < |a|
    ensures IndexOf(a, a[i]) == i
  {
  }

  const EARTHLY_BRANCHES: seq<string> :=
    ["子", "丑", "寅", "卯", "辰", "巳", "午", "未", "申", "酉", "戌", "亥"]

  const HEAVENLY_STEMS: seq<string> :=
    ["甲", "乙", "丙", "丁", "戊", "己", "庚", "辛", "壬", "癸"]

  const PALACE_NAMES: seq<string> :=
    ["命宮", "兄弟", "夫妻", "子女", "財帛", "疾厄",
     "遷移", "交友", "官祿", "田宅", "福德", "父母"]

  const LIFE_PALACE := "命宮"

  const MAJOR_STARS: seq<string> :=
    ["紫微", "天機", "太陽", "武曲", "天同", "廉貞",
     "天府", "太陰", "貪狼", "巨門", "天相", "天梁", "七殺", "破軍"]

  const MINOR_STARS_POOL: seq<string> :=
    ["文昌", "文曲", "左輔", "右弼", "天魁", "天鉞",
     "擎羊", "陀羅", "火星", "鈴星", "地空", "地劫"]

  datatype StarInfo = StarInfo(element: string, description: string)

  const STAR_INFO_MAP: map<string, StarInfo> := map[
    "紫微" := StarInfo("土", "帝王之星，掌管尊貴與權力，具有解厄制化之功。"),
    "天機" := StarInfo("木", "智慧之星，主思慮變通，長於策劃與計算。"),
    "太陽" := StarInfo("火", "權貴之星，主博愛與付出，象徵光明與熱能。"),
    "武曲" := StarInfo("金", "財帛之星，主剛毅果決，長於理財與行動。"),
    "天同" := StarInfo("水", "福德之星，主溫順協調，重享受與安樂。"),
    "廉貞" := StarInfo("火", "次桃花星，主交際手腕，性格複雜多變，亦正亦邪。"),
    "天府" := StarInfo("土", "財庫之星，主包容與守成，性格穩重，善於管理。"),
    "太陰" := StarInfo("水", "財富之星，主溫柔細膩，象徵母性與陰柔之美。"),
    "貪狼" := StarInfo("木/水", "桃花之星，主慾望與多才多藝，長於交際應酬。"),
    "巨門" := StarInfo("水", "是非之星，主口才與分析，性格多疑，長於研究。"),
    "天相" := StarInfo("水", "印鑑之星，主忠誠與服務，性格公正，樂於助人。"),
    "天梁" := StarInfo("土", "蔭庇之星，主長壽與照顧，性格清高，具有領導力。"),
    "七殺" := StarInfo("金/火", "將星，主肅殺與衝勁，性格剛烈，喜冒險犯難。"),
    "破軍" := StarInfo("水", "耗星，主破壞與建設，性格衝動，喜新厭舊。"),
    "文昌" := StarInfo("金", "科甲之星，主正統學術與功名。"),
    "文曲" := StarInfo("水", "異路功名，主口才、藝術與才藝。"),
    "左輔" := StarInfo("土", "貴人星，主圓融與輔佐。"),
    "右弼" := StarInfo("水", "貴人星，主機智與輔佐。"),
    "擎羊" := StarInfo("金", "刑星，主攻擊與剛強。"),
    "陀羅" := StarInfo("金", "忌星，主拖延與固執。"),
    "火星" := StarInfo("火", "煞星，主爆發與剛烈。"),
    "鈴星" := StarInfo("火", "煞星，主隱忍與深沈。")
  ]

  /** Palace-role definitions, keyed by role name: a heading, a full-width
      colon and the explanation. */
  const PALACE_DEFINITIONS: map<string, string> := map[
    "命宮" := "核心自我：代表你的個性特質、天賦潛力以及整體的命運格局。這是解讀命盤的起點。",
    "兄弟" := "人際手足：代表與兄弟姐妹、知心好友或合作夥伴的關係，也暗示現金流動的狀況。",
    "夫妻" := "感情婚姻：代表對感情的態度、配偶的類型、婚姻關係的吉凶以及相處模式。",
    "子女" := "親子晚輩：代表與子女的緣分、教育方式，也象徵你的創造力、桃花運及晚年運勢。",
    "財帛" := "財運理財：代表賺錢的能力、財富的來源、理財觀念以及物質生活的享受程度。",
    "疾厄" := "身心健康：代表身體體質、易患疾病的傾向，也隱喻深層潛意識及心理狀態。",
    "遷移" := "外出機遇：代表出外發展的運勢、社交場合的表現、貴人運以及環境適應能力。",
    "交友" := "社交人脈：代表普通朋友、部屬、同事的關係，反映你的人際圈層及受助力的多寡。",
    "官祿" := "事業學業：代表工作運勢、適合的職業方向、職場地位、創業能力及求學考試運。",
    "田宅" := "不動產運：代表居住環境、購屋運勢、家庭氛圍，也象徵財庫的積累與守財能力。",
    "福德" := "精神享受：代表內心的安寧、興趣愛好、精神生活的品質，以及你的運氣和福氣。",
    "父母" := "長輩緣分：代表與父母的關係、遺傳基因、長輩的提攜助力，也象徵容貌與文書運。"
  ]

  /** The four pillar labels, in the order year, month, day, hour. */
  const PILLAR_LABELS: seq<string> := ["年柱", "月柱", "日柱", "時柱"]

  datatype PillarDefinition = PillarDefinition(title: string, desc: string, age: string)

  const PILLAR_DEFINITIONS: map<string, PillarDefinition> := map[
    "年柱" := PillarDefinition("根基 (祖上)",
      "代表祖父母輩、祖業根基及幼年運勢。反映了你的出身背景與早年環境。", "1-16歲"),
    "月柱" := PillarDefinition("門戶 (父母/兄弟)",
      "代表父母、兄弟姐妹及青年運勢。這是八字中「提綱」，對性格和事業格局影響最大。", "17-32歲"),
    "日柱" := PillarDefinition("自身 (夫妻宮)",
      "天干代表「你自己」(日主)，地支代表配偶(夫妻宮)。反映中年運勢、婚姻生活及核心性格。", "33-48歲"),
    "時柱" := PillarDefinition("歸宿 (子女/事業)",
      "代表子女、下屬、晚年運勢及最終的事業成就。反映了你人生下半場的收成與歸宿。", "49歲以後")
  ]

  /** The age band each pillar governs, in label order; the hour pillar's
      band has no upper end. */
  const PILLAR_AGE_BANDS: seq<(nat, Option<nat>)> := [(1, Some(16)), (17, Some(32)), (33, Some(48)), (49, None)]

  /** How an age band is written: "a-b歲", or "a歲以後" when open-ended. */
  function AgeText(band: (nat, Option<nat>)): string
  {
    match band.1
    case Some(to) => DecimalText(band.0) + "-" + DecimalText(to) + "歲"
    case None => DecimalText(band.0) + "歲以後"
  }

  lemma BranchAndStemTables()
    ensures |EARTHLY_BRANCHES| == 12 && Distinct(EARTHLY_BRANCHES)
    ensures |HEAVENLY_STEMS| == 10 && Distinct(HEAVENLY_STEMS)
  {
  }

  lemma PalaceNameTable()
    ensures |PALACE_NAMES| == 12 && Distinct(PALACE_NAMES)
    ensures PALACE_NAMES[0] == LIFE_PALACE
  {
  }

  lemma StarPools()
    ensures |MAJOR_STARS| == 14 && Distinct(MAJOR_STARS)
    ensures |MINOR_STARS_POOL| == 12 && Distinct(MINOR_STARS_POOL)
    ensures forall i, j :: 0 <= i < 14 && 0 <= j < 12 ==> MAJOR_STARS[i] != MINOR_STARS_POOL[j]
  {
  }

  /** The minor-star pool alone: twelve stars without repeats. */
  lemma MinorPool()
    ensures |MINOR_STARS_POOL| == 12 && Distinct(MINOR_STARS_POOL)
  {
    StarPools();
  }

  /** Every major star has a dictionary entry. */
  lemma MajorStarsDescribed()
    ensures forall i :: 0 <= i < |MAJOR_STARS| ==> MAJOR_STARS[i] in STAR_INFO_MAP
  {
  }

  /** Exactly four minor stars (天魁, 天鉞, 地空, 地劫) lack a dictionary entry. */
  lemma UndescribedMinorStars()
    ensures forall j :: 0 <= j < |MINOR_STARS_POOL| ==>
      (MINOR_STARS_POOL[j] !in STAR_INFO_MAP <==> j in {4, 5, 10, 11})
    ensures MINOR_STARS_POOL[4] == "天魁" && MINOR_STARS_POOL[5] == "天鉞"
    ensures MINOR_STARS_POOL[10] == "地空" && MINOR_STARS_POOL[11] == "地劫"
  {
  }

  /** 祿存 has no dictionary entry. */
  lemma UnknownStar()
    ensures "祿存" !in STAR_INFO_MAP
  {
  }

  /** Every star name in the dictionary is two characters long. */
  lemma StarNamesHaveTwoCharacters()
    ensures forall s :: s in STAR_INFO_MAP ==> |s| == 2
  {
  }

  /** Every star description contains a full-width comma, so splitting it on
      '，' always yields a second field. */
  lemma DescriptionsHaveComma()
    ensures forall s :: s in STAR_INFO_MAP ==> '，' in STAR_INFO_MAP[s].description
  {
    forall s | s in STAR_INFO_MAP
      ensures '，' in STAR_INFO_MAP[s].description
    {
      var d := STAR_INFO_MAP[s].description;
      assert |d| > 4 && (d[2] == '，' || d[3] == '，' || d[4] == '，');
    }
  }

  /** The definition tables are keyed by exactly the twelve role names and the
      four pillar labels. */
  lemma DefinitionKeys()
    ensures forall k :: k in PALACE_DEFINITIONS <==> k in PALACE_NAMES
    ensures forall k :: k in PILLAR_DEFINITIONS <==> k in PILLAR_LABELS
  {
  }

  /** The pillar definitions' age texts spell out the age bands, and the
      bands follow one another without gap or overlap from age 1. */
  lemma PillarAgeBands()
    ensures forall k :: 0 <= k < |PILLAR_LABELS| ==>
      PILLAR_LABELS[k] in PILLAR_DEFINITIONS && PILLAR_DEFINITIONS[PILLAR_LABELS[k]].age == AgeText(PILLAR_AGE_BANDS[k])
    ensures PILLAR_AGE_BANDS[0].0 == 1
    ensures forall k :: 0 <= k < 3 ==> PILLAR_AGE_BANDS[k].1 == Some(PILLAR_AGE_BANDS[k + 1].0 - 1)
    ensures PILLAR_AGE_BANDS[3].1 == None
  {
    AgeBandDigits();
    forall k | 0 <= k < |PILLAR_LABELS|
      ensures PILLAR_LABELS[k] in PILLAR_DEFINITIONS
      ensures PILLAR_DEFINITIONS[PILLAR_LABELS[k]].age == AgeText(PILLAR_AGE_BANDS[k])
    {
      if k == 0 {} else if k == 1 {} else if k == 2 {} else {}
    }
  }

  lemma AgeBandDigits()
    ensures DecimalText(1) == "1" && DecimalText(16) == "16" && DecimalText(17) == "17"
    ensures DecimalText(32) == "32" && DecimalText(33) == "33" && DecimalText(48) == "48" && DecimalText(49) == "49"
  {
    assert DecimalText(1) == "1" && DecimalText(16) == "16" && DecimalText(17) == "17";
    assert DecimalText(32) == "32" && DecimalText(33) == "33" && DecimalText(48) == "48" && DecimalText(49) == "49";
  }
}
