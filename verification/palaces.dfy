/** The twelve-palace chart of `utils/astrologyUtils.ts` (`calculateChart`):
    the Life Palace anchor, the rotation of the palace roles, the decade age
    windows, the palace stems and the placeholder star placement driven by a
    hash of the birth timestamp. */
module Palaces {

  import opened Wrappers
  import opened JsMath
  import opened Calendar
  import opened Tables
  import opened Branches
  import opened JsString

  /** One palace. A star slot or the stem is None where the source indexes
      its table out of range and stores `undefined`; the age window is kept
      as its two ends, rendered by `AgeRange`. */
  datatype Palace = Palace(
    id: BranchIndex,
    earthlyBranch: string,
    name: string,
    majorStars: seq<Option<string>>,
    minorStars: seq<Option<string>>,
    heavenlyStem: Option<string>,
    startAge: nat,
    endAge: nat)

  /** `ageRange`: `${startAge}-${endAge}`. */
  function AgeRange(p: Palace): string
  {
    DecimalText(p.startAge) + "-" + DecimalText(p.endAge)
  }

  /** The branch slot of the Life Palace: from 寅 (slot 2) count forward one
      slot per month and back one slot per double hour. */
  function MingIndex(month: int, hour: int): (r: BranchIndex)
    ensures r == (month + 1 - TimeBranchIndex(hour)) % 12
  {
    Wrap(2 + (month - 1) - TimeBranchIndex(hour), 12)
  }

  /** Born a month later, the Life Palace sits one slot further on. */
  lemma {:induction false} MingMonthStep(month: int, hour: int)
    ensures MingIndex(month + 1, hour) == (MingIndex(month, hour) + 1) % 12
  {
    var m := month + 1 - TimeBranchIndex(hour);
    var q, r := m / 12, m % 12;
    if r < 11 {
      DivModUnique(m + 1, 12, q, r + 1);
    } else {
      DivModUnique(m + 1, 12, q + 1, 0);
    }
  }

  /** Born a double hour later (within one day), the Life Palace sits one
      slot back; at the Rat hour of the first month it sits at 寅. */
  lemma {:induction false} MingHourStep(month: int, hour: int)
    requires 1 <= hour < 21
    ensures MingIndex(month, hour + 2) == (MingIndex(month, hour) + 11) % 12
    ensures EARTHLY_BRANCHES[MingIndex(1, 0)] == "寅"
  {
    var m := month + 1 - TimeBranchIndex(hour);
    var q, r := m / 12, m % 12;
    assert TimeBranchIndex(hour + 2) == TimeBranchIndex(hour) + 1;
    if r > 0 {
      DivModUnique(m - 1, 12, q, r - 1);
    } else {
      DivModUnique(m - 1, 12, q - 1, 11);
    }
  }

  /** The role index of branch slot i: roles run backwards from the Life Palace. */
  function LabelIndex(ming: BranchIndex, i: BranchIndex): (r: BranchIndex)
  {
    Wrap(ming - i, 12)
  }

  /** The slot k steps after the Life Palace holds role (12 - k) mod 12, so
      the role assignment is a bijection that puts 命宮 at the Life Palace. */
  lemma RoleRotation(ming: BranchIndex, i: BranchIndex, j: BranchIndex)
    ensures LabelIndex(ming, i) == 0 <==> i == ming
    ensures LabelIndex(ming, i) == LabelIndex(ming, j) <==> i == j
    ensures LabelIndex(ming, (ming + 1) % 12) == 11
    ensures i != ming ==> LabelIndex(ming, i) + LabelIndex(i, ming) == 12
  {
    LabelIndexValue(ming, i);
    LabelIndexValue(ming, j);
    LabelIndexValue(i, ming);
    LabelIndexValue(ming, (ming + 1) % 12);
  }

  /** The role index without the remainder: ming - i, plus 12 when i lies
      past the Life Palace. */
  lemma LabelIndexValue(ming: BranchIndex, i: BranchIndex)
    ensures LabelIndex(ming, i) == if i <= ming then ming - i else ming - i + 12
  {
    if i <= ming {
      DivModUnique(ming - i, 12, 0, ming - i);
    } else {
      DivModUnique(ming - i, 12, -1, ming - i + 12);
    }
  }

  /** Every role index is held by exactly the slot (ming - k) mod 12. */
  lemma RoleSlot(ming: BranchIndex, k: BranchIndex)
    ensures LabelIndex(ming, Wrap(ming - k, 12)) == k
  {
    var i: BranchIndex := Wrap(ming - k, 12);
    LabelIndexValue(ming, k);
    assert i == LabelIndex(ming, k);
    LabelIndexValue(ming, i);
  }

  /** `(date.getTime() + i) % 100` as written: JavaScript's remainder takes the
      sign of the dividend, so it is negative before 1970. */
  function HashAsWritten(t: int, i: BranchIndex): (h: int)
    ensures -100 < h < 100
    ensures t + i >= 0 ==> h == (t + i) % 100
    ensures t + i < 0 ==> h <= 0
  {
    JsRem(t + i, 100)
  }

  /** The hash normalised into 0..99. */
  function Hash(t: int, i: BranchIndex): (h: int)
    ensures 0 <= h < 100
    ensures h == (t + i) % 100
  {
    Wrap(t + i, 100)
  }

  /** Birth timestamps are whole days of milliseconds, hence multiples of
      100: the normalised hash of slot i is i itself, on every date. */
  lemma {:induction false} HashIsSlot(d: Date, i: BranchIndex)
    requires ValidDate(d)
    ensures Hash(UtcMidnightMillis(d), i) == i
    ensures UtcMidnightMillis(d) >= 0 ==> HashAsWritten(UtcMidnightMillis(d), i) == i
    ensures UtcMidnightMillis(d) < 0 && i > 0 ==> HashAsWritten(UtcMidnightMillis(d), i) == i - 100
  {
    var t := UtcMidnightMillis(d);
    var q := t / MillisPerDay;
    assert t == MillisPerDay * q;
    DivModUnique(t + i, 100, 864000 * q, i);
  }

  /** The major stars for a hash value (utils/astrologyUtils.ts, lines
      271-273). The third rule is
      consulted only while fewer than two stars were placed. */
  function MajorStarsFor(h: int): seq<Option<string>>
  {
    var first := if JsRem(h, 3) == 0 then [JsIndex(MAJOR_STARS, JsRem(h, 14))] else [];
    var second := first + (if JsRem(h, 7) == 0 then [JsIndex(MAJOR_STARS, JsRem(h + 5, 14))] else []);
    second + (if JsRem(h, 11) == 0 && |second| < 2 then [JsIndex(MAJOR_STARS, JsRem(h + 2, 14))] else [])
  }

  /** The minor stars for a hash value, one possible star from each block of
      four in the pool (utils/astrologyUtils.ts, lines 275-277). */
  function MinorStarsFor(h: int): seq<Option<string>>
  {
    (if JsRem(h, 2) == 0 then [JsIndex(MINOR_STARS_POOL, JsRem(h, 4))] else [])
    + (if JsRem(h, 5) == 0 then [JsIndex(MINOR_STARS_POOL, 4 + JsRem(h, 4))] else [])
    + (if JsRem(h, 6) == 0 then [JsIndex(MINOR_STARS_POOL, 8 + JsRem(h, 4))] else [])
  }

  /** At most two major stars; for a non-negative hash each is a real star
      and the two differ. */
  lemma MajorStarsShape(h: int)
    ensures |MajorStarsFor(h)| <= 2
    ensures h >= 0 ==> forall x :: x in MajorStarsFor(h) ==> x.Some? && x.value in MAJOR_STARS
    ensures h >= 0 && |MajorStarsFor(h)| == 2 ==> MajorStarsFor(h)[0] != MajorStarsFor(h)[1]
  {
    StarPools();
    if h >= 0 && |MajorStarsFor(h)| == 2 {
      DistinctPicks(h);
    }
  }

  /** Two picks for one non-negative hash sit 2, 3 or 5 places apart in the
      14-star table, so they are different stars. */
  lemma DistinctPicks(h: nat)
    ensures h % 14 != (h + 5) % 14 && h % 14 != (h + 2) % 14 && (h + 5) % 14 != (h + 2) % 14
  {
  }

  /** At most three minor stars. For a non-negative hash h the pool is read
      as three blocks of four: the `% 2` rule places entry h mod 4 of the
      first block, the `% 5` rule the same entry of the second and the `% 6`
      rule that of the third. So the stars are real, each comes from its own
      block, in block order, and no star repeats. */
  lemma MinorStarsShape(h: int)
    ensures |MinorStarsFor(h)| <= 3
    ensures h >= 0 ==> forall x :: x in MinorStarsFor(h) ==> x.Some? && x.value in MINOR_STARS_POOL
    ensures h >= 0 ==> forall a, b :: 0 <= a < b < |MinorStarsFor(h)| ==> MinorStarsFor(h)[a] != MinorStarsFor(h)[b]
    ensures h >= 0 ==> (Some(MINOR_STARS_POOL[h % 4]) in MinorStarsFor(h) <==> h % 2 == 0)
    ensures h >= 0 ==> (Some(MINOR_STARS_POOL[4 + h % 4]) in MinorStarsFor(h) <==> h % 5 == 0)
    ensures h >= 0 ==> (Some(MINOR_STARS_POOL[8 + h % 4]) in MinorStarsFor(h) <==> h % 6 == 0)
    ensures h >= 0 ==> AtBlockPosition(MINOR_STARS_POOL, MinorStarsFor(h), h % 4)
    ensures h >= 0 ==> BlocksAscending(MINOR_STARS_POOL, MinorStarsFor(h))
  {
    if h >= 0 {
      MinorStarsPlaced(h);
      MinorStarsOrdered(h);
    }
  }

  /** For a non-negative hash each block's star is placed exactly when its
      rule fires. */
  lemma MinorStarsPlaced(h: nat)
    ensures Some(MINOR_STARS_POOL[h % 4]) in MinorStarsFor(h) <==> h % 2 == 0
    ensures Some(MINOR_STARS_POOL[4 + h % 4]) in MinorStarsFor(h) <==> h % 5 == 0
    ensures Some(MINOR_STARS_POOL[8 + h % 4]) in MinorStarsFor(h) <==> h % 6 == 0
  {
    MinorPool();
    MinorPicks(h);
    BlockPicksMembers(MINOR_STARS_POOL, h % 4, h % 2 == 0, h % 5 == 0, h % 6 == 0);
  }

  /** For a non-negative hash the minor stars are real pool entries at
      position h mod 4 of their blocks, in block order, so none repeats. */
  lemma MinorStarsOrdered(h: nat)
    ensures AtBlockPosition(MINOR_STARS_POOL, MinorStarsFor(h), h % 4)
    ensures BlocksAscending(MINOR_STARS_POOL, MinorStarsFor(h))
    ensures forall a, b :: 0 <= a < b < |MinorStarsFor(h)| ==> MinorStarsFor(h)[a] != MinorStarsFor(h)[b]
  {
    MinorPool();
    MinorPicks(h);
    BlockPicksPositions(MINOR_STARS_POOL, h % 4, h % 2 == 0, h % 5 == 0, h % 6 == 0);
    BlockPicksAscending(MINOR_STARS_POOL, h % 4, h % 2 == 0, h % 5 == 0, h % 6 == 0);
    BlockPicksDistinct(MINOR_STARS_POOL, h % 4, h % 2 == 0, h % 5 == 0, h % 6 == 0);
  }

  /** Every pick is a real entry of the pool, at position k of its block of
      four. */
  ghost predicate AtBlockPosition<T>(pool: seq<T>, picks: seq<Option<T>>, k: nat)
  {
    forall x :: x in picks ==> x.Some? && x.value in pool && IndexOf(pool, x.value) % 4 == k
  }

  /** The picks are real entries from strictly increasing blocks of four. */
  ghost predicate BlocksAscending<T>(pool: seq<T>, picks: seq<Option<T>>)
  {
    forall a, b :: 0 <= a < b < |picks| ==>
      picks[a].Some? && picks[b].Some? && IndexOf(pool, picks[a].value) / 4 < IndexOf(pool, picks[b].value) / 4
  }

  /** Entry k of up to three blocks of four, one per flag, in block order. */
  function BlockPicks<T>(pool: seq<T>, k: nat, first: bool, second: bool, third: bool): seq<Option<T>>
    requires |pool| == 12 && k < 4
  {
    (if first then [Some(pool[k])] else [])
    + (if second then [Some(pool[4 + k])] else [])
    + (if third then [Some(pool[8 + k])] else [])
  }

  /** Each block's entry is picked exactly when its flag is set. */
  lemma BlockPicksMembers<T>(pool: seq<T>, k: nat, first: bool, second: bool, third: bool)
    requires |pool| == 12 && Distinct(pool) && k < 4
    ensures |BlockPicks(pool, k, first, second, third)| <= 3
    ensures Some(pool[k]) in BlockPicks(pool, k, first, second, third) <==> first
    ensures Some(pool[4 + k]) in BlockPicks(pool, k, first, second, third) <==> second
    ensures Some(pool[8 + k]) in BlockPicks(pool, k, first, second, third) <==> third
  {
  }

  /** In a table of three blocks of four without repeats, every pick is a
      real entry at position k of its block. */
  lemma BlockPicksPositions<T>(pool: seq<T>, k: nat, first: bool, second: bool, third: bool)
    requires |pool| == 12 && Distinct(pool) && k < 4
    ensures AtBlockPosition(pool, BlockPicks(pool, k, first, second, third), k)
  {
    var r := BlockPicks(pool, k, first, second, third);
    var x, y, z := Some(pool[k]), Some(pool[4 + k]), Some(pool[8 + k]);
    TableIndex(pool, k);
    TableIndex(pool, 4 + k);
    TableIndex(pool, 8 + k);
    assert IndexOf(pool, pool[k]) % 4 == k && IndexOf(pool, pool[4 + k]) % 4 == k && IndexOf(pool, pool[8 + k]) % 4 == k;
    assert r <= [x, y, z] || r <= [x, z] || r <= [y, z] || r == [z];
  }

  /** The picks come from strictly increasing blocks. */
  lemma BlockPicksAscending<T>(pool: seq<T>, k: nat, first: bool, second: bool, third: bool)
    requires |pool| == 12 && Distinct(pool) && k < 4
    ensures BlocksAscending(pool, BlockPicks(pool, k, first, second, third))
  {
    var r := BlockPicks(pool, k, first, second, third);
    var x, y, z := Some(pool[k]), Some(pool[4 + k]), Some(pool[8 + k]);
    TableIndex(pool, k);
    TableIndex(pool, 4 + k);
    TableIndex(pool, 8 + k);
    assert IndexOf(pool, pool[k]) / 4 == 0 && IndexOf(pool, pool[4 + k]) / 4 == 1 && IndexOf(pool, pool[8 + k]) / 4 == 2;
    if first && second && third {
      assert r == [x, y, z];
    } else if first && second {
      assert r == [x, y];
    } else if first && third {
      assert r == [x, z];
    } else if second && third {
      assert r == [y, z];
    } else {
      assert |r| <= 1;
    }
  }

  /** Picks from different blocks differ, so no pick repeats. */
  lemma BlockPicksDistinct<T>(pool: seq<T>, k: nat, first: bool, second: bool, third: bool)
    requires |pool| == 12 && Distinct(pool) && k < 4
    ensures forall a, b :: 0 <= a < b < |BlockPicks(pool, k, first, second, third)| ==>
      BlockPicks(pool, k, first, second, third)[a] != BlockPicks(pool, k, first, second, third)[b]
  {
    BlockPicksAscending(pool, k, first, second, third);
  }

  /** The minor stars for a non-negative hash, with the remainders read as
      ordinary residues. */
  lemma MinorPicks(h: nat)
    ensures MinorStarsFor(h) == BlockPicks(MINOR_STARS_POOL, h % 4, h % 2 == 0, h % 5 == 0, h % 6 == 0)
  {
    MinorPool();
  }

  /** `(i * 2 + date.getFullYear()) % 10` as a stem; undefined when the
      remainder is negative. */
  function PalaceStem(year: int, i: BranchIndex): (s: Option<string>)
    ensures 2 * i + year >= 0 ==> s == Some(HEAVENLY_STEMS[(2 * i + year) % 10])
    ensures s.None? <==> 2 * i + year < 0 && (2 * i + year) % 10 != 0
  {
    JsIndex(HEAVENLY_STEMS, JsRem(2 * i + year, 10))
  }

  /** Adjacent palaces' stems are two apart in the stem cycle, and the stems
      repeat every ten years. */
  lemma {:induction false} PalaceStemCycle(year: int, i: BranchIndex)
    requires year >= 0 && i < 11
    ensures PalaceStem(year, i + 1) == Some(HEAVENLY_STEMS[(PalaceStemIndex(year, i) + 2) % 10])
    ensures PalaceStem(year + 10, i) == PalaceStem(year, i)
  {
    var m := 2 * i + year;
    var q, r := m / 10, m % 10;
    if r < 8 {
      DivModUnique(m + 2, 10, q, r + 2);
    } else {
      DivModUnique(m + 2, 10, q + 1, r - 8);
    }
    DivModUnique(m + 10, 10, q + 1, r);
  }

  function PalaceStemIndex(year: int, i: BranchIndex): StemIndex
  {
    (2 * i + year) % 10
  }

  /** One palace for slot i, given the Life Palace slot, the birth year and
      the hash value of the slot. */
  function BuildPalace(ming: BranchIndex, year: int, i: BranchIndex, h: int): (p: Palace)
  {
    var role := LabelIndex(ming, i);
    Palace(i, EARTHLY_BRANCHES[i], PALACE_NAMES[role], MajorStarsFor(h), MinorStarsFor(h),
      PalaceStem(year, i), role * 10 + 2, role * 10 + 11)
  }

  /** `calculateChart` as written: the unnormalised hash. Only the star
      lists can differ from the corrected chart; ids, branches, roles, age
      windows and stems are the same on every date. */
  function ChartAsWritten(birth: Date, hour: int): (r: seq<Palace>)
    requires ValidDate(birth)
    ensures |r| == 12
    ensures forall i :: 0 <= i < 12 ==>
      r[i].(majorStars := Chart(birth, hour)[i].majorStars, minorStars := Chart(birth, hour)[i].minorStars) == Chart(birth, hour)[i]
  {
    var ming := MingIndex(birth.month, hour);
    var t := UtcMidnightMillis(birth);
    seq(12, i requires 0 <= i < 12 => BuildPalace(ming, birth.year, i, HashAsWritten(t, i)))
  }

  /** `calculateChart` with the hash normalised into 0..99: slot i holds
      branch i, and its role and decade follow from its distance to the
      Life Palace. */
  function Chart(birth: Date, hour: int): (r: seq<Palace>)
    requires ValidDate(birth)
    ensures |r| == 12
    ensures forall i :: 0 <= i < 12 ==> r[i].id == i && r[i].earthlyBranch == EARTHLY_BRANCHES[i]
    ensures forall i :: 0 <= i < 12 ==> r[i].endAge == r[i].startAge + 9
  {
    var ming := MingIndex(birth.month, hour);
    var t := UtcMidnightMillis(birth);
    seq(12, i requires 0 <= i < 12 => BuildPalace(ming, birth.year, i, Hash(t, i)))
  }

  /** Palace i carries the role its distance from the Life Palace gives it. */
  lemma ChartRole(birth: Date, hour: int, i: BranchIndex)
    requires ValidDate(birth)
    ensures var k := LabelIndex(MingIndex(birth.month, hour), i);
      Chart(birth, hour)[i].name == PALACE_NAMES[k] && Chart(birth, hour)[i].startAge == 10 * k + 2
  {
  }

  /** Exactly one palace is the Life Palace 命宮, the one at the computed
      slot, with the decade of ages 2-11; no two palaces share a role. */
  lemma ChartRoles(birth: Date, hour: int, i: BranchIndex, j: BranchIndex)
    requires ValidDate(birth)
    ensures Chart(birth, hour)[i].name == LIFE_PALACE <==> i == MingIndex(birth.month, hour)
    ensures Chart(birth, hour)[i].name == Chart(birth, hour)[j].name <==> i == j
    ensures var m := MingIndex(birth.month, hour);
      Chart(birth, hour)[m].startAge == 2 && Chart(birth, hour)[m].endAge == 11
  {
    var m := MingIndex(birth.month, hour);
    ChartRole(birth, hour, i);
    ChartRole(birth, hour, j);
    ChartRole(birth, hour, m);
    PalaceNameTable();
    RoleRotation(m, i, j);
  }

  /** The Life Palace's age window reads "2-11". */
  lemma LifePalaceAgeRange(birth: Date, hour: int)
    requires ValidDate(birth)
    ensures AgeRange(Chart(birth, hour)[MingIndex(birth.month, hour)]) == "2-11"
  {
    ChartRoles(birth, hour, MingIndex(birth.month, hour), MingIndex(birth.month, hour));
    assert DecimalText(11) == "11";
  }

  /** Role k is held by slot (ming - k) mod 12, so every role name occurs. */
  lemma ChartHasEveryRole(birth: Date, hour: int, k: BranchIndex)
    requires ValidDate(birth)
    ensures Chart(birth, hour)[Wrap(MingIndex(birth.month, hour) - k, 12)].name == PALACE_NAMES[k]
  {
    var m := MingIndex(birth.month, hour);
    var i: BranchIndex := Wrap(m - k, 12);
    RoleSlot(m, k);
    ChartRole(birth, hour, i);
  }

  /** The placement of stars does not depend on the birth date: slot i
      always gets the stars of hash value i. */
  lemma StarsIgnoreDate(birth: Date, hour: int, i: BranchIndex)
    requires ValidDate(birth)
    ensures Chart(birth, hour)[i].majorStars == MajorStarsFor(i)
    ensures Chart(birth, hour)[i].minorStars == MinorStarsFor(i)
  {
    HashIsSlot(birth, i);
  }

  /** Every palace of a chart holds at most two distinct major stars and at
      most three distinct minor stars, all of them real stars. */
  lemma ChartStars(birth: Date, hour: int, i: BranchIndex)
    requires ValidDate(birth)
    ensures var p := Chart(birth, hour)[i];
      |p.majorStars| <= 2 && |p.minorStars| <= 3
      && (forall x :: x in p.majorStars ==> x.Some? && x.value in MAJOR_STARS)
      && (forall x :: x in p.minorStars ==> x.Some? && x.value in MINOR_STARS_POOL)
      && (|p.majorStars| == 2 ==> p.majorStars[0] != p.majorStars[1])
  {
    StarsIgnoreDate(birth, hour, i);
    MajorStarsShape(i);
    MinorStarsShape(i);
  }

  /** From 1970 on the two charts coincide. */
  lemma AsWrittenAgreesFrom1970(birth: Date, hour: int)
    requires ValidDate(birth) && DayNumber(birth) >= DayNumber(Epoch)
    ensures ChartAsWritten(birth, hour) == Chart(birth, hour)
  {
    forall i: BranchIndex
      ensures ChartAsWritten(birth, hour)[i] == Chart(birth, hour)[i]
    {
      HashIsSlot(birth, i);
    }
  }

  /** The layout of the chart as written, for every valid date: palace i
      has id i, branch i, the role and decade of its distance from the Life
      Palace and the stem of `PalaceStem`, as in the corrected chart. */
  lemma AsWrittenLayout(birth: Date, hour: int, i: BranchIndex)
    requires ValidDate(birth)
    ensures var p := ChartAsWritten(birth, hour)[i]; var k := LabelIndex(MingIndex(birth.month, hour), i);
      p.id == i && p.earthlyBranch == EARTHLY_BRANCHES[i] && p.name == PALACE_NAMES[k]
      && p.startAge == 10 * k + 2 && p.endAge == 10 * k + 11 && p.heavenlyStem == PalaceStem(birth.year, i)
  {
    var r := ChartAsWritten(birth, hour);
    assert r[i].(majorStars := Chart(birth, hour)[i].majorStars, minorStars := Chart(birth, hour)[i].minorStars)
      == Chart(birth, hour)[i];
  }

  /** Before 1970 the chart as written gives slots 1..11 the stars of hash
      i - 100, while slot 0 keeps those of hash 0. */
  lemma AsWrittenStarsBefore1970(birth: Date, hour: int, i: BranchIndex)
    requires ValidDate(birth) && DayNumber(birth) < DayNumber(Epoch)
    ensures i > 0 ==>
      ChartAsWritten(birth, hour)[i].majorStars == MajorStarsFor(i - 100)
      && ChartAsWritten(birth, hour)[i].minorStars == MinorStarsFor(i - 100)
    ensures i == 0 ==> ChartAsWritten(birth, hour)[i] == Chart(birth, hour)[i]
  {
    HashIsSlot(birth, i);
  }

  /** The last day before the epoch starts one day of milliseconds early. */
  lemma DayBeforeEpoch()
    ensures ValidDate(Date(1969, 12, 31))
    ensures UtcMidnightMillis(Date(1969, 12, 31)) == -MillisPerDay
  {
    NextDayNumber(Date(1969, 12, 31));
  }

  /** A hash of -99 makes both major-star lookups negative: -99 % 14 is -1
      and -97 % 14 is -13. */
  lemma NegativeHashStars()
    ensures MajorStarsFor(-99) == [None, None]
  {
    assert JsRem(-99, 3) == 0 && JsRem(-99, 7) == -1 && JsRem(-99, 11) == 0;
    assert JsRem(-99, 14) == -1 && JsRem(-97, 14) == -13;
  }

  /** Born on 1969-12-31, slot 1 hashes to -99 and so stores two
      `undefined` major stars. */
  lemma AsWrittenUndefinedStars(hour: int)
    ensures ValidDate(Date(1969, 12, 31))
    ensures ChartAsWritten(Date(1969, 12, 31), hour)[1].majorStars == [None, None]
  {
    DayBeforeEpoch();
    HashIsSlot(Date(1969, 12, 31), 1);
    NegativeHashStars();
  }
}
