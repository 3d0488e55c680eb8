/** The four-pillar (BaZi) calculator of `utils/astrologyUtils.ts`
    (`calculateBaZi`). Its input is the true-solar civil date and hour; the
    longitude and equation-of-time correction that produce it are not part of
    this model. */
module BaZi {

  import opened JsMath
  import opened Calendar
  import opened Tables
  import opened Branches
  import opened JsString

  /** A true-solar date and hour of day (`getFullYear`, `getMonth() + 1`,
      `getDate`, `getHours`). */
  datatype SolarTime = SolarTime(date: Date, hour: int)

  predicate ValidSolarTime(t: SolarTime)
  {
    ValidDate(t.date) && 0 <= t.hour < 24
  }

  /** A pillar as a pair of table indices. */
  datatype PillarIndex = PillarIndex(stem: StemIndex, branch: BranchIndex)

  /** Stems and branches only combine with equal parity (Yang with Yang,
      Yin with Yin): these are the sixty pairs of the sexagenary cycle. */
  predicate Sexagenary(p: PillarIndex)
  {
    p.stem % 2 == p.branch % 2
  }

  /** Position k of the sixty-cycle (0 = 甲子): stem k mod 10, branch k mod 12. */
  function FromCycle(k: int): (p: PillarIndex)
    ensures Sexagenary(p)
  {
    EvenModParity(k, 5);
    EvenModParity(k, 6);
    PillarIndex(k % 10, k % 12)
  }

  /** The inverse of `FromCycle` on sexagenary pairs. */
  function CycleIndex(p: PillarIndex): (k: int)
    requires Sexagenary(p)
    ensures 0 <= k < 60
    ensures FromCycle(k) == p
  {
    var m := (p.stem - p.branch) / 2;
    assert p.stem - p.branch == 2 * m;
    var x := 6 * p.stem - 5 * p.branch;
    var k := x % 60;
    var q := x / 60;
    assert x == p.stem + 10 * m && x == p.branch + 12 * m;
    DivModUnique(k, 10, m - 6 * q, p.stem);
    DivModUnique(k, 12, m - 5 * q, p.branch);
    k
  }

  /** Two cycle positions give the same pillar exactly when they agree modulo 60. */
  lemma {:induction false} FromCyclePeriodic(k: int)
    ensures FromCycle(k + 60) == FromCycle(k)
    ensures CycleIndex(FromCycle(k)) == k % 60
  {
    DivModUnique(k + 60, 10, k / 10 + 6, k % 10);
    DivModUnique(k + 60, 12, k / 12 + 5, k % 12);
    var p := FromCycle(k);
    var j := CycleIndex(p);
    // j and k % 60 are both cycle positions of p; positions of a pair are unique.
    var r := k % 60;
    DivModUnique(r, 10, r / 10, k % 10) by {
      DivModUnique(k, 10, 6 * (k / 60) + r / 10, r % 10);
    }
    DivModUnique(r, 12, r / 12, k % 12) by {
      DivModUnique(k, 12, 5 * (k / 60) + r / 12, r % 12);
    }
    CycleUnique(j, r);
  }

  /** Chinese remainder theorem for 10 and 12: a position in 0..59 is fixed
      by its residues modulo 10 and 12. */
  lemma CycleUnique(i: int, j: int)
    requires 0 <= i < 60 && 0 <= j < 60
    requires i % 10 == j % 10 && i % 12 == j % 12
    ensures i == j
  {
    var d := i - j;
    DivModUnique(d, 10, i / 10 - j / 10, 0);
    DivModUnique(d, 12, i / 12 - j / 12, 0);
    var a, b := d / 10, d / 12;
    assert d == 10 * a && d == 12 * b;
    assert 5 * a == 6 * b;
    DivModUnique(5 * a, 6, b, 0);
    var c := a / 6;
    assert a == 6 * c + a % 6;
    // 5a is a multiple of 6, so a % 6 == 0 and d is a multiple of 60.
    var r := a % 6;
    assert 5 * a == 30 * c + 5 * r;
    assert (5 * r) % 6 == 0 by {
      DivModUnique(5 * a, 6, 5 * c + (5 * r) / 6, (5 * r) % 6);
    }
    assert r == 0;
    assert d == 60 * c;
  }

  /** Year pillar: stem `(year - 4) % 10` and branch `(year - 4) % 12`, both
      normalised; the Lichun year boundary is not applied. */
  function YearPillar(year: int): (p: PillarIndex)
    ensures p == FromCycle(year - 4)
    ensures p.branch == YearBranchIndex(year)
  {
    PillarIndex(Normalize(JsRem(year - 4, 10), 10), Normalize(JsRem(year - 4, 12), 12))
  }

  /** The "Five Tigers" rule: the stem of the 寅 month for each year stem
      modulo 5 (甲己 → 丙, 乙庚 → 戊, 丙辛 → 庚, 丁壬 → 壬, 戊癸 → 甲). */
  const FIVE_TIGERS: seq<StemIndex> := [2, 4, 6, 8, 0]

  /** Counting k stems on from an even (Yang) stem lands on a stem of the
      parity of k. */
  lemma ParityShift(start: int, k: int)
    requires start % 2 == 0
    ensures ((start + k) % 10) % 2 == k % 2
  {
    EvenModParity(start + k, 5);
    DivModUnique(start + k, 2, start / 2 + k / 2, k % 2);
  }

  /** The month branch: calendar month m maps to branch (m + 1) mod 12, but a
      November date before the 4th is moved to 丑. */
  function MonthBranch(month: int, dayOfMonth: int): (b: BranchIndex)
    requires 1 <= month <= 12
    ensures month == 11 && dayOfMonth < 4 ==> b == 1
    ensures !(month == 11 && dayOfMonth < 4) ==> b == (month + 1) % 12
  {
    var idx := JsRem(month + 1, 12);
    if idx == 0 && dayOfMonth < 4 then 1 else idx
  }

  function MonthPillar(yearStem: StemIndex, month: int, dayOfMonth: int): (p: PillarIndex)
    requires 1 <= month <= 12
    ensures Sexagenary(p)
    ensures p.branch == MonthBranch(month, dayOfMonth)
  {
    var yearStemIdx := yearStem % 5;
    var monthStartStem := (yearStemIdx * 2 + 2) % 10;
    var monthBranchIdx := MonthBranch(month, dayOfMonth);
    var monthStemIdx := (monthStartStem + (monthBranchIdx - 2 + 12) % 12) % 10;
    EvenModParity(monthBranchIdx - 2 + 12, 6);
    EvenModParity(yearStemIdx * 2 + 2, 5);
    ParityShift(monthStartStem, (monthBranchIdx - 2 + 12) % 12);
    PillarIndex(monthStemIdx, monthBranchIdx)
  }

  /** Months run through consecutive stems starting from the Five-Tigers stem
      in January (the 寅 month of this calendar), through December (丑). */
  lemma FiveTigersRule(yearStem: StemIndex, month: int, dayOfMonth: int)
    requires 1 <= month <= 12
    requires !(month == 11 && dayOfMonth < 4)
    ensures MonthPillar(yearStem, month, dayOfMonth).stem == (FIVE_TIGERS[yearStem % 5] + month - 1) % 10
  {
    assert (MonthBranch(month, dayOfMonth) - 2 + 12) % 12 == month - 1;
    assert (yearStem % 5 * 2 + 2) % 10 == FIVE_TIGERS[yearStem % 5];
  }

  /** The Five-Tigers stem for every date, the first three days of November
      counting as December. */
  lemma MonthStemRule(yearStem: StemIndex, month: int, dayOfMonth: int)
    requires 1 <= month <= 12
    ensures !(month == 11 && dayOfMonth < 4) ==>
      MonthPillar(yearStem, month, dayOfMonth).stem == (FIVE_TIGERS[yearStem % 5] + month - 1) % 10
    ensures month == 11 && dayOfMonth < 4 ==>
      MonthPillar(yearStem, month, dayOfMonth).stem == (FIVE_TIGERS[yearStem % 5] as int + 11) % 10
  {
    if month == 11 && dayOfMonth < 4 {
      EarlyNovemberIsDecember(yearStem, dayOfMonth, 1);
      FiveTigersRule(yearStem, 12, 1);
    } else {
      FiveTigersRule(yearStem, month, dayOfMonth);
    }
  }

  /** The first three days of November take the December pillar. */
  lemma EarlyNovemberIsDecember(yearStem: StemIndex, dayOfMonth: int, decemberDay: int)
    requires dayOfMonth < 4
    ensures MonthPillar(yearStem, 11, dayOfMonth) == MonthPillar(yearStem, 12, decemberDay)
  {
  }

  /** 2000-01-01, a 戊午 day. */
  const REF_DATE := Date(2000, 1, 1)
  const REF_STEM := 4
  const REF_BRANCH := 6

  /** Civil days from the reference date (negative before it). */
  function DayDiff(d: Date): int
    requires ValidDate(d)
  {
    DayNumber(d) - DayNumber(REF_DATE)
  }

  function DayPillar(d: Date): (p: PillarIndex)
    requires ValidDate(d)
    ensures p == FromCycle(54 + DayDiff(d))
  {
    var diffDays := DayDiff(d);
    PillarIndex(Normalize(JsRem(REF_STEM + diffDays, 10), 10),
                Normalize(JsRem(REF_BRANCH + diffDays, 12), 12))
  }

  /** The day pillar as the source computes it: the calculation date is
      rebuilt with `new Date(year, month, day)`, which reads the years 0..99
      as 1900..1999, before the days to the reference date are counted. */
  function DayPillarAsWritten(d: Date): (p: PillarIndex)
    requires ValidDate(d)
    ensures p == FromCycle(54 + DayDiff(d) + (ConstructedDayNumber(d) - DayNumber(d)))
  {
    var diffDays := ConstructedDayNumber(d) - DayNumber(REF_DATE);
    PillarIndex(Normalize(JsRem(REF_STEM + diffDays, 10), 10),
                Normalize(JsRem(REF_BRANCH + diffDays, 12), 12))
  }

  /** Shifting a position by whole cycles keeps the pillar. */
  lemma {:induction false} FromCycleShift(k: int, n: int)
    ensures FromCycle(k + 60 * n) == FromCycle(k)
  {
    DivModUnique(k + 60 * n, 10, k / 10 + 6 * n, k % 10);
    DivModUnique(k + 60 * n, 12, k / 12 + 5 * n, k % 12);
  }

  /** A shift of 1900 years of days, 11 566 whole cycles, keeps the pillar;
      one day more moves it one step. */
  lemma CenturyOffset(k: int, extra: int)
    requires extra == 0 || extra == 1
    ensures FromCycle(k + 693960 + extra) == if extra == 0 then FromCycle(k) else Succ(FromCycle(k))
    ensures Succ(FromCycle(k)) != FromCycle(k)
  {
    FromCycleShift(k + extra, 11566);
    FromCycleSucc(k);
  }

  /** 1900 years are 11 566 whole sixty-day cycles, so the source's day
      pillar is the civil day's for every year except January and February
      of year 0, where the missing 1900-02-29 puts it one step ahead. */
  lemma DayPillarAsWrittenShift(d: Date)
    requires ValidDate(d)
    ensures d.year == 0 && d.month <= 2 ==> DayPillarAsWritten(d) == Succ(DayPillar(d))
    ensures DayPillarAsWritten(d) == DayPillar(d) <==> !(d.year == 0 && d.month <= 2)
  {
    var k := 54 + DayDiff(d);
    if 0 <= d.year <= 99 {
      CenturyShift(d);
      CenturyOffset(k, if d.year == 0 && d.month <= 2 then 1 else 0);
    }
  }

  /** Born on 0000-01-01, the source gives the day pillar of the following
      day, and 0000-02-29 and 0000-03-01 share one pillar. */
  lemma YearZeroDayPillar()
    ensures ValidDate(Date(0, 1, 1)) && ValidDate(Date(0, 2, 29)) && NextDay(Date(0, 2, 29)) == Date(0, 3, 1)
    ensures DayPillarAsWritten(Date(0, 1, 1)) == Succ(DayPillar(Date(0, 1, 1)))
    ensures DayPillarAsWritten(Date(0, 2, 29)) == DayPillarAsWritten(Date(0, 3, 1))
  {
    DayPillarAsWrittenShift(Date(0, 1, 1));
    DayPillarAsWrittenShift(Date(0, 2, 29));
    DayPillarAsWrittenShift(Date(0, 3, 1));
    DayPillarNextDay(Date(0, 2, 29));
  }

  /** The reference date is 戊午, position 54 of the cycle. */
  lemma ReferenceDay()
    ensures DayPillar(REF_DATE) == PillarIndex(4, 6)
    ensures HEAVENLY_STEMS[4] == "戊" && EARTHLY_BRANCHES[6] == "午"
    ensures CycleIndex(PillarIndex(4, 6)) == 54
  {
    FromCyclePeriodic(54);
  }

  /** Advancing one position in the sixty-cycle. */
  function Succ(p: PillarIndex): (q: PillarIndex)
  {
    PillarIndex((p.stem + 1) % 10, (p.branch + 1) % 12)
  }

  lemma {:induction false} FromCycleSucc(k: int)
    ensures FromCycle(k + 1) == Succ(FromCycle(k))
  {
    SuccMod(k, 10);
    SuccMod(k, 12);
  }

  lemma {:induction false} SuccMod(k: int, n: int)
    requires n > 0
    ensures (k + 1) % n == (k % n + 1) % n
  {
    var q, r := k / n, k % n;
    assert k == n * q + r;
    if r < n - 1 {
      DivModUnique(k + 1, n, q, r + 1);
      DivModUnique(r + 1, n, 0, r + 1);
    } else {
      assert n * (q + 1) == n * q + n;
      DivModUnique(k + 1, n, q + 1, 0);
      DivModUnique(n, n, 1, 0);
    }
  }

  /** Each civil day moves the day pillar one step along the sixty-cycle. */
  lemma DayPillarNextDay(d: Date)
    requires ValidDate(d)
    ensures DayPillar(NextDay(d)) == Succ(DayPillar(d))
  {
    NextDayNumber(d);
    FromCycleSucc(54 + DayDiff(d));
  }

  /** The "Five Rats" rule: the stem of the 子 hour for each day stem modulo 5
      (甲己 → 甲, 乙庚 → 丙, 丙辛 → 戊, 丁壬 → 庚, 戊癸 → 壬). */
  const FIVE_RATS: seq<StemIndex> := [0, 2, 4, 6, 8]

  function HourPillar(dayStem: StemIndex, hour: int): (p: PillarIndex)
    ensures Sexagenary(p)
    ensures p.branch == TimeBranchIndex(hour)
    ensures p.stem == (FIVE_RATS[dayStem % 5] + p.branch) % 10
  {
    var hourStartStem := (dayStem % 5 * 2) % 10;
    var hourBranchIdx := TimeBranchIndex(hour);
    EvenModParity(dayStem % 5 * 2, 5);
    ParityShift(hourStartStem, hourBranchIdx);
    PillarIndex((hourStartStem + hourBranchIdx) % 10, hourBranchIdx)
  }

  /** The date whose day pillar is used: from 23:00 the next civil day. */
  function CalculationDate(t: SolarTime): (d: Date)
    requires ValidSolarTime(t)
    ensures ValidDate(d)
  {
    if t.hour >= 23 then NextDay(t.date) else t.date
  }

  datatype FourPillars = FourPillars(year: PillarIndex, month: PillarIndex, day: PillarIndex, hour: PillarIndex)

  /** `calculateBaZi` on table indices: the year pillar, the month pillar
      from the year stem, the day pillar of the calculation date and the hour
      pillar from the day stem. */
  function CalculatePillars(t: SolarTime): (c: FourPillars)
    requires ValidSolarTime(t)
    ensures Sexagenary(c.year) && Sexagenary(c.month) && Sexagenary(c.day) && Sexagenary(c.hour)
    ensures c.year == FromCycle(t.date.year - 4)
    ensures c.month.branch == (if t.date.month == 11 && t.date.day < 4 then 1 else (t.date.month + 1) % 12)
    ensures c.day == FromCycle(54 + DayDiff(CalculationDate(t)))
    ensures c.hour.branch == TimeBranchIndex(t.hour)
    ensures c.month.stem == (FIVE_TIGERS[c.year.stem % 5] + MonthsFromTiger(t.date)) % 10
    ensures c.hour.stem == (FIVE_RATS[c.day.stem % 5] + c.hour.branch) % 10
  {
    PillarsByCycle(t);
    PillarsByStemRules(t);
    PillarsOf(t)
  }

  /** The pillars in the order the source computes them. */
  function PillarsOf(t: SolarTime): FourPillars
    requires ValidSolarTime(t)
  {
    var year := YearPillar(t.date.year);
    var month := MonthPillar(year.stem, t.date.month, t.date.day);
    var day := DayPillar(CalculationDate(t));
    var hour := HourPillar(day.stem, t.hour);
    FourPillars(year, month, day, hour)
  }

  /** Months counted from the 寅 month (January in this calendar), with the
      first three days of November counted as December. */
  function MonthsFromTiger(d: Date): int
  {
    if d.month == 11 && d.day < 4 then 11 else d.month - 1
  }

  lemma PillarsByCycle(t: SolarTime)
    requires ValidSolarTime(t)
    ensures Sexagenary(PillarsOf(t).year) && Sexagenary(PillarsOf(t).month)
    ensures Sexagenary(PillarsOf(t).day) && Sexagenary(PillarsOf(t).hour)
    ensures PillarsOf(t).year == FromCycle(t.date.year - 4)
    ensures PillarsOf(t).month.branch == (if t.date.month == 11 && t.date.day < 4 then 1 else (t.date.month + 1) % 12)
    ensures PillarsOf(t).day == FromCycle(54 + DayDiff(CalculationDate(t)))
    ensures PillarsOf(t).hour.branch == TimeBranchIndex(t.hour)
  {
  }

  lemma PillarsByStemRules(t: SolarTime)
    requires ValidSolarTime(t)
    ensures PillarsOf(t).month.stem == (FIVE_TIGERS[PillarsOf(t).year.stem % 5] + MonthsFromTiger(t.date)) % 10
    ensures PillarsOf(t).hour.stem == (FIVE_RATS[PillarsOf(t).day.stem % 5] + PillarsOf(t).hour.branch) % 10
  {
    var c := PillarsOf(t);
    MonthStemRule(c.year.stem, t.date.month, t.date.day);
  }

  /** `calculateBaZi` on table indices as written: the day pillar (and the
      hour stem that follows from it) uses `DayPillarAsWritten`. It differs
      from `CalculatePillars` only when the calculation date falls in
      January or February of year 0. */
  function CalculatePillarsAsWritten(t: SolarTime): (c: FourPillars)
    requires ValidSolarTime(t)
    ensures c.year == CalculatePillars(t).year && c.month == CalculatePillars(t).month
    ensures c.hour.branch == CalculatePillars(t).hour.branch
    ensures c == CalculatePillars(t) <==> !(CalculationDate(t).year == 0 && CalculationDate(t).month <= 2)
  {
    var year := YearPillar(t.date.year);
    var month := MonthPillar(year.stem, t.date.month, t.date.day);
    var day := DayPillarAsWritten(CalculationDate(t));
    var hour := HourPillar(day.stem, t.hour);
    DayPillarAsWrittenShift(CalculationDate(t));
    FourPillars(year, month, day, hour)
  }

  /** The Rat-hour rule: from 23:00 the day pillar is the next civil day's,
      while the year and month pillars still come from the unshifted date and
      the hour is 子. */
  lemma RatHourShift(t: SolarTime)
    requires ValidSolarTime(t) && t.hour >= 23
    ensures CalculatePillars(t).day == Succ(DayPillar(t.date))
    ensures CalculatePillars(t).year == CalculatePillars(SolarTime(t.date, 0)).year
    ensures CalculatePillars(t).month == CalculatePillars(SolarTime(t.date, 0)).month
    ensures CalculatePillars(t).hour.branch == 0
  {
    DayPillarNextDay(t.date);
  }

  /** 23:xx on one day and 00:xx on the next share their day and hour pillars. */
  lemma RatHourBoundary(d: Date)
    requires ValidDate(d)
    ensures CalculatePillars(SolarTime(d, 23)).day == CalculatePillars(SolarTime(NextDay(d), 0)).day
    ensures CalculatePillars(SolarTime(d, 23)).hour == CalculatePillars(SolarTime(NextDay(d), 0)).hour
  {
  }

  /** A pillar as the source stores it: stem and branch characters and a tag. */
  datatype Pillar = Pillar(stem: string, branch: string, element: string)

  datatype BaZiChart = BaZiChart(year: Pillar, month: Pillar, day: Pillar, hour: Pillar)

  function ToPillar(p: PillarIndex, tag: string): (r: Pillar)
    ensures r.stem in HEAVENLY_STEMS && r.branch in EARTHLY_BRANCHES
  {
    Pillar(HEAVENLY_STEMS[p.stem], EARTHLY_BRANCHES[p.branch], tag)
  }

  /** `calculateBaZi` without the solar-time string: pillar characters taken
      from the stem and branch tables, tagged 命, 提, 元 and 時. */
  function CalculateBaZi(t: SolarTime): (c: BaZiChart)
    requires ValidSolarTime(t)
    ensures c.year.stem in HEAVENLY_STEMS && c.year.branch in EARTHLY_BRANCHES
    ensures c.month.stem in HEAVENLY_STEMS && c.month.branch in EARTHLY_BRANCHES
    ensures c.day.stem in HEAVENLY_STEMS && c.day.branch in EARTHLY_BRANCHES
    ensures c.hour.stem in HEAVENLY_STEMS && c.hour.branch in EARTHLY_BRANCHES
    ensures c.hour.branch == EARTHLY_BRANCHES[TimeBranchIndex(t.hour)]
    ensures c.year.stem == HEAVENLY_STEMS[(t.date.year - 4) % 10]
    ensures c.year.branch == EARTHLY_BRANCHES[(t.date.year - 4) % 12]
    ensures c.month.branch == EARTHLY_BRANCHES[if t.date.month == 11 && t.date.day < 4 then 1 else (t.date.month + 1) % 12]
    ensures c.day.stem == HEAVENLY_STEMS[DayCycle(t) % 10]
    ensures c.day.branch == EARTHLY_BRANCHES[DayCycle(t) % 12]
    ensures c.month.stem == HEAVENLY_STEMS[MonthStemByRule(t)]
    ensures c.hour.stem == HEAVENLY_STEMS[(FIVE_RATS[DayCycle(t) % 10 % 5] + TimeBranchIndex(t.hour)) % 10]
  {
    ChartByCycle(t);
    ChartByStemRules(t);
    ChartOf(t)
  }

  /** The characters of the calculated pillars, tagged 命, 提, 元 and 時. */
  function ChartOf(t: SolarTime): BaZiChart
    requires ValidSolarTime(t)
  {
    var ps := CalculatePillars(t);
    BaZiChart(ToPillar(ps.year, "命"), ToPillar(ps.month, "提"), ToPillar(ps.day, "元"), ToPillar(ps.hour, "時"))
  }

  lemma ChartByCycle(t: SolarTime)
    requires ValidSolarTime(t)
    ensures ChartOf(t).year.stem in HEAVENLY_STEMS && ChartOf(t).year.branch in EARTHLY_BRANCHES
    ensures ChartOf(t).month.stem in HEAVENLY_STEMS && ChartOf(t).month.branch in EARTHLY_BRANCHES
    ensures ChartOf(t).day.stem in HEAVENLY_STEMS && ChartOf(t).day.branch in EARTHLY_BRANCHES
    ensures ChartOf(t).hour.stem in HEAVENLY_STEMS && ChartOf(t).hour.branch in EARTHLY_BRANCHES
    ensures ChartOf(t).hour.branch == EARTHLY_BRANCHES[TimeBranchIndex(t.hour)]
    ensures ChartOf(t).year.stem == HEAVENLY_STEMS[(t.date.year - 4) % 10]
    ensures ChartOf(t).year.branch == EARTHLY_BRANCHES[(t.date.year - 4) % 12]
    ensures ChartOf(t).month.branch == EARTHLY_BRANCHES[if t.date.month == 11 && t.date.day < 4 then 1 else (t.date.month + 1) % 12]
    ensures ChartOf(t).day.stem == HEAVENLY_STEMS[DayCycle(t) % 10]
    ensures ChartOf(t).day.branch == EARTHLY_BRANCHES[DayCycle(t) % 12]
  {
    var ps := CalculatePillars(t);
    assert ps.day == FromCycle(DayCycle(t));
  }

  lemma ChartByStemRules(t: SolarTime)
    requires ValidSolarTime(t)
    ensures ChartOf(t).month.stem == HEAVENLY_STEMS[MonthStemByRule(t)]
    ensures ChartOf(t).hour.stem == HEAVENLY_STEMS[(FIVE_RATS[DayCycle(t) % 10 % 5] + TimeBranchIndex(t.hour)) % 10]
  {
    PillarRules(t);
  }

  /** The position of the calculation date in the sixty-day cycle, counted
      from 甲子 (2000-01-01 is position 54). */
  function DayCycle(t: SolarTime): int
    requires ValidSolarTime(t)
  {
    54 + DayDiff(CalculationDate(t))
  }

  /** The month stem by the Five-Tigers rule, with the first three days of
      November counted as December. */
  function MonthStemByRule(t: SolarTime): StemIndex
    requires ValidSolarTime(t)
  {
    (FIVE_TIGERS[(t.date.year - 4) % 10 % 5] + MonthsFromTiger(t.date)) % 10
  }

  /** The pillar indices by their rules, in terms of the calculation date's
      cycle position and the Five-Tigers month stem. */
  lemma PillarRules(t: SolarTime)
    requires ValidSolarTime(t)
    ensures CalculatePillars(t).day == FromCycle(DayCycle(t))
    ensures CalculatePillars(t).month.stem == MonthStemByRule(t)
    ensures CalculatePillars(t).hour.stem == (FIVE_RATS[DayCycle(t) % 10 % 5] + TimeBranchIndex(t.hour)) % 10
  {
  }

  /** Every character of the chart names its pillar index: looking a
      character up in its table gives back the index `CalculatePillars`
      computed, so `ToPillar` loses nothing. */
  lemma ChartIndices(t: SolarTime)
    requires ValidSolarTime(t)
    ensures IndexOf(HEAVENLY_STEMS, CalculateBaZi(t).year.stem) == CalculatePillars(t).year.stem
    ensures IndexOf(EARTHLY_BRANCHES, CalculateBaZi(t).year.branch) == CalculatePillars(t).year.branch
    ensures IndexOf(HEAVENLY_STEMS, CalculateBaZi(t).month.stem) == CalculatePillars(t).month.stem
    ensures IndexOf(EARTHLY_BRANCHES, CalculateBaZi(t).month.branch) == CalculatePillars(t).month.branch
    ensures IndexOf(HEAVENLY_STEMS, CalculateBaZi(t).day.stem) == CalculatePillars(t).day.stem
    ensures IndexOf(EARTHLY_BRANCHES, CalculateBaZi(t).day.branch) == CalculatePillars(t).day.branch
    ensures IndexOf(HEAVENLY_STEMS, CalculateBaZi(t).hour.stem) == CalculatePillars(t).hour.stem
    ensures IndexOf(EARTHLY_BRANCHES, CalculateBaZi(t).hour.branch) == CalculatePillars(t).hour.branch
  {
    var c := CalculatePillars(t);
    BranchAndStemTables();
    TableIndex(HEAVENLY_STEMS, c.year.stem);
    TableIndex(EARTHLY_BRANCHES, c.year.branch);
    TableIndex(HEAVENLY_STEMS, c.month.stem);
    TableIndex(EARTHLY_BRANCHES, c.month.branch);
    TableIndex(HEAVENLY_STEMS, c.day.stem);
    TableIndex(EARTHLY_BRANCHES, c.day.branch);
    TableIndex(HEAVENLY_STEMS, c.hour.stem);
    TableIndex(EARTHLY_BRANCHES, c.hour.branch);
  }
}
