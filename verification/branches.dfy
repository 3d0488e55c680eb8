/** Indices into the stem and branch tables and the two branch helpers of
    `utils/astrologyUtils.ts`: the double-hour branch of a clock hour and the
    branch of a year. */
module Branches {

  import opened JsMath

  type StemIndex = i: int | 0 <= i < 10
  type BranchIndex = i: int | 0 <= i < 12

  /** `getTimeBranchIndex`: branch 0 (子) covers 23:00-00:59; branch r > 0
      covers the two hours 2r-1 and 2r. Total on every integer hour. */
  function TimeBranchIndex(hour: int): (r: BranchIndex)
    ensures r == 0 <==> (hour >= 23 || hour < 1)
    ensures 1 <= hour < 23 ==> 2 * r - 1 <= hour <= 2 * r
  {
    if hour >= 23 || hour < 1 then 0 else (hour + 1) / 2
  }

  /** Each non-Rat branch r owns exactly the clock hours 2r-1 and 2r. */
  lemma TimeBranchWindows(hour: int, r: BranchIndex)
    requires r > 0
    ensures TimeBranchIndex(hour) == r <==> hour == 2 * r - 1 || hour == 2 * r
  {
  }

  /** `getYearBranchIndex`: the branch of a year, the Rat (子) falling on
      years congruent to 4 modulo 12 (1984, 1996, 2008, ...). */
  function YearBranchIndex(year: int): (r: BranchIndex)
    ensures r == (year - 4) % 12
  {
    Wrap(year - 4, 12)
  }

  /** The year branch repeats every twelve years and advances by one each year. */
  lemma {:induction false} YearBranchCycle(year: int)
    ensures YearBranchIndex(year + 12) == YearBranchIndex(year)
    ensures YearBranchIndex(year + 1) == (YearBranchIndex(year) + 1) % 12
  {
    var r := YearBranchIndex(year);
    var q := (year - 4) / 12;
    DivModUnique(year + 12 - 4, 12, q + 1, r);
    if r < 11 {
      DivModUnique(year + 1 - 4, 12, q, r + 1);
    } else {
      DivModUnique(year + 1 - 4, 12, q + 1, 0);
    }
  }
}
