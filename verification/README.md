# Tianji calculation engine in Dafny

A model of the deterministic engine of the Tianji astrology app
(`utils/astrologyUtils.ts` with the tables of `constants.ts`), with proofs of
what it computes:

- **Branch helpers.** The double-hour branch of a clock hour
  (`getTimeBranchIndex`) and the branch of a year (`getYearBranchIndex`).
- **Four pillars (BaZi).** `calculateBaZi` on a true-solar date and hour:
  - the year pillar from `(year - 4)`;
  - the month pillar by the Five-Tigers rule, with early November moved to 丑;
  - the day pillar counted in civil days from 2000-01-01 (戊午), with the
    Rat-hour shift to the next day from 23:00 (see Findings for years 0..99);
  - the hour pillar by the Five-Rats rule.
- **Five-element distribution.** `calculateFiveElementsScore` in exact
  tenths (stem 10, branch 12): the rounded percentages and the stable sort
  by descending score.
- **Twelve-palace chart.** `calculateChart`:
  - the Life Palace (命宮) anchor and the backwards rotation of the twelve
    roles;
  - decade age windows and palace stems;
  - the placeholder star placement driven by
    `(timestamp + i) % 100`.
- **Interpretations.** `getSpecificStarInterpretation` and
  `getPillarDetailedMeaning`, with their exact template text, including the
  empty-string cases.

Modules, one file each:

| file | module | contents |
|---|---|---|
| `wrappers.dfy` | `Wrappers` | `Option`, the model of `undefined` |
| `jsmath.dfy` | `JsMath` | JavaScript `%` (truncating), the source's `if (x < 0) x += n` normalisation, `Math.round`, out-of-range array reads |
| `jsstring.dfy` | `JsString` | `split`, `substring(0, n)`, `indexOf`, `${}` of numbers and of `undefined` |
| `calendar.dfy` | `Calendar` | proleptic Gregorian dates, day numbers, UTC-midnight timestamps |
| `tables.dfy` | `Tables` | the tables of `constants.ts` and their shape |
| `branches.dfy` | `Branches` | stem and branch index types, the two branch helpers |
| `elements.dfy` | `Elements` | the element tables, the generating and overcoming cycles |
| `bazi.dfy` | `BaZi` | the four-pillar calculator and the sexagenary cycle |
| `five_elements.dfy` | `FiveElements` | the score table, rounding and the stable sort |
| `palaces.dfy` | `Palaces` | the twelve-palace chart, as written and corrected |
| `interpretation.dfy` | `Interpretation` | the star and pillar readings |

Two places where the code's behaviour differs from what its comments and
layout suggest. The model follows the code in both:

- **Empty readings exist.** 天魁, 天鉞, 地空 and 地劫 are in the minor-star
  pool but have no dictionary entry, so their reading is the empty string
  in every palace. See `Tables.UndescribedMinorStars` and
  `Interpretation.StarInterpretation`.
- **Group counts differ by palace.** The Life Palace has four star groups
  and no fallback sentence. The Spouse, Wealth and Career palaces have
  three groups and a fallback sentence.

Under the corrected hash, a placed major star can only be 紫微, 廉貞,
武曲, 天府, 七殺, 巨門 or 破軍. The hash of slot i is i on every date, so
the placement follows from `Palaces.StarsIgnoreDate`.

## Model

| member | source | states |
|---|---|---|
| Branches.TimeBranchIndex | utils/astrologyUtils.ts:6-9 | the branch is 0 (子) exactly when the hour is at least 23 or below 1; otherwise branch r is the one whose hours 2r-1..2r contain the hour; always within 0..11 |
| Branches.TimeBranchWindows | utils/astrologyUtils.ts:6-9 | every branch r > 0 is returned for exactly the two clock hours 2r-1 and 2r |
| Branches.YearBranchIndex | utils/astrologyUtils.ts:12-16 | the year branch is the Euclidean (year - 4) mod 12, also for years below 4 |
| Branches.YearBranchCycle | utils/astrologyUtils.ts:12-16 | the year branch repeats every 12 years and advances by one (mod 12) each year |
| JsMath.JsRem | utils/astrologyUtils.ts:269-277 | JavaScript `%`: strictly between -n and n, with the sign of the dividend, and equal to the Euclidean remainder or that minus n |
| JsMath.Wrap | utils/astrologyUtils.ts:13-14 | the remainder followed by `if (idx < 0) idx += n` lies in 0..n-1 and is the Euclidean remainder |
| JsMath.JsRound | utils/astrologyUtils.ts:74 | `Math.round(p / q)` is within half of p / q, with halves rounded up, and lies in 0..100 for shares of a percent |
| JsString.Split | utils/astrologyUtils.ts:114 | `split` yields at least one field and no field contains the separator |
| JsString.SplitJoin | utils/astrologyUtils.ts:114 | joining the fields of a split with the same separator gives back the string |
| JsString.SplitHasSecondField | utils/astrologyUtils.ts:114 | a split has a second field exactly when the separator occurs |
| JsString.SplitFirst | utils/astrologyUtils.ts:114 | without the separator the split is the whole string; otherwise the first field runs up to the first separator and the other fields are the split of the text after it |
| JsString.Field | utils/astrologyUtils.ts:144 | `split(sep)[k]` is defined exactly when k is below the number of fields, never contains the separator, and field 0 is the text before the first separator (all of it when there is none) |
| JsString.FieldNext | utils/astrologyUtils.ts:144 | field k + 1 is field k of the text after the first separator |
| JsString.Prefix | utils/astrologyUtils.ts:129 | `substring(0, n)` is a prefix of length min(n, length) |
| JsString.IndexOf | utils/astrologyUtils.ts:150 | `indexOf` is -1 exactly when the value is absent, otherwise the first position holding it |
| JsString.DecimalText | utils/astrologyUtils.ts:290 | a number prints as decimal digits without leading zeros |
| JsString.DecimalRoundTrip | utils/astrologyUtils.ts:290 | reading back the printed digits gives the number |
| Calendar.DaysInMonth | utils/astrologyUtils.ts:188-191 | months have 28..31 days, and February has 29 exactly in Gregorian leap years |
| Calendar.NextDay | utils/astrologyUtils.ts:188-191 | `setDate(getDate() + 1)` gives a valid date |
| Calendar.NextDayNumber | utils/astrologyUtils.ts:188-191 | the next calendar day is exactly one day later in the day count, across month ends, year ends and February 29th |
| Calendar.DaysBeforeNextYear | utils/astrologyUtils.ts:216-219 | consecutive New Year's days are a year length apart in the day count |
| Calendar.ConstructedDayNumber | utils/astrologyUtils.ts:217 | `new Date(y, m, d)` counts the same days as the civil date outside the years 0..99 |
| Calendar.CenturyLeap | utils/astrologyUtils.ts:217 | a year in 1..99 and the year 1900 later agree in leap status; year 0 is a leap year and 1900 is not |
| Calendar.CenturyShift | utils/astrologyUtils.ts:217 | for the years 0..99, `new Date(y, m, d)` is 693 960 days after the civil date, and one day more in January and February of year 0 |
| Calendar.UtcMidnightMillis | utils/astrologyUtils.ts:252 | the timestamp of a date-only string is a whole number of days of milliseconds, and negative exactly before 1970-01-01 |
| Calendar.UtcMidnightMillisStep | utils/astrologyUtils.ts:252 | 1970-01-01 has timestamp 0 and each next calendar day adds 86 400 000 milliseconds |
| Tables.BranchAndStemTables | constants.ts:1-7 | 12 distinct branches and 10 distinct stems |
| Tables.PalaceNameTable | constants.ts:13-16 | 12 distinct role names with 命宮 first |
| Tables.StarPools | constants.ts:18-26 | 14 distinct major stars and 12 distinct minor stars, and no star is in both lists |
| Tables.MajorStarsDescribed | constants.ts:53-67 | every major star has a dictionary entry |
| Tables.UndescribedMinorStars | constants.ts:23-26 | a minor star lacks a dictionary entry exactly at positions 4, 5, 10 and 11 (天魁, 天鉞, 地空, 地劫) |
| Tables.UnknownStar | constants.ts:53-76 | 祿存 has no dictionary entry |
| Tables.StarNamesHaveTwoCharacters | constants.ts:53-76 | every dictionary key is two characters long |
| Tables.DescriptionsHaveComma | constants.ts:53-76 | every description contains a full-width comma |
| Tables.DefinitionKeys | constants.ts:29-50 | the palace definitions are keyed by exactly the role names, and the pillar definitions by exactly the four pillar labels |
| Tables.PillarAgeBands | constants.ts:45-50 | each pillar's age text spells its band: 1-16, 17-32, 33-48, then 49 onwards; the bands meet without gap or overlap |
| Elements.ElementCharInjective | utils/astrologyUtils.ts:42-49 | the five element characters are pairwise different |
| Elements.ElementTablesCover | utils/astrologyUtils.ts:42-49 | the element tables are keyed by exactly the stems and the branches |
| Elements.GeneratingPairsMatch | utils/astrologyUtils.ts:162 | the concatenated element characters are in the five-pair list exactly when the first element generates the second |
| Elements.FourRelationsPartition | utils/astrologyUtils.ts:160-168 | two distinct elements stand in exactly one of: generating either way, or overcoming either way |
| Elements.StemElementsFollowCycle | utils/astrologyUtils.ts:42-45 | stems come in Yang/Yin pairs of one element, starting from Wood and walking the generating cycle |
| Elements.BranchElementCounts | utils/astrologyUtils.ts:46-49 | the storage branches 丑辰未戌 are Earth, and each other element holds two adjacent branches |
| BaZi.FromCycle | utils/astrologyUtils.ts:194-198 | every position of the sixty-cycle is a same-parity stem/branch pair |
| BaZi.CycleIndex | utils/astrologyUtils.ts:194-198 | every same-parity pair has a position in 0..59 that maps back to it |
| BaZi.FromCyclePeriodic | utils/astrologyUtils.ts:194-198 | positions give the same pillar every 60 steps, and the position of a pillar is k mod 60 |
| BaZi.CycleUnique | utils/astrologyUtils.ts:194-198 | a position in 0..59 is fixed by its remainders mod 10 and mod 12 |
| BaZi.YearPillar | utils/astrologyUtils.ts:194-200 | the year pillar is position year - 4 of the cycle, with the year helper's branch, also for years below 4 |
| BaZi.MonthBranch | utils/astrologyUtils.ts:204-207 | the month branch is (month + 1) mod 12, except that November before the 4th is 丑 |
| BaZi.MonthPillar | utils/astrologyUtils.ts:202-214 | the month pillar is a same-parity pair with the month branch |
| BaZi.FiveTigersRule | utils/astrologyUtils.ts:202-208 | the month stem is the Five-Tigers stem of the year stem, plus month - 1 |
| BaZi.EarlyNovemberIsDecember | utils/astrologyUtils.ts:204-208 | the first three days of November take the December pillar |
| BaZi.DayPillar | utils/astrologyUtils.ts:216-233 | the corrected day pillar is cycle position 54 plus the civil days since 2000-01-01 |
| BaZi.DayPillarAsWritten | utils/astrologyUtils.ts:216-233 | as written, the day pillar is cycle position 54 plus the days from 2000-01-01 to `new Date(year, month, day)` |
| BaZi.FromCycleShift | utils/astrologyUtils.ts:224-227 | a shift by whole sixty-day cycles keeps the pillar |
| BaZi.CenturyOffset | utils/astrologyUtils.ts:217-227 | a shift of 693 960 days keeps the pillar, and one more day moves it one step |
| BaZi.DayPillarAsWrittenShift | utils/astrologyUtils.ts:216-233 | the day pillar as written is the civil day's pillar exactly when the date is not in January or February of year 0; there it is one step ahead |
| BaZi.YearZeroDayPillar | utils/astrologyUtils.ts:216-233 | as written, 0000-01-01 gets the next day's pillar, and 0000-02-29 and 0000-03-01 share a pillar |
| BaZi.ReferenceDay | utils/astrologyUtils.ts:216-222 | 2000-01-01 is 戊午, position 54 of the cycle |
| BaZi.FromCycleSucc | utils/astrologyUtils.ts:224-227 | one step along the cycle adds one to the stem mod 10 and to the branch mod 12 |
| BaZi.DayPillarNextDay | utils/astrologyUtils.ts:216-233 | each civil day moves the day pillar one step along the cycle |
| BaZi.HourPillar | utils/astrologyUtils.ts:235-244 | the hour pillar is a same-parity pair whose branch is the hour's branch and whose stem is the Five-Rats stem plus that branch |
| BaZi.CalculationDate | utils/astrologyUtils.ts:188-191 | the date used for the day pillar is a valid date |
| BaZi.CalculatePillars | utils/astrologyUtils.ts:183-244 | all four pillars are same-parity pairs; the year, month branch, day and hour branch follow the rules above; the month stem is the Five-Tigers stem of the year stem plus month - 1 (plus 11 for November 1-3), and the hour stem is the Five-Rats stem of the day stem plus the hour branch |
| BaZi.MonthStemRule | utils/astrologyUtils.ts:202-208 | the Five-Tigers month stem for every date, with November 1-3 counted as December |
| BaZi.CalculatePillarsAsWritten | utils/astrologyUtils.ts:183-244 | the pillars as written agree with the corrected ones in year, month and hour branch, and equal them exactly when the calculation date is not in January or February of year 0 |
| BaZi.RatHourShift | utils/astrologyUtils.ts:183-191 | from 23:00 the day pillar is the next civil day's, year and month stay those of the unshifted date, and the hour is 子 |
| BaZi.RatHourBoundary | utils/astrologyUtils.ts:188-191 | 23:xx on one day and 00:xx on the next share day and hour pillars |
| BaZi.ToPillar | utils/astrologyUtils.ts:196-199 | pillar characters come from the stem and branch tables |
| BaZi.CalculateBaZi | utils/astrologyUtils.ts:179-249 | every pillar character is a table stem or branch, named by its rule: the year characters at position year - 4 of the stem and branch cycles, the month branch by month (丑 for November 1-3) and its stem by the Five-Tigers rule, the day characters at position 54 plus the days since 2000-01-01, the hour branch from the clock hour and its stem by the Five-Rats rule |
| BaZi.ChartIndices | utils/astrologyUtils.ts:196-199 | looking each chart character up in its table gives back the pillar index computed for it, so no information is lost in the characters |
| FiveElements.Percent | utils/astrologyUtils.ts:74 | the percent is 0 for a zero total, otherwise within half a percent of the share (halves up), and within 0..100 |
| FiveElements.TallyCounts | utils/astrologyUtils.ts:53-75 | row k of the unsorted table is element k of 金木水火土; its score is 1.0 per stem and 1.2 per branch of that element among the four pillars, and its percent is its rounded share of the table's total |
| FiveElements.RawScoreCounts | utils/astrologyUtils.ts:55-68 | the pillar-by-pillar `addScore` sum equals the weighted count of the element's stems and branches |
| FiveElements.InsertPermutes | utils/astrologyUtils.ts:77 | an insertion step adds exactly the inserted row and its score and percent |
| FiveElements.InsertSorted | utils/astrologyUtils.ts:77 | an insertion step keeps the list ordered by descending score with ties in table order |
| FiveElements.StableSortPermutes | utils/astrologyUtils.ts:77 | the sort keeps the length and the rows (as a multiset) |
| FiveElements.StableSortSums | utils/astrologyUtils.ts:77 | the sort keeps the sums of scores and percents |
| FiveElements.StableSortSorted | utils/astrologyUtils.ts:77 | a list in strict table order sorts to descending score, with ties in table order |
| FiveElements.FiveElementsScore | utils/astrologyUtils.ts:52-78 | the result is a permutation of the five-row table, sorted by descending score with stable ties; every row carries its element's score and percent; the scores sum to the total |
| FiveElements.TallySum | utils/astrologyUtils.ts:70 | the total is the sum of the five scores |
| FiveElements.SortedTally | utils/astrologyUtils.ts:70-77 | sorting the score table keeps its rows, sums and row contents and orders it |
| FiveElements.OneRowPerElement | utils/astrologyUtils.ts:52-78 | every element has exactly one row in the result |
| FiveElements.RoundedShares | utils/astrologyUtils.ts:74 | five whole percents, each within half a percent of its share, add up to 98..102 |
| FiveElements.PercentSum | utils/astrologyUtils.ts:70-75 | all percents are 0 for a zero total, otherwise they add up to 98..102 |
| FiveElements.PillarContributes | utils/astrologyUtils.ts:55-68 | a pillar whose characters are in the element tables adds 2.2 in total over the five elements: 1.0 for its stem and 1.2 for its branch |
| FiveElements.CalculatedChartTotal | utils/astrologyUtils.ts:65-70 | a chart from the calculator totals 8.8 |
| Palaces.MingIndex | utils/astrologyUtils.ts:253-258 | the Life Palace slot is (month + 1 - hour branch) mod 12, in 0..11 |
| Palaces.MingMonthStep | utils/astrologyUtils.ts:257-258 | a month later moves the Life Palace one slot on |
| Palaces.MingHourStep | utils/astrologyUtils.ts:255-258 | a double hour later moves the Life Palace one slot back; the first month's Rat hour puts it at 寅 |
| Palaces.RoleRotation | utils/astrologyUtils.ts:263-264 | the role of slot i is 0 exactly at the Life Palace slot, roles are injective, and they run backwards |
| Palaces.RoleSlot | utils/astrologyUtils.ts:263-264 | role k is held by slot (ming - k) mod 12 |
| Palaces.HashAsWritten | utils/astrologyUtils.ts:269 | the unnormalised hash lies in -99..99, equals the Euclidean remainder for non-negative input and is at most 0 otherwise |
| Palaces.Hash | utils/astrologyUtils.ts:269 | the normalised hash is the Euclidean remainder, in 0..99 |
| Palaces.HashIsSlot | utils/astrologyUtils.ts:269 | for a date-only timestamp the normalised hash of slot i is i; as written it is i from 1970 on, and before 1970 it is i - 100 for slots 1..11 (slot 0 stays 0) |
| Palaces.MajorStarsShape | utils/astrologyUtils.ts:271-273 | at most two major stars; for a non-negative hash they are real stars and differ |
| Palaces.MinorStarsShape | utils/astrologyUtils.ts:275-277 | at most three minor stars; for a non-negative hash the pool reads as three blocks of four, entry h mod 4 of block one, two or three is placed exactly when h is divisible by 2, 5 or 6, every star sits at position h mod 4 of its block, the blocks strictly increase and no star repeats |
| Palaces.MinorStarsPlaced | utils/astrologyUtils.ts:275-277 | each block's star is placed exactly when its divisibility rule holds |
| Palaces.MinorStarsOrdered | utils/astrologyUtils.ts:275-277 | the placed stars are pool entries at position h mod 4 of strictly increasing blocks, so none repeats |
| Palaces.PalaceStem | utils/astrologyUtils.ts:281 | the palace stem is stem (2i + year) mod 10, and undefined exactly when that remainder is negative |
| Palaces.PalaceStemCycle | utils/astrologyUtils.ts:281 | adjacent palaces' stems are two apart, and stems repeat every ten years |
| Palaces.ChartAsWritten | utils/astrologyUtils.ts:251-295 | the chart as written has twelve palaces, and palace i differs from the corrected chart's palace i at most in its star lists |
| Palaces.AsWrittenLayout | utils/astrologyUtils.ts:260-292 | on every valid date, palace i of the chart as written has id i, branch i, the role and decade of its distance from the Life Palace and the stem `(2i + year) % 10` |
| Palaces.AsWrittenStarsBefore1970 | utils/astrologyUtils.ts:269-277 | before 1970 the chart as written gives slots 1..11 the stars of hash i - 100, and slot 0 the corrected slot 0 |
| Palaces.Chart | utils/astrologyUtils.ts:251-295 | the corrected chart has twelve palaces; palace i has id i and branch i, and its window spans ten years |
| Palaces.ChartRole | utils/astrologyUtils.ts:279-286 | palace i carries the role of its distance from the Life Palace and that role's decade |
| Palaces.ChartRoles | utils/astrologyUtils.ts:263-290 | exactly the Life Palace slot is named 命宮, with ages 2-11, and no two palaces share a role |
| Palaces.LifePalaceAgeRange | utils/astrologyUtils.ts:279-290 | the Life Palace's age window reads "2-11" |
| Palaces.ChartHasEveryRole | utils/astrologyUtils.ts:263-286 | every role name occurs in the chart |
| Palaces.StarsIgnoreDate | utils/astrologyUtils.ts:269-277 | the corrected star placement of slot i does not depend on the birth date |
| Palaces.ChartStars | utils/astrologyUtils.ts:269-277 | every palace holds at most two distinct major and at most three minor stars, all real |
| Palaces.AsWrittenAgreesFrom1970 | utils/astrologyUtils.ts:269 | from 1970-01-01 on the chart as written equals the corrected chart |
| Palaces.DayBeforeEpoch | utils/astrologyUtils.ts:252 | 1969-12-31 has timestamp minus one day |
| Palaces.NegativeHashStars | utils/astrologyUtils.ts:271-273 | hash -99 yields two undefined major stars |
| Palaces.AsWrittenUndefinedStars | utils/astrologyUtils.ts:269-273 | as written, slot 1 of a chart for 1969-12-31 stores two undefined major stars |
| Interpretation.FirstGroup | utils/astrologyUtils.ts:92-100 | the chain of `includes` tests picks the first group holding the star, or none |
| Interpretation.StarInterpretation | utils/astrologyUtils.ts:81-151 | the reading is empty exactly for a star without a dictionary entry, and otherwise opens with 【star星】 |
| Interpretation.OpeningKey | utils/astrologyUtils.ts:88-150 | the first and third characters of the words after the tag identify the palace template: 坐守命, 入, 鎮, 坐守官, or 在 for any other palace |
| Interpretation.PalaceDispatch | utils/astrologyUtils.ts:88-150 | a known star's reading opens with 【star星】坐守命宮。 exactly in the Life Palace, 入夫妻宮。 exactly in the Spouse Palace, 鎮守財帛宮。 exactly in the Wealth Palace, 坐守官祿宮。 exactly in the Career Palace, and with 在, the palace name and 。 in every other palace |
| Interpretation.GroupChoice | utils/astrologyUtils.ts:92-145 | with disjoint groups, a star in group k gets paragraph k and a star in no group gets the fallback |
| Interpretation.LifeParagraph | utils/astrologyUtils.ts:88-101 | the Life Palace reading ends with the paragraph of the star's group, or with 的能量氣場。 when the star is in no group |
| Interpretation.SpouseParagraph | utils/astrologyUtils.ts:105-116 | the Spouse Palace reading ends with the paragraph of the star's group, or with the fallback sentence that quotes the description's second comma field, which exists |
| Interpretation.WealthParagraph | utils/astrologyUtils.ts:120-131 | the Wealth Palace reading ends with the paragraph of the star's group, or with the fallback sentence that quotes the first four characters of the description |
| Interpretation.CareerParagraph | utils/astrologyUtils.ts:135-146 | the Career Palace reading ends with the paragraph of the star's group, or with the fallback sentence that quotes the description's second comma field, which exists |
| Interpretation.QuotedSecondClause | utils/astrologyUtils.ts:114 | the second comma field of a known star's description exists, so the template prints it rather than "undefined" |
| Interpretation.TemplateGroupsDisjoint | utils/astrologyUtils.ts:92-141 | within each of the four palaces no star is in two groups |
| Interpretation.OnlyMatch | utils/astrologyUtils.ts:92-100 | with disjoint groups the first match is the only match |
| Interpretation.LifeGroupsPartitionMajors | utils/astrologyUtils.ts:92-99 | the Life Palace groups partition the major stars |
| Interpretation.LifeGroupsCoverMajors | utils/astrologyUtils.ts:92-100 | in the Life Palace every major star gets a group paragraph and no minor star does |
| Interpretation.SpouseFallbackMajors | utils/astrologyUtils.ts:107-115 | in the Spouse Palace exactly 巨門 and 天梁 among the major stars take the fallback sentence |
| Interpretation.WealthFallbackMajors | utils/astrologyUtils.ts:122-130 | in the Wealth Palace exactly 天機, 天同, 廉貞, 巨門 and 天相 take the fallback sentence |
| Interpretation.CareerFallbackMajors | utils/astrologyUtils.ts:137-145 | in the Career Palace exactly 天府, 天同, 貪狼, 巨門 and 天梁 take the fallback sentence |
| Interpretation.UnlistedWealthStar | utils/astrologyUtils.ts:122 | 祿存 is listed in a Wealth group, but its reading is empty in every palace |
| Interpretation.QuotedFieldsExist | utils/astrologyUtils.ts:114 | the first and second comma fields quoted by the templates exist for every known star |
| Interpretation.ReadingsDistinguishStars | utils/astrologyUtils.ts:85 | readings of two different known stars differ, whatever the palaces |
| Interpretation.MissingNeverGenerates | utils/astrologyUtils.ts:155-164 | an element missing from the tables never forms a generating pair |
| Interpretation.RelateMeaning | utils/astrologyUtils.ts:160-168 | congruent exactly for equal elements, flow exactly when stem generates branch, rooted exactly when branch generates stem, and clash exactly when one overcomes the other |
| Interpretation.RelateSwap | utils/astrologyUtils.ts:160-168 | swapping stem and branch exchanges flow and rooted and keeps congruent and clash |
| Interpretation.RelationTitlesDiffer | utils/astrologyUtils.ts:161-167 | the four relation texts differ in their title's first character |
| Interpretation.PillarMeaning | utils/astrologyUtils.ts:170-176 | the pillar reading is empty exactly for a label other than 年柱, 月柱, 日柱 and 時柱 |
| Interpretation.PillarMeaningShowsRelation | utils/astrologyUtils.ts:154-176 | equal readings of one slot come from pillars in the same relation |
| Interpretation.TablePillarRelation | utils/astrologyUtils.ts:155-156 | a calculated pillar's relation is that of its stem and branch elements |

## Left out

- The equation of time and the longitude correction (utils/astrologyUtils.ts:18-37). They are floating-point trigonometry and `parseFloat`, where `|| 120.0` also turns longitude 0 into 120. The calculator takes the resulting true-solar date and hour as input.
- JavaScript `Date` parsing, time zones and daylight saving. The model reads every date in UTC, so local and UTC calendar fields agree. In the real program:
  - `getMonth`/`getFullYear` of the chart date are local, so a zone west of UTC can shift the month and year by one day.
  - The day difference of the BaZi calculator absorbs zone offsets only within ±12 hours.
- Date strings that do not parse (`NaN` timestamps) and hours outside 0..23 in the calculator. Both are user-input validation.
- The `solarTime` display string and the unused `yearOffset` (utils/astrologyUtils.ts:193, 246).
- FiveElements.FiveElementsScore: scores are exact tenths, not JavaScript doubles. Float summation order could break exact ties that the model sorts stably.
- FiveElements.PercentSum: the bound proved is 98..102. A tighter bound for this five-bucket case is not stated.
- Interpretation.StarInterpretation: `STAR_INFO_MAP[star]` with a key inherited from `Object.prototype` (such as "constructor") is not modelled. The model treats such a key as absent.
- Interpretation.PillarMeaning and FiveElements.FiveElementsScore: the same holds for `STEM_ELEMENTS[x]` and `BRANCH_ELEMENTS[x]` (utils/astrologyUtils.ts:57-58, 155-156); an inherited key is treated as absent. Calculated pillars carry only table characters, so they never reach this case.
- The React UI, the charts, the music player, the LLM service and the worker entry point. These are I/O and rendering.

## Findings

| source | as written | input that shows it | evidently intended | confidence | as-written member | corrected member |
|---|---|---|---|---|---|---|
| utils/astrologyUtils.ts:269 | `(date.getTime() + i) % 100` keeps the sign of a negative timestamp, so before 1970 the hash is i - 100 for slots 1..11 (slot 0 stays 0) and the star indices go negative | birth date 1969-12-31, slot 1: the hash is -99, `-99 % 14` is -1 and `-97 % 14` is -13, so the palace stores two `undefined` major stars | a hash in 0..99, so every placed star is a real table entry and the placement is the same on every date (`Palaces.ChartStars`, `Palaces.StarsIgnoreDate`) | not executed | Palaces.AsWrittenUndefinedStars | Palaces.Chart |
| utils/astrologyUtils.ts:217 | `new Date(year, month, day)` reads the years 0..99 as 1900..1999 (section 21.4.2.1 of ECMA-262), so the day count runs from the date 1900 years later. 1900 years are 693 960 days, which is 11 566 whole sixty-day cycles, so only the missing 1900-02-29 shows | calculation date 0000-01-01: the day count is taken from 1900-01-01, one day more than 1900 years, so the day pillar is the next day's; 0000-02-29 becomes 1900-03-01 and shares its pillar with 0000-03-01 | the civil day's pillar on every date, one step per day (`BaZi.DayPillarNextDay`) | not executed | BaZi.YearZeroDayPillar | BaZi.DayPillar |
