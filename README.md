# lifeCoordinates core, modelled in Dafny

lifeCoordinates turns a birth record into a Chinese four-pillar (八字) chart and a "life
K-line": one candlestick per year of age 1 to 100, plus scored ten-year luck stages (大运) and
an overall summary. The web front end also shows a Zi Wei Dou Shu (紫微斗数) page, and a
separate app draws Major Arcana tarot cards. This project models the deterministic core of
these pieces and proves properties about each one.

- `strings.dfy` (`Strings`): the JavaScript string behaviour the sources rely on. This is
  `trim`, ASCII `toLowerCase`, `includes`/`indexOf`, `padStart`, `String(n)`, `join`, and
  `split(/\s+/g)`. It also holds the `Option` and `Result` types.
- `calendar.dfy` (`Calendar`): proleptic Gregorian dates and millisecond times of day. It
  models how `new Date(y, monthIndex, day, h, mi, s)` normalises its fields, adding
  milliseconds, and reading the fields back.
- `ganzhi.dfy` (`GanZhi`): the stem and branch tables that `kline.ts` and `paipan.ts` each
  declare, defined once here. They cover elements, clash and six-combination pairs, each
  branch's clash partner and 煞 direction, and the generation and restraint cycles.
- `birth.ts` becomes `birth.dfy` (`Birth`): the input schema, the segment-to-clock table, the
  true-solar-time correction and the timestamp printer.
- `paipan.ts` becomes `paipan.dfy` (`Paipan`): pillar details, day-master strength, the
  favourable elements, luck direction and start age, the decade list (including its fallback
  loop), and chart assembly.
- `kline.ts` becomes `kline.dfy` (`KLine`):
  - the relation and clash scores and the pattern adjustment;
  - the year gan-zhi and the 100-year candle loop;
  - the stages, peaks, troughs, trend and total score of the insight.
- `format.ts` becomes `format.dfy` (`Format`): the labels, the date formatter and the time
  formatter.
- `ZiweiStep2.tsx` becomes `ziwei.dfy` (`Ziwei`): the pinyin-to-character conversion, the
  4 x 4 palace grid in its ring order, and the hour picker.
- `Step1.tsx` becomes `birthform.dfy` (`BirthForm`): `clampInt`, `buildRange`,
  `daysInSolarMonth`, the date sheet's open and confirm, and the address keyword search.
- `TarotContext.tsx` becomes `tarot.dfy` (`Tarot`): a class whose fields are the context's
  four pieces of state. Each callback is a method that updates them.

These parts are modelled as the source writes them:
- The loops are methods with invariants, each proved equal to a recursive specification
  function. They are `relationScore`, `estimateClashFactor`, `estimatePatternAdjust`, the
  `generateKLine` year loop, the fallback decade loop, `buildRange`, the address search, the
  gan-zhi transducer and the grid builder.
- The grid builder fills a fresh array.
- The tarot context is a class with `modifies` clauses.

The calendar library (`lunar-javascript`) and the astrolabe library (`iztro`) are not part of
this model. The chart builder's eight-character object is an input record of optional
answers; `None` stands for a method the object lacks. Randomness (`Math.random`) and the clock
(`Date.now`) are parameters of the draw.

## Notes on the code

- A strong day master favours the element the day element generates and the element it
  restrains (`paipan.ts:206-210`).
- The pattern adjustment takes its maximum and minimum over the elements present only, not
  over all five (`kline.ts:137-141`).
- The fallback luck direction reads the year stem, not the day-master stem
  (`paipan.ts:234-238`).
- `dyByAge` falls back to the last decade when no decade covers an age
  (`kline.ts:170`).

## Model

| member | source | states |
|---|---|---|
| GanZhi.StemElementOrTable | packages/core/src/kline.ts:3-14 | a stem's element is the table's entry, and Earth for any stem the table lacks |
| GanZhi.BranchElementOrTable | packages/core/src/kline.ts:16-29 | a branch's element is the table's entry, and Earth for any branch the table lacks |
| GanZhi.CountBranchClash | packages/core/src/kline.ts:60-76 | the count is 0 or 1, and it is 1 exactly when the two branches form a listed clash pair |
| GanZhi.CountBranchSixHe | packages/core/src/kline.ts:78-94 | the count is 0 or 1, and it is 1 exactly when the two branches form a listed six-combination pair |
| GanZhi.ClashPairsSymmetric | packages/core/src/kline.ts:61-74 | every clash pair is two characters long and is listed in both orders |
| GanZhi.SixHePairsSymmetric | packages/core/src/kline.ts:79-92 | every six-combination pair is two characters long and is listed in both orders |
| GanZhi.PairTablesDisjoint | packages/core/src/kline.ts:60-94 | no pair of branches both clashes and combines |
| GanZhi.BranchTablesKeys | packages/core/src/paipan.ts:18-46 | the clash-partner, 煞 and element tables cover the same twelve branches |
| GanZhi.ZhiChongInvolution | packages/core/src/paipan.ts:18-31 | a branch's clash partner is another branch, and that branch's partner is the first branch |
| GanZhi.ZhiChongInClashPairs | packages/core/src/paipan.ts:18-31 | every branch and its clash partner form a pair that the clash counter recognises |
| GanZhi.ClashPairsAreZhiChong | packages/core/src/kline.ts:60-76 | every pair the clash counter recognises is some branch followed by its clash partner |
| GanZhi.GeneratedBy | packages/core/src/paipan.ts:202 | the element returned generates the given element |
| GanZhi.Restrains | packages/core/src/paipan.ts:203 | an element restrains the element two steps ahead of it in the generation cycle |
| GanZhi.RestrainedBy | packages/core/src/paipan.ts:204 | the element returned restrains the given element |
| GanZhi.GenerationCycle | packages/core/src/paipan.ts:201-204 | generation is a five-cycle through distinct elements; restrains, restrained-by and generated-by are its second, third and fourth steps |
| Strings.Trim | packages/core/src/birth.ts:5 | the result is the input with only leading and trailing whitespace removed; it is empty exactly when the input is all whitespace |
| Strings.TrimIdempotent | apps/web/src/pages/ZiweiStep2.tsx:91 | trimming twice is trimming once |
| Strings.TrimUnpadded | apps/web/src/pages/ZiweiStep2.tsx:91 | a string with no whitespace at either end trims to itself |
| Strings.ToLower | apps/web/src/pages/ZiweiStep2.tsx:94 | lowering keeps the length and lowers each character on its own |
| Strings.ToLowerUnchanged | apps/web/src/pages/ZiweiStep2.tsx:94 | a string without capital letters lowers to itself |
| Strings.ToLowerIdempotent | apps/web/src/pages/Step1.tsx:406 | lowering twice is lowering once |
| Strings.ToLowerBlank | apps/web/src/pages/Step1.tsx:404-406 | a keyword is blank after lowering exactly when it was blank before |
| Strings.IndexOfFacts | packages/core/src/paipan.ts:296-297 | `indexOf` is -1 exactly when the needle does not occur; otherwise the needle starts at the index returned and at no earlier index |
| Strings.JsRem | packages/core/src/kline.ts:151 | JavaScript `%` truncates toward zero: the remainder has the dividend's sign and magnitude below the divisor |
| Strings.PadStart | apps/web/src/lib/format.ts:12-14 | the result has the target width or the input's length if longer, ends with the input, and is filled with the pad character before it |
| Strings.NatToString | apps/web/src/lib/format.ts:12 | `String(n)` of a natural number is non-empty decimal digits with no leading zero |
| Strings.IntToString | apps/web/src/lib/format.ts:12 | `String(n)` is the digits of a non-negative number, and a minus sign then the digits of its magnitude otherwise |
| Strings.ParseNatToString | apps/web/src/lib/format.ts:12 | the decimal digits of a number read back as that number |
| Strings.ParseNatLeadingZeros | apps/web/src/lib/format.ts:12-14 | the zeros that `padStart` adds do not change the number the digits read as |
| Strings.Pad2 | apps/web/src/pages/Step1.tsx:24-26 | a number below 100 pads to exactly two digits |
| Strings.ParsePad2 | apps/web/src/pages/Step1.tsx:24-26 | the two padded digits read back as the number |
| Strings.Join | apps/web/src/pages/Step1.tsx:423 | joining no parts gives the empty string, and joining one part gives that part |
| Strings.JoinCons | apps/web/src/pages/Step1.tsx:423 | joining a part in front of a non-empty list puts the part and one separator before the rest |
| Strings.JoinSnoc | apps/web/src/pages/Step1.tsx:418-423 | pushing a part onto a non-empty list appends one separator and the part to the joined text |
| Strings.JoinLength | apps/web/src/pages/Step1.tsx:423 | the joined text is as long as the parts together plus one separator between each two |
| Strings.SplitWhitespace | packages/core/src/paipan.ts:50 | the pieces contain no whitespace and only the first and last may be empty; joined with single spaces they give the input with each whitespace run collapsed to one space, so every cut falls exactly on a whitespace run |
| Strings.SplitJoin | packages/core/src/paipan.ts:50 | splitting pieces of that shape joined by any non-empty whitespace separator gives the pieces back |
| Strings.SplitUnique | packages/core/src/paipan.ts:50 | the split is the only list of that shape whose single-space join is the collapsed input |
| Strings.NonEmpty | packages/core/src/kline.ts:160 | `filter(Boolean)` keeps exactly the non-empty strings and never lengthens the list |
| Strings.NonEmptyAppend | packages/core/src/kline.ts:160 | filtering a concatenation filters each half and keeps their order |
| Calendar.DaysInMonth | apps/web/src/pages/Step1.tsx:33-35 | a month has 28 to 31 days, February has 29 exactly in a leap year, and among the other months exactly April, June, September and November have 30 |
| Calendar.NextPrevInverse | packages/core/src/birth.ts:83-84 | stepping a valid date forward one day and back again, or back and then forward, returns it unchanged |
| Calendar.DayIndexInjective | packages/core/src/birth.ts:84 | two valid dates with the same day number are the same date |
| Calendar.AddDays | packages/core/src/birth.ts:84 | adding k days gives a valid date whose day number is k more |
| Calendar.AddDaysWithinMonth | packages/core/src/birth.ts:83 | adding days that stay inside the month only advances the day of the month |
| Calendar.AddMillis | packages/core/src/birth.ts:84 | adding k milliseconds gives a valid date-time exactly k later on the millisecond timeline |
| Calendar.MakeDateTimeInRange | packages/core/src/birth.ts:83 | for in-range fields, `new Date(y, m - 1, d, h, mi, 0)` is that date at that time, and its hours, minutes and seconds read back unchanged |
| Calendar.DayZeroIsMonthEnd | apps/web/src/pages/Step1.tsx:34 | day 0 of the next month index is the last day of month m, so `getDate()` gives the month's length |
| Calendar.FieldRanges | packages/core/src/birth.ts:89-94 | the hours, minutes and seconds of a valid date-time are in 0-23, 0-59 and 0-59 |
| Birth.ParseLabel | packages/core/src/birth.ts:22-37 | a label is accepted only when it is the text of one of the fourteen segment labels |
| Birth.ParseLabelText | packages/core/src/birth.ts:22-37 | each segment label's text is accepted as that label |
| Birth.ParseGender | packages/core/src/birth.ts:6 | gender is accepted exactly for "male" and "female", as the matching value |
| Birth.ParseCalendar | packages/core/src/birth.ts:7 | calendar is accepted exactly for "solar" and "lunar", as the matching value |
| Birth.ParseTimeValid | packages/core/src/birth.ts:14-39 | the time parses exactly when it is an exact time with an integer hour 0-23 and minute 0-59, or a segment with a listed label |
| Birth.ParseBirthInput | packages/core/src/birth.ts:4-45 | parsing succeeds exactly when every schema rule holds (trimmed non-empty names, listed literals, integer ranges and longitude 70-140); on success the input is valid and carries the trimmed strings, the given numbers, the gender and calendar the literals name and the time the union accepted |
| Birth.ParseRoundTrip | packages/core/src/birth.ts:98-100 | every valid birth input, written back as a raw request, parses to itself |
| Birth.SlotInsideRange | packages/core/src/birth.ts:52-67 | each segment's printed range is eleven characters; a 时辰 range runs from the hour before its chosen hour to the hour after it, and a half day's range contains its chosen hour; the chosen minute is 0 |
| Birth.ShichenHoursDistinct | packages/core/src/birth.ts:53-64 | the twelve 时辰 pick distinct even hours from 0 to 22 |
| Birth.NoteTextShape | packages/core/src/birth.ts:70 | the note is the label, then in parentheses the range, `, 取` and the two-digit hour and minute joined by a colon, which read back as the chosen time |
| Birth.SegmentNoteShape | packages/core/src/birth.ts:69-70 | a segment's note carries its own label, range, hour and minute in that layout |
| Birth.ShichenHourBound | packages/core/src/birth.ts:52-67 | the chosen hour of every segment is at most 22, and its minute is 0 |
| Birth.NormalizeBirthTime | packages/core/src/birth.ts:47-71 | an exact time is passed through without a note; a segment gives its table hour, minute 0 and its note; a valid time always gives a valid clock time |
| Birth.TruncReal | packages/core/src/birth.ts:84 | the result is the real truncated toward zero, as `new Date` does with a fractional time and `Math.trunc` does in the form |
| Birth.DeltaMinutesFacts | packages/core/src/birth.ts:81-82 | the correction is zero exactly on the 120° meridian and positive exactly east of it; across the schema's longitudes it lies between -200 and 80 minutes |
| Birth.CorrectToTrueSolarTime | packages/core/src/birth.ts:73-86 | the local time is `new Date(y, m - 1, d, hour, minute, 0)`; the corrected time is valid and lies the correction's milliseconds later, truncated to a whole millisecond, so it is off by less than one millisecond |
| Birth.NoCorrectionOnMeridian | packages/core/src/birth.ts:81-84 | on the standard meridian the corrected time is the local time |
| Birth.TimelineInjective | packages/core/src/birth.ts:84 | two valid date-times at the same instant are equal |
| Birth.FormatYmdHms | packages/core/src/birth.ts:88-96 | for a four-digit year the stamp is 19 characters with its separators at fixed places |
| Birth.FormatYmdHmsFields | packages/core/src/birth.ts:88-96 | the six fields of the stamp are digits that read back as the year, month, day, hours, minutes and seconds |
| Paipan.SafeArray | packages/core/src/paipan.ts:48-52 | an array passes through; a non-blank string is cut at its whitespace runs: the pieces hold no whitespace, only the first and last may be empty, and joined with single spaces they give the string with each run collapsed; anything else gives the empty list |
| Paipan.ShenSha | packages/core/src/paipan.ts:135-141 | a known branch gets its clash tag and then its 煞 tag; anything else gets no tags |
| Paipan.ShenShaClashTag | packages/core/src/paipan.ts:135-141 | the clash tag names a branch that clashes with the pillar's branch, and whose own clash tag names the pillar's branch |
| Paipan.BuildPillarDetail | packages/core/src/paipan.ts:78-157 | the detail carries the oracle's stem, branch, stem ten god, 12-stage, 空亡 and 纳音 (empty when absent), hidden stems and hidden ten gods taken through `safeArray`, the branch ten god as the first hidden ten god or else the stem's, self-seat falling back to the branch ten god, and the branch's tags |
| Paipan.Support | packages/core/src/paipan.ts:186-192 | an element's support is the element that generates it, then itself |
| Paipan.StrengthScoreValues | packages/core/src/paipan.ts:181-193 | the strength score is one of 0, 1, 2, 3 and 5 |
| Paipan.EvaluateDayMasterStrength | packages/core/src/paipan.ts:159-198 | strong exactly when the season and some hidden stem both match the day element; medium exactly when one of them does; weak exactly when neither does |
| Paipan.PickFavorableElements | packages/core/src/paipan.ts:200-224 | two distinct favourable elements and one (medium) or two unfavourable ones, with no element on both sides; weak exactly when the day element and what generates it are favoured; strong exactly when the day element is disfavoured |
| Paipan.GetLuckDirection | packages/core/src/paipan.ts:226-240 | the library's direction when it answers; otherwise forward exactly for a yang year stem and a male, or a yin year stem and a female |
| Paipan.GetStartLuckAge | packages/core/src/paipan.ts:242-250 | the library's start age when it answers, otherwise 1 |
| Paipan.OracleDecade | packages/core/src/paipan.ts:264-283 | each missing answer of a decade falls back: start age to the chart start age, end age to start plus 9, start year from the solar year and start age, end year to start plus 9, gan-zhi to empty; every answer that is present is kept |
| Paipan.StemsDistinct | packages/core/src/paipan.ts:291 | the ten stems are distinct |
| Paipan.BranchesDistinct | packages/core/src/paipan.ts:292 | the twelve branches are distinct |
| Paipan.NextGanZhi | packages/core/src/paipan.ts:293-301 | the next gan-zhi is always two characters |
| Paipan.IndexOfStem | packages/core/src/paipan.ts:296 | looking a stem up in the stem string finds its own position |
| Paipan.IndexOfBranch | packages/core/src/paipan.ts:297 | looking a branch up in the branch string finds its own position |
| Paipan.NextGanZhiAt | packages/core/src/paipan.ts:293-301 | stepping the gan-zhi at stem a and branch b gives the gan-zhi at a + step and b + step, both wrapping around |
| Paipan.GanZhis | packages/core/src/paipan.ts:309 | the gan-zhi list has one entry per decade, in order |
| Paipan.FallbackDaYun | packages/core/src/paipan.ts:287-312 | the loop builds the eleven-decade fallback list that the fallback predicate describes |
| Paipan.FallbackPush | packages/core/src/paipan.ts:304-311 | one loop turn extends a correct prefix of the fallback list by its next decade |
| Paipan.SteppedWalks | packages/core/src/paipan.ts:309 | in a list where each entry is the step of the one before, every entry is the stem-and-branch step of its predecessor |
| Paipan.FallbackCycle | packages/core/src/paipan.ts:309 | entry i of such a list sits i steps along the sixty-cycle from the first entry |
| Paipan.FallbackWalksCycle | packages/core/src/paipan.ts:309 | all entries of such a list sit on the sixty-cycle walk from the first |
| Paipan.JiaZiIsStart | packages/core/src/paipan.ts:302 | the default base 甲子 is stem 0 and branch 0 |
| Paipan.FallbackContiguous | packages/core/src/paipan.ts:304-311 | the eleven fallback decades are back to back in age and in year, start at the start age and end 109 years later |
| Paipan.FallbackListWalks | packages/core/src/paipan.ts:302-311 | the fallback gan-zhi walk the sixty-cycle from the base, forward for a forward direction and backward otherwise |
| Paipan.FallbackFromJiaZi | packages/core/src/paipan.ts:302-311 | with no month gan-zhi and a forward direction, decade i is stem i mod 10 and branch i mod 12 |
| Paipan.GetDaYunList | packages/core/src/paipan.ts:252-313 | when the library can list its decades, the list maps each of them; otherwise it is the fallback list |
| Paipan.QueryOf | packages/core/src/paipan.ts:316-350 | the library is asked about the input's own year, month and day at the corrected clock time |
| Paipan.Paipan | packages/core/src/paipan.ts:315-407 | the chart carries the four pillar details, the day master and its element, a strength classified from the season and hidden-stem score (strong exactly when both match, weak exactly when neither does), the matching favourable elements, luck start and direction, both printed solar times, the correction and the decade list |
| KLine.Clamp01 | packages/core/src/kline.ts:31-33 | the result lies in [0, 100], is the input when the input is inside, and the nearer bound otherwise |
| KLine.Round | packages/core/src/kline.ts:238 | `Math.round` rounds to the nearest integer, halves upward |
| KLine.RoundBounds | packages/core/src/kline.ts:238 | rounding a value between two integers stays between them |
| KLine.Parts | packages/core/src/kline.ts:41-43 | at most one element from the stem and one from the branch |
| KLine.RelationScore | packages/core/src/kline.ts:35-58 | the loop computes the relation that the hit counts determine |
| KLine.RelationScoreValues | packages/core/src/kline.ts:52-57 | the score is one of 85, 75, 65, 50 and 35; favourable exactly for 85 and 75, unfavourable exactly for 50 and 35 |
| KLine.RelationMeaning | packages/core/src/kline.ts:41-57 | with disjoint element sets: 85 exactly when both parts are favoured, 35 exactly when both are disfavoured, 75 exactly for one favoured and none disfavoured, 50 exactly for one disfavoured and none favoured |
| KLine.ClashOfCounts | packages/core/src/kline.ts:119-121 | the tags are 合 exactly when a combination was counted and 冲 exactly when a clash was counted, in that order, and nothing else |
| KLine.EstimateClashFactor | packages/core/src/kline.ts:103-128 | the loop computes the clash factor that the pair counts determine |
| KLine.ClashFactorTable | packages/core/src/kline.ts:123-127 | two or more clashes give score 35 and delta -15; one gives 50 and -10; otherwise two or more combinations give 70 and delta 5, one gives 65 and delta 5, none gives 60 and delta 0; the delta is negative exactly when there is a clash |
| KLine.BranchCountsSymmetric | packages/core/src/kline.ts:60-94 | both counters are symmetric in their two branches |
| KLine.AllElementsComplete | packages/core/src/kline.ts:137-139 | the element list holds every element |
| KLine.EstimatePatternAdjust | packages/core/src/kline.ts:130-145 | the method computes the pattern score of the pillars' present elements |
| KLine.Tally | packages/core/src/kline.ts:137-138 | the count map has exactly the elements that occur, each with its number of occurrences |
| KLine.Spread | packages/core/src/kline.ts:139-144 | 65 exactly when the present elements' counts differ by at most one; 50 exactly when they do not but some element occurs five times or more; 60 otherwise |
| KLine.YearGanZhi | packages/core/src/kline.ts:147-154 | the year's gan-zhi is two characters |
| KLine.YearGanZhiAt | packages/core/src/kline.ts:147-154 | the year's gan-zhi is the stem and branch at (y - 1984) mod 10 and mod 12, Euclidean, for negative offsets as well |
| KLine.JsResidue | packages/core/src/kline.ts:151-152 | adding 60 to the truncating remainder and reducing again gives the Euclidean remainder |
| KLine.YearGanZhiAnchor | packages/core/src/kline.ts:150 | 1984 is 甲子 |
| KLine.YearGanZhiPeriod | packages/core/src/kline.ts:147-154 | the year gan-zhi repeats every 60 years |
| KLine.YearGanZhiNext | packages/core/src/kline.ts:147-154 | the next year's gan-zhi is one forward step of this year's |
| KLine.BaseScore | packages/core/src/kline.ts:96-101 | 80 exactly for strong, 70 exactly for medium, 58 exactly for weak |
| KLine.FindCoveringFacts | packages/core/src/kline.ts:170 | the index found is the first decade covering the age, and none is found only when no decade covers it |
| KLine.DyByAgeFacts | packages/core/src/kline.ts:170 | the decade chosen for an age is the first that covers it when one does, and otherwise the last decade |
| KLine.BeforeFirstDecade | packages/core/src/kline.ts:170 | ages before every decade start fall back to the last decade |
| KLine.YearFactor | packages/core/src/kline.ts:186-195 | the year factor stays in [0, 100]; a clash with the day branch takes 18 off; a year equal to its decade adds 15 when favourable and takes 15 off otherwise; with both, the 18 is taken off and clamped before the 15 moves it |
| KLine.WeightedInRange | packages/core/src/kline.ts:196-202 | the weighted total of in-range parts lies in [0, 100] |
| KLine.Volatility | packages/core/src/kline.ts:207-209 | the wick length is between 0 and 20 |
| KLine.CandleShape | packages/core/src/kline.ts:172-228 | each candle carries its age, its calendar year and that year's gan-zhi, opens at the given open, and is well formed: body inside wicks inside [0, 100], wicks at most 20, up exactly when close ≥ open, brief matching trend, score equal to close |
| KLine.CandleTags | packages/core/src/kline.ts:187-193 | the year has 冲日支 exactly when its branch clashes with the day branch, and 岁运并临 exactly when its gan-zhi equals its decade's |
| KLine.YearStep | packages/core/src/kline.ts:173-228 | one loop turn builds the candle of the year at that age |
| KLine.PushYear | packages/core/src/kline.ts:204-230 | pushing the candle of an age onto the candles of the earlier ages gives the candles up to that age, and its close is the next open |
| KLine.YearCandleParts | packages/core/src/kline.ts:173-184 | a year's candle comes from its decade's and its own relation scores and their clash factor |
| KLine.Candle | packages/core/src/kline.ts:186-228 | the method builds the candle from its parts |
| KLine.SumBounds | packages/core/src/kline.ts:237 | the sum of in-range scores lies between 0 and 100 times their count |
| KLine.CoveredYears | packages/core/src/kline.ts:236 | the slice of a stage holds exactly the years whose age lies inside the decade |
| KLine.StageDecades | packages/core/src/kline.ts:233-234 | the stages come from exactly the decades starting at an age from 1 to 100 |
| KLine.MeanBounds | packages/core/src/kline.ts:237-238 | the rounded mean of in-range scores is an integer in [0, 100] |
| KLine.StageScore | packages/core/src/kline.ts:236-238 | a stage score is a whole number in [0, 100]: 60 with no covered years, else the rounded mean of their scores |
| KLine.StageFields | packages/core/src/kline.ts:239-242 | a stage keeps its decade's ages and gan-zhi, and lists risks exactly when its score is below 60 |
| KLine.StagesFacts | packages/core/src/kline.ts:233-243 | there is one stage per selected decade, in order, each scored from that decade |
| KLine.Insert | packages/core/src/kline.ts:245 | inserting adds exactly one copy of the element |
| KLine.SortByScore | packages/core/src/kline.ts:245-247 | the sort is a permutation of the years |
| KLine.SortOrdered | packages/core/src/kline.ts:245-247 | the stable sort of age-ordered years is ordered by score, ties by age, and is a permutation |
| KLine.SortedHead | packages/core/src/kline.ts:245-247 | the first six of the sort are years of the list in order, and none ranks behind a later year |
| KLine.Peaks | packages/core/src/kline.ts:245-246 | the six peaks are years of the list, each scoring at least every year left out, in descending score with ties by age |
| KLine.Troughs | packages/core/src/kline.ts:247 | the six troughs are years of the list, each scoring at most every year left out, in ascending score with ties by age |
| KLine.TrendOf | packages/core/src/kline.ts:249-256 | front-high exactly when the first third beats both others, middle-high exactly when the middle does, late-high exactly when the last does |
| KLine.TotalScoreFacts | packages/core/src/kline.ts:249-262 | the total score is a whole number in [0, 100] and the rounded mean of all closes |
| KLine.TimestampYearOfFormat | packages/core/src/kline.ts:166 | the corrected timestamp the chart prints reads back as its year |
| KLine.YearsUpTo | packages/core/src/kline.ts:172-231 | the first n years make a list of n candles |
| KLine.YearListSnoc | packages/core/src/kline.ts:204-230 | a list of years grows correctly by a well-formed candle of the next age that opens at the previous close |
| KLine.YearsUpToFacts | packages/core/src/kline.ts:164-231 | the year list has ages 1..n, consecutive calendar years from the first, each year's gan-zhi, opens chained to the previous close from the clamped base, and well-formed candles |
| KLine.YearsUpToStep | packages/core/src/kline.ts:172-231 | extending a correct year list by one more year keeps it correct |
| KLine.NextOpenInRange | packages/core/src/kline.ts:164-204 | the next open, the clamped base or the previous close, lies in [0, 100] |
| KLine.YearsUpToOrdered | packages/core/src/kline.ts:172-231 | the year list has in-range scores and increasing ages |
| KLine.YearListOrdered | packages/core/src/kline.ts:172-231 | any correct year list has in-range scores and increasing ages |
| KLine.YearLoop | packages/core/src/kline.ts:163-231 | the loop builds the year list up to the last age |
| KLine.YearSeries | packages/core/src/kline.ts:172-231 | the years are the candles of ages 1 to 100 |
| KLine.GenerateKLine | packages/core/src/kline.ts:156-277 | a K-line is produced when there is a decade and a readable first solar year, from the first decade or the `YYYY-` timestamp (the source's path with an unreadable year is listed under Left out); it holds the 100 years, their stages and the insight computed from them |
| Format.GenderLabel | apps/web/src/lib/format.ts:3-5 | 男 exactly for male and 女 exactly for female |
| Format.CalendarLabel | apps/web/src/lib/format.ts:7-9 | 公历 exactly for solar and 农历 exactly for lunar |
| Format.Padded | apps/web/src/lib/format.ts:12-14 | a padded number is non-empty and ends in a digit |
| Format.PaddedReadsBack | apps/web/src/lib/format.ts:12-14 | a non-negative number padded to a width it fits is exactly that wide, all digits, and reads back as the number |
| Format.PaddedWidth | apps/web/src/lib/format.ts:12-14 | two- and four-digit padding gives exactly that many digits that read back as the number |
| Format.DatePart | apps/web/src/lib/format.ts:12-16 | the date part is non-empty and ends in a digit |
| Format.FormatDateYmdLeap | apps/web/src/lib/format.ts:15-16 | the date ends in the leap mark exactly when the month is a leap month |
| Format.FormatDateYmdFields | apps/web/src/lib/format.ts:11-17 | a date with a four-digit year prints as `YYYY-MM-DD` whose fields read back as the date's, followed by the leap mark exactly for a leap month |
| Format.FormatDateYmdLength | apps/web/src/lib/format.ts:11-17 | every schema-valid date prints as ten characters plus the leap mark |
| Format.FormatTimeLabelExact | apps/web/src/lib/format.ts:20-24 | an exact time prints as `HH:MM` whose fields read back as the hour and minute |
| Format.FormatTimeLabelSegment | apps/web/src/lib/format.ts:25 | a segment time prints as its label, which the schema reads back as the same segment |
| Ziwei.Lookup | apps/web/src/pages/ZiweiStep2.tsx:96 | a found value belongs to an entry with that key; nothing is found only when no entry has the key |
| Ziwei.LookupEntry | apps/web/src/pages/ZiweiStep2.tsx:58-84 | in a table with distinct keys, each key finds its own value |
| Ziwei.StemKeysSorted | apps/web/src/pages/ZiweiStep2.tsx:86 | the stem keys are the table's keys stably sorted by descending length |
| Ziwei.StemKeysFromTable | apps/web/src/pages/ZiweiStep2.tsx:86 | the sorted stem keys are a permutation of the table's ten keys |
| Ziwei.StemKeysStable | apps/web/src/pages/ZiweiStep2.tsx:86 | the stem keys are longest first, and equal lengths keep the table order |
| Ziwei.BranchKeysSorted | apps/web/src/pages/ZiweiStep2.tsx:87 | the branch keys are the table's keys stably sorted by descending length |
| Ziwei.BranchKeysFromTable | apps/web/src/pages/ZiweiStep2.tsx:87 | the sorted branch keys are a permutation of the table's twelve keys |
| Ziwei.BranchKeysStable | apps/web/src/pages/ZiweiStep2.tsx:87 | the branch keys are longest first, and equal lengths keep the table order |
| Ziwei.KeyLengths | apps/web/src/pages/ZiweiStep2.tsx:58-84 | every pinyin key is at least two letters long |
| Ziwei.ValueLengths | apps/web/src/pages/ZiweiStep2.tsx:58-84 | every table value is a single character |
| Ziwei.ValuesInCycleOrder | apps/web/src/pages/ZiweiStep2.tsx:58-84 | the tables list the ten stems and twelve branches in cycle order |
| Ziwei.StemKeysDistinct | apps/web/src/pages/ZiweiStep2.tsx:58-69 | the stem keys are distinct, non-empty and lower case |
| Ziwei.BranchKeysDistinct | apps/web/src/pages/ZiweiStep2.tsx:71-84 | the branch keys are distinct, non-empty and lower case |
| Ziwei.ToCnByPinyin | apps/web/src/pages/ZiweiStep2.tsx:89-107 | blank gives empty; text without Latin letters is only trimmed; otherwise the trimmed text is lower-cased, its suffix removed, and the result is the table's value for that key, or the trimmed text when the key is unknown |
| Ziwei.AsciiLowerWord | apps/web/src/pages/ZiweiStep2.tsx:91-94 | a lower-case pinyin word is unchanged by trimming and lowering, and has Latin letters |
| Ziwei.LowerWordLookup | apps/web/src/pages/ZiweiStep2.tsx:94-96 | a lower-case word converts to the value of its key once the suffix is removed |
| Ziwei.KeyReadsBack | apps/web/src/pages/ZiweiStep2.tsx:89-107 | any text that trims and lower-cases to a key, with or without the suffix, converts to that key's value |
| Ziwei.PinyinReadsBack | apps/web/src/pages/ZiweiStep2.tsx:89-107 | a stem's pinyin in any case and padding, with or without the `Heavenly` suffix (`jia`, ` Jia `, `jiaHeavenly`), converts to that stem, and a branch's pinyin with or without `Earthly` to that branch |
| Ziwei.FindKey | apps/web/src/pages/ZiweiStep2.tsx:119 | `find` returns a key that starts at the position, and finds nothing only when no key starts there |
| Ziwei.FindKeyLongest | apps/web/src/pages/ZiweiStep2.tsx:119 | over keys sorted longest first, the key found is at least as long as any key that matches there |
| Ziwei.PairAt | apps/web/src/pages/ZiweiStep2.tsx:119-123 | a pair found is a stem key at the position followed by a branch key right after it |
| Ziwei.CharAt | apps/web/src/pages/ZiweiStep2.tsx:129 | `s[i] ?? ""` is at most one character |
| Ziwei.Step | apps/web/src/pages/ZiweiStep2.tsx:118-131 | each turn advances the position and emits no more characters than it consumes |
| Ziwei.GanzhiText | apps/web/src/pages/ZiweiStep2.tsx:109-133 | blank gives empty, and text without Latin letters is only trimmed |
| Ziwei.ToCnGanzhiText | apps/web/src/pages/ZiweiStep2.tsx:109-133 | the method computes the converted text |
| Ziwei.TransduceLoop | apps/web/src/pages/ZiweiStep2.tsx:116-131 | the while loop emits what the turn-by-turn conversion emits from position 0 |
| Ziwei.LoopTurn | apps/web/src/pages/ZiweiStep2.tsx:119-130 | one pass of the loop body does one conversion turn |
| Ziwei.TransduceShorter | apps/web/src/pages/ZiweiStep2.tsx:116-131 | the text emitted from a position is no longer than what is left of the input |
| Ziwei.GanzhiTextShorter | apps/web/src/pages/ZiweiStep2.tsx:109-133 | the converted text is never longer than the trimmed input |
| Ziwei.TransduceCopies | apps/web/src/pages/ZiweiStep2.tsx:129-130 | where no stem-and-branch pair starts, the text is copied unchanged |
| Ziwei.GanzhiTextCopies | apps/web/src/pages/ZiweiStep2.tsx:109-133 | text with no pinyin pair anywhere converts to its trimmed self |
| Ziwei.PairLongest | apps/web/src/pages/ZiweiStep2.tsx:119-122 | the pair recognised uses the longest matching stem key and then the longest branch key |
| Ziwei.TablesSorted | apps/web/src/pages/ZiweiStep2.tsx:86-87 | both key lists are longest first |
| Ziwei.StemFound | apps/web/src/pages/ZiweiStep2.tsx:119 | where a stem's pinyin is followed by a branch's, the longest-first stem search finds that stem's key |
| Ziwei.BranchFound | apps/web/src/pages/ZiweiStep2.tsx:120 | where a branch's pinyin starts, the branch search finds that branch's key |
| Ziwei.PairFound | apps/web/src/pages/ZiweiStep2.tsx:119-122 | a stem's pinyin followed by a branch's is recognised as exactly that stem and that branch |
| Ziwei.GanzhiTextPair | apps/web/src/pages/ZiweiStep2.tsx:109-133 | text that trims and lower-cases to a stem's pinyin followed by a branch's (`jiazi`, ` JiaZi `) converts to that stem and that branch |
| Ziwei.PairChars | apps/web/src/pages/ZiweiStep2.tsx:124 | a recognised pair is emitted as one stem character followed by one branch character |
| Ziwei.RingStepInverse | apps/web/src/pages/ZiweiStep2.tsx:149-153 | the ring's twelve cells are distinct cells of the 4 x 4 grid, and each one's step number leads back to it |
| Ziwei.RingIsBorder | apps/web/src/pages/ZiweiStep2.tsx:149 | the ring is exactly the twelve border cells of the grid |
| Ziwei.RingIsConnected | apps/web/src/pages/ZiweiStep2.tsx:149 | consecutive ring cells, and the last and first, are side by side |
| Ziwei.GridAfter | apps/web/src/pages/ZiweiStep2.tsx:147-155 | the grid always has 16 cells |
| Ziwei.GridPalaceBranchIndexes | apps/web/src/pages/ZiweiStep2.tsx:147-155 | the loop fills a fresh array with the grid after all twelve steps |
| Ziwei.GridLayout | apps/web/src/pages/ZiweiStep2.tsx:147-155 | ring step s holds branch (3 + s) mod 12, and the four centre cells stay empty |
| Ziwei.GridBranchesOnce | apps/web/src/pages/ZiweiStep2.tsx:147-155 | each branch appears in exactly one grid cell |
| Ziwei.TimeLabelByIndex | apps/web/src/pages/ZiweiStep2.tsx:53-56 | the label is empty exactly for an index outside 0-12 |
| Ziwei.TimeLabelsFollowBranches | apps/web/src/pages/ZiweiStep2.tsx:54 | labels 1 to 11 are the branch of that index followed by 时 |
| Ziwei.NextHourIndex | apps/web/src/pages/ZiweiStep2.tsx:480-485 | from a valid index a press gives a valid index that has a label |
| Ziwei.HourStepsUndo | apps/web/src/pages/ZiweiStep2.tsx:480-485 | a press one way followed by a press the other way returns to the start |
| Ziwei.HourStep | apps/web/src/pages/ZiweiStep2.tsx:482 | forward moves up one and wraps 12 to 0; back moves down one and wraps 0 to 12 |
| Ziwei.HourAfterPresses | apps/web/src/pages/ZiweiStep2.tsx:480-485 | n presses in one direction land n places along, modulo 13 |
| BirthForm.ClampInt | apps/web/src/pages/Step1.tsx:28-31 | a non-finite value gives the minimum; otherwise the truncated value when it is in range, the nearer bound when not |
| BirthForm.ClampIntKeeps | apps/web/src/pages/Step1.tsx:28-31 | an integer already in range is kept |
| BirthForm.ClampIntIdempotent | apps/web/src/pages/Step1.tsx:28-31 | clamping a clamped value changes nothing |
| BirthForm.Range | apps/web/src/pages/Step1.tsx:37-41 | the range holds the integers from min to max in order, and is empty when min exceeds max |
| BirthForm.BuildRange | apps/web/src/pages/Step1.tsx:37-41 | the loop builds that range |
| BirthForm.RangeMembers | apps/web/src/pages/Step1.tsx:37-41 | x is in the range exactly when min ≤ x ≤ max, and the range strictly increases |
| BirthForm.DaysInSolarMonth | apps/web/src/pages/Step1.tsx:33-35 | `new Date(y, m, 0).getDate()` is the length of month m |
| BirthForm.MaxDay | apps/web/src/pages/Step1.tsx:455 | the last selectable day is 30 for a lunar date and the month's length for a solar one |
| BirthForm.ConfirmDateSheet | apps/web/src/pages/Step1.tsx:472-490 | the committed form is valid and takes the sheet's calendar, leap flag and mode; year, month and the month-bounded day are clamped; an exact time clamps hour and minute and keeps the old label; a segment keeps the old hour and minute and takes the label |
| BirthForm.OpenDateSheet | apps/web/src/pages/Step1.tsx:459-470 | opening the sheet copies every field of the form |
| BirthForm.ReconfirmUnchanged | apps/web/src/pages/Step1.tsx:459-490 | opening a valid form's sheet and confirming it leaves the form unchanged |
| BirthForm.ConfirmIdempotent | apps/web/src/pages/Step1.tsx:459-490 | confirming, reopening and confirming again gives the same form |
| BirthForm.Parts | apps/web/src/pages/Step1.tsx:418-421 | the display parts are non-empty |
| BirthForm.PartsInOrder | apps/web/src/pages/Step1.tsx:418-421 | the display parts are province, city and district in that order, with the empty ones dropped |
| BirthForm.DisplayNameFull | apps/web/src/pages/Step1.tsx:418-423 | an address with all three fields is shown as "province - city - district" |
| BirthForm.DisplayNameCity | apps/web/src/pages/Step1.tsx:418-423 | an address without a district is shown as "province - city" |
| BirthForm.OrUndefined | apps/web/src/pages/Step1.tsx:432-434 | `s \|\| undefined` is absent exactly for the empty string and the string otherwise |
| BirthForm.CandidateName | apps/web/src/pages/Step1.tsx:431 | a candidate's name is its most specific non-empty field |
| BirthForm.Search | apps/web/src/pages/Step1.tsx:403-404 | a blank keyword finds nothing |
| BirthForm.SearchAddress | apps/web/src/pages/Step1.tsx:403-441 | the loop returns what the search specifies |
| BirthForm.SearchTurn | apps/web/src/pages/Step1.tsx:412-437 | one turn of the loop moves one address from what is left to search into the results |
| BirthForm.SearchFromSound | apps/web/src/pages/Step1.tsx:410-438 | every result is the candidate of a matching address whose display name was new when it was reached |
| BirthForm.SearchFromDistinct | apps/web/src/pages/Step1.tsx:426-436 | the results have distinct display names, none of them already seen |
| BirthForm.SearchFromComplete | apps/web/src/pages/Step1.tsx:410-438 | every matching address whose name was not already seen has its display name among the results |
| BirthForm.SearchFromOrdered | apps/web/src/pages/Step1.tsx:410-438 | the results from an entry on are candidates of matching entries at strictly increasing positions from that entry on |
| BirthForm.SearchInListOrder | apps/web/src/pages/Step1.tsx:403-441 | the results of a non-blank keyword come in the order of the address list |
| BirthForm.SearchFacts | apps/web/src/pages/Step1.tsx:403-441 | for a non-blank keyword the results have distinct names, each comes from a matching address, every matching address's name appears, and the results follow the list order |
| BirthForm.SearchCaseInsensitive | apps/web/src/pages/Step1.tsx:406 | the search ignores the case of the keyword |
| Tarot.MajorArcana | apps/tarot/constants.ts:7-206 | the deck is 22 cards with ids ar00 to ar21 in order |
| Tarot.ArcanaIdInjective | apps/tarot/constants.ts:7-206 | distinct card numbers have distinct ids |
| Tarot.ArcanaIdsDistinct | apps/tarot/constants.ts:7-206 | no two cards of the deck share an id |
| Tarot.Without | apps/tarot/services/TarotContext.tsx:47 | the filter never lengthens the deck |
| Tarot.WithoutMembers | apps/tarot/services/TarotContext.tsx:47 | the filter keeps exactly the cards with a different id |
| Tarot.WithoutOne | apps/tarot/services/TarotContext.tsx:47 | in a deck of distinct ids, filtering out a present card's id removes exactly one card and keeps the ids distinct |
| Tarot.WithoutNone | apps/tarot/services/TarotContext.tsx:47 | filtering out an id no card has changes nothing |
| Tarot.DeckIdsWithout | apps/tarot/services/TarotContext.tsx:47 | the ids left are the old ids without the filtered one |
| Tarot.HistoryIdsCons | apps/tarot/services/TarotContext.tsx:46 | prepending a draw adds its card's id to the history's ids |
| Tarot.ConsDistinctDraws | apps/tarot/services/TarotContext.tsx:46 | prepending a draw of a new card keeps the history's cards distinct |
| Tarot.Partition | apps/tarot/services/TarotContext.tsx:43-49 | after confirming a sequence of draws, the deck and the history split the full deck: their ids are disjoint and cover it, the deck stays distinct, the history never repeats a card, and the counts add up |
| Tarot.PartitionStep | apps/tarot/services/TarotContext.tsx:43-49 | confirming one more draw of a card still in the deck keeps the split: the card's id leaves the deck ids and joins the history ids, the deck stays distinct, and the counts still add up |
| Tarot.DrawIndex | apps/tarot/services/TarotContext.tsx:28 | `floor(random * length)` is a valid index |
| Tarot.ConfirmKeeps | apps/tarot/services/TarotContext.tsx:43-49 | confirming the current card keeps the state consistent and removes one card from the deck |
| Tarot.StatePartition | apps/tarot/services/TarotContext.tsx:20-23 | in every consistent state the deck and history ids split the 22 card ids and their sizes add up to 22 |
| Tarot.ArcanaIdSet | apps/tarot/constants.ts:7-206 | the deck's ids are exactly ar00 to ar21 |
| Tarot.IdsOfNumbered | apps/tarot/constants.ts:7-206 | a list whose k-th card has id k has exactly the ids of its positions |
| Tarot.ArcanaConfirmKeeps | apps/tarot/services/TarotContext.tsx:43-49 | on the Major Arcana, confirming keeps the state consistent and removes one card |
| Tarot.TarotState.constructor | apps/tarot/services/TarotContext.tsx:20-23 | the state starts with the full deck, an empty history and no current or viewed card |
| Tarot.TarotState.DrawCard | apps/tarot/services/TarotContext.tsx:25-41 | an empty deck gives no draw and changes nothing; otherwise the draw is the card at the random index, reversed exactly below 0.5, stamped now, and it becomes current while the viewed card clears; deck and history stay |
| Tarot.TarotState.ConfirmCard | apps/tarot/services/TarotContext.tsx:43-49 | without a current card nothing changes; otherwise it is prepended to the history, its id leaves the deck (one card fewer) and it is no longer current |
| Tarot.TarotState.ResetDeck | apps/tarot/services/TarotContext.tsx:51-56 | the state returns to the full deck, an empty history and no current or viewed card |
| Tarot.TarotState.ViewHistoryCard | apps/tarot/services/TarotContext.tsx:58-61 | the given draw becomes the viewed card and the current card clears; deck and history stay |
| Tarot.TarotState.ClearViewingCard | apps/tarot/services/TarotContext.tsx:63-65 | the viewed card clears and nothing else changes |

## Left out

- The `lunar-javascript` calendar library is not part of this model: solar-lunar conversion, the eight characters, hidden stems, ten gods, 12 stages, 纳音 and 空亡 are inputs (`ChartOracle`, `EightCharOracle`).
- `pick`'s search for a method by candidate names on a library object is collapsed into an optional answer per field; which name it found is not modelled.
- `getLunarIsLeapMonth` (`paipan.ts:62-76`) only inspects library objects; its answer is an input of the oracle.
- `buildAstrolabe` and the `iztro` astrolabe are not part of this model. Only the page's pure helpers are.
- Time zones and daylight saving: `Date` is modelled in a zone with a fixed offset. The host's zone and `getTime()` across a DST change are left out.
- Floating point: scores, weights and longitudes are exact reals. Binary rounding of `0.35` and similar constants is not modelled.
- Paipan.Paipan: `longitudeDeltaMinutes` is the exact correction, without the `toFixed(1)` rounding of `paipan.ts:385`.
- `String(v)` of non-string values (objects, `null`, `undefined`) in the Zi Wei helpers and `safeArray` is not modelled; inputs are strings or a `JsValue`.
- `toLowerCase` is modelled for ASCII letters only; Unicode case folding is left out. `trim` and `\s` use the whole ECMAScript white-space and line-terminator set (`Strings.IsWhitespace`).
- Record lookups on inherited `Object.prototype` keys (such as `"constructor"`) are not modelled; a missing key is simply absent.
- React rendering, the 3D scene, hand tracking, the sheets' open/close flags and React's batched or stale-closure state updates are left out. Each tarot callback is one atomic method.
- Tarot card names, meanings, descriptions and images are display text. Only the card id is modelled.
- The address list that `Step1.tsx` flattens from `china-area-data` is a parameter of the search; building that list is not modelled.
- `Math.random` and `Date.now` are parameters of `DrawCard`.
- `formatYmdHms` is only characterised for four-digit years (1000-9999); other years print differently and are not stated.
- Format.FormatDateYmdFields: stated only for years below 10000 and months and days below 100, the range in which `padStart` gives a fixed width.
- The stage summary and advice texts, and the insight's summary text and `tenGodFocus`, are computed by the model without a lemma about their wording.
- Ziwei.GanzhiText: states the blank and non-Latin cases; the pinyin conversion itself is stated by `Ziwei.GanzhiTextPair` (a stem-and-branch pair converts to its two characters), `Ziwei.GanzhiTextCopies` (text without a pair is copied) and `Ziwei.PairLongest` (the longest keys win). `Ziwei.PinyinReadsBack` is about the single-word `toCnByPinyin`, not this loop.
- KLine.GenerateKLine: when the first decade has no start year and the corrected timestamp does not start with four digits and `-`, the model returns an error, whereas `kline.ts:166` goes on with a `NaN` year. `Paipan.Paipan` always prints that timestamp for four-digit years (`KLine.TimestampYearOfFormat`), so the case does not arise from a chart of years 1000-9999.
- KLine.TimestampYear: reads the year from any text starting with four digits and `-` (`2024-x` reads as 2024), where `Date` parsing would give `NaN` for a malformed rest. Every timestamp it is given comes from `FormatYmdHms`, which it reads back exactly.
- Birth.ParseBirthInput: zod's list of per-field issues is collapsed into the single error string `invalid birth input`; which rule failed is not reported.
