/** The birth input of the chart pipeline (packages/core/src/birth.ts): validating a raw
    request, turning a birth time given as a two-hour segment into a clock time, moving the
    local time to true solar time by longitude, and printing a date-time. */
module Birth {
  import opened Strings
  import opened Calendar

  datatype Gender = Male | Female
  datatype CalendarType = Solar | Lunar

  /** The fourteen segment labels: the twelve two-hour 时辰 and the two half days. */
  datatype SegmentLabel =
    | ZiShi | ChouShi | YinShi | MaoShi | ChenShi | SiShi | WuShi | WeiShi
    | ShenShi | YouShi | XuShi | HaiShi | Morning | Afternoon

  function LabelText(l: SegmentLabel): string {
    match l
    case ZiShi => "子时"
    case ChouShi => "丑时"
    case YinShi => "寅时"
    case MaoShi => "卯时"
    case ChenShi => "辰时"
    case SiShi => "巳时"
    case WuShi => "午时"
    case WeiShi => "未时"
    case ShenShi => "申时"
    case YouShi => "酉时"
    case XuShi => "戌时"
    case HaiShi => "亥时"
    case Morning => "上午"
    case Afternoon => "下午"
  }

  /** The schema's union of label literals. */
  function ParseLabel(s: string): (r: Option<SegmentLabel>)
    ensures r.Some? ==> LabelText(r.value) == s
  {
    if s == "子时" then Some(ZiShi)
    else if s == "丑时" then Some(ChouShi)
    else if s == "寅时" then Some(YinShi)
    else if s == "卯时" then Some(MaoShi)
    else if s == "辰时" then Some(ChenShi)
    else if s == "巳时" then Some(SiShi)
    else if s == "午时" then Some(WuShi)
    else if s == "未时" then Some(WeiShi)
    else if s == "申时" then Some(ShenShi)
    else if s == "酉时" then Some(YouShi)
    else if s == "戌时" then Some(XuShi)
    else if s == "亥时" then Some(HaiShi)
    else if s == "上午" then Some(Morning)
    else if s == "下午" then Some(Afternoon)
    else None
  }

  /** Every label's text is accepted, and as that label. */
  lemma ParseLabelText(l: SegmentLabel)
    ensures ParseLabel(LabelText(l)) == Some(l)
  {
  }

  datatype BirthTime = Exact(hour: int, minute: int) | Segment(slot: SegmentLabel)

  datatype BirthDate = BirthDate(year: int, month: int, day: int, isLeapMonth: Option<bool>)

  datatype Location = Location(province: string, city: string, longitude: real)

  datatype BirthInput = BirthInput(
    name: string, gender: Gender, calendar: CalendarType,
    date: BirthDate, time: BirthTime, location: Location)

  /** A schema-checked name: already trimmed and not empty. */
  predicate TrimmedNonEmpty(s: string) {
    s != [] && Trim(s) == s
  }

  /** What every value the schema lets through satisfies. */
  predicate ValidBirthInput(b: BirthInput) {
    && TrimmedNonEmpty(b.name)
    && 1800 <= b.date.year <= 2200
    && 1 <= b.date.month <= 12
    && 1 <= b.date.day <= 31
    && (b.time.Exact? ==> 0 <= b.time.hour <= 23 && 0 <= b.time.minute <= 59)
    && TrimmedNonEmpty(b.location.province)
    && TrimmedNonEmpty(b.location.city)
    && 70.0 <= b.location.longitude <= 140.0
  }

  /** A request body as it arrives: JSON strings, numbers and an optional boolean. */
  datatype RawBirthInput = RawBirthInput(
    name: string, gender: string, calendar: string,
    year: real, month: real, day: real, isLeapMonth: Option<bool>,
    timeMode: string, hour: real, minute: real, segmentLabel: string,
    province: string, city: string, longitude: real)

  predicate IsInt(x: real) {
    x == x.Floor as real
  }

  /** An integer-valued number within `lo..hi`, as `z.number().int().min(lo).max(hi)` checks. */
  predicate IntIn(x: real, lo: int, hi: int) {
    IsInt(x) && lo as real <= x <= hi as real
  }

  /** An integer-valued number within `lo..hi` is its own floor, which lies within `lo..hi`. */
  lemma IntInFloor(x: real, lo: int, hi: int)
    requires IntIn(x, lo, hi)
    ensures lo <= x.Floor <= hi && x.Floor as real == x
  {
  }

  function ParseGender(s: string): (r: Option<Gender>)
    ensures r == Some(Male) <==> s == "male"
    ensures r == Some(Female) <==> s == "female"
    ensures r.None? <==> s != "male" && s != "female"
  {
    if s == "male" then Some(Male) else if s == "female" then Some(Female) else None
  }

  function ParseCalendar(s: string): (r: Option<CalendarType>)
    ensures r == Some(Solar) <==> s == "solar"
    ensures r == Some(Lunar) <==> s == "lunar"
    ensures r.None? <==> s != "solar" && s != "lunar"
  {
    if s == "solar" then Some(Solar) else if s == "lunar" then Some(Lunar) else None
  }

  /** The time union: the exact branch is tried first, then the segment branch. */
  function ParseTime(raw: RawBirthInput): Option<BirthTime> {
    if raw.timeMode == "exact" && IntIn(raw.hour, 0, 23) && IntIn(raw.minute, 0, 59) then
      Some(Exact(raw.hour.Floor, raw.minute.Floor))
    else if raw.timeMode == "segment" && ParseLabel(raw.segmentLabel).Some? then
      Some(Segment(ParseLabel(raw.segmentLabel).value))
    else None
  }

  /** The time union yields a time of the schema's ranges exactly when one branch accepts. */
  lemma ParseTimeValid(raw: RawBirthInput)
    ensures ParseTime(raw).Some? <==>
      (raw.timeMode == "exact" && IntIn(raw.hour, 0, 23) && IntIn(raw.minute, 0, 59))
      || (raw.timeMode == "segment" && ParseLabel(raw.segmentLabel).Some?)
    ensures ParseTime(raw).Some? && ParseTime(raw).value.Exact? ==>
      0 <= ParseTime(raw).value.hour <= 23 && 0 <= ParseTime(raw).value.minute <= 59
  {
    if raw.timeMode == "exact" && IntIn(raw.hour, 0, 23) && IntIn(raw.minute, 0, 59) {
      IntInFloor(raw.hour, 0, 23);
      IntInFloor(raw.minute, 0, 59);
    }
  }

  /** `parseBirthInput`: the schema's verdict on a raw request, with the strings trimmed. */
  function ParseBirthInput(raw: RawBirthInput): (r: Result<BirthInput, string>)
    ensures r.Success? ==> ValidBirthInput(r.value)
    ensures r.Success? ==> (
      && r.value.name == Trim(raw.name)
      && r.value.location.province == Trim(raw.province) && r.value.location.city == Trim(raw.city)
      && r.value.date.isLeapMonth == raw.isLeapMonth && r.value.location.longitude == raw.longitude
      && r.value.date.year as real == raw.year && r.value.date.month as real == raw.month
      && r.value.date.day as real == raw.day
      && ParseGender(raw.gender) == Some(r.value.gender)
      && ParseCalendar(raw.calendar) == Some(r.value.calendar)
      && ParseTime(raw) == Some(r.value.time))
    ensures r.Success? <==>
      && !IsBlank(raw.name) && !IsBlank(raw.province) && !IsBlank(raw.city)
      && (raw.gender == "male" || raw.gender == "female")
      && (raw.calendar == "solar" || raw.calendar == "lunar")
      && IntIn(raw.year, 1800, 2200) && IntIn(raw.month, 1, 12) && IntIn(raw.day, 1, 31)
      && ((raw.timeMode == "exact" && IntIn(raw.hour, 0, 23) && IntIn(raw.minute, 0, 59))
          || (raw.timeMode == "segment" && ParseLabel(raw.segmentLabel).Some?))
      && 70.0 <= raw.longitude <= 140.0
  {
    var name := Trim(raw.name);
    var province := Trim(raw.province);
    var city := Trim(raw.city);
    var gender := ParseGender(raw.gender);
    var calendar := ParseCalendar(raw.calendar);
    var time := ParseTime(raw);
    if name == [] || gender.None? || calendar.None?
      || !IntIn(raw.year, 1800, 2200) || !IntIn(raw.month, 1, 12) || !IntIn(raw.day, 1, 31)
      || time.None? || province == [] || city == []
      || !(70.0 <= raw.longitude <= 140.0)
    then Failure("invalid birth input")
    else
      TrimIdempotent(raw.name);
      TrimIdempotent(raw.province);
      TrimIdempotent(raw.city);
      IntInFloor(raw.year, 1800, 2200);
      IntInFloor(raw.month, 1, 12);
      IntInFloor(raw.day, 1, 31);
      ParseTimeValid(raw);
      Success(BirthInput(
        name, gender.value, calendar.value,
        BirthDate(raw.year.Floor, raw.month.Floor, raw.day.Floor, raw.isLeapMonth),
        time.value, Location(province, city, raw.longitude)))
  }

  /** The request body a checked input comes from. */
  function ToRaw(b: BirthInput): RawBirthInput {
    RawBirthInput(
      b.name,
      if b.gender == Male then "male" else "female",
      if b.calendar == Solar then "solar" else "lunar",
      b.date.year as real, b.date.month as real, b.date.day as real, b.date.isLeapMonth,
      if b.time.Exact? then "exact" else "segment",
      if b.time.Exact? then b.time.hour as real else 0.0,
      if b.time.Exact? then b.time.minute as real else 0.0,
      if b.time.Segment? then LabelText(b.time.slot) else "",
      b.location.province, b.location.city, b.location.longitude)
  }

  /** Parsing accepts exactly what it produces: a checked input survives a second pass unchanged. */
  lemma ParseRoundTrip(b: BirthInput)
    requires ValidBirthInput(b)
    ensures ParseBirthInput(ToRaw(b)) == Success(b)
  {
    var raw := ToRaw(b);
    assert ParseGender(raw.gender) == Some(b.gender);
    assert ParseCalendar(raw.calendar) == Some(b.calendar);
    if b.time.Segment? {
      ParseLabelText(b.time.slot);
      assert ParseTime(raw) == Some(b.time);
    } else {
      assert (b.time.hour as real).Floor == b.time.hour && (b.time.minute as real).Floor == b.time.minute;
      assert ParseTime(raw) == Some(b.time);
    }
    assert (b.date.year as real).Floor == b.date.year;
    assert (b.date.month as real).Floor == b.date.month;
    assert (b.date.day as real).Floor == b.date.day;
    assert IntIn(raw.year, 1800, 2200) && IntIn(raw.month, 1, 12) && IntIn(raw.day, 1, 31);
    assert Trim(raw.name) == b.name && Trim(raw.province) == b.location.province
      && Trim(raw.city) == b.location.city;
  }

  /** A clock time a segment stands for, and the source's printed range of the segment. */
  datatype SegmentSlot = SegmentSlot(hour: nat, minute: nat, range: string)

  function SlotOf(l: SegmentLabel): SegmentSlot {
    match l
    case ZiShi => SegmentSlot(0, 0, "23:00-01:00")
    case ChouShi => SegmentSlot(2, 0, "01:00-03:00")
    case YinShi => SegmentSlot(4, 0, "03:00-05:00")
    case MaoShi => SegmentSlot(6, 0, "05:00-07:00")
    case ChenShi => SegmentSlot(8, 0, "07:00-09:00")
    case SiShi => SegmentSlot(10, 0, "09:00-11:00")
    case WuShi => SegmentSlot(12, 0, "11:00-13:00")
    case WeiShi => SegmentSlot(14, 0, "13:00-15:00")
    case ShenShi => SegmentSlot(16, 0, "15:00-17:00")
    case YouShi => SegmentSlot(18, 0, "17:00-19:00")
    case XuShi => SegmentSlot(20, 0, "19:00-21:00")
    case HaiShi => SegmentSlot(22, 0, "21:00-23:00")
    case Morning => SegmentSlot(10, 0, "06:00-12:00")
    case Afternoon => SegmentSlot(16, 0, "12:00-18:00")
  }

  predicate IsShichen(l: SegmentLabel) {
    !(l.Morning? || l.Afternoon?)
  }

  /** The number written by the two digits at `r[i]` and `r[i + 1]`. */
  function TwoDigitsAt(r: string, i: nat): int
    requires i + 1 < |r|
  {
    (r[i] as int - '0' as int) * 10 + (r[i + 1] as int - '0' as int)
  }

  /** The hour at which a segment's printed range starts and the hour at which it ends. */
  function RangeStart(l: SegmentLabel): int
    requires |SlotOf(l).range| == 11
  {
    TwoDigitsAt(SlotOf(l).range, 0)
  }

  function RangeEnd(l: SegmentLabel): int
    requires |SlotOf(l).range| == 11
  {
    TwoDigitsAt(SlotOf(l).range, 6)
  }

  /** Each 时辰 is a two-hour window centred on the hour picked for it, with 子时 wrapping
      across midnight; each half day contains its picked hour. */
  lemma SlotInsideRange(l: SegmentLabel)
    ensures |SlotOf(l).range| == 11
    ensures IsShichen(l) ==>
      RangeStart(l) == (SlotOf(l).hour + 23) % 24 && RangeEnd(l) == SlotOf(l).hour + 1
    ensures !IsShichen(l) ==> RangeStart(l) <= SlotOf(l).hour < RangeEnd(l)
    ensures SlotOf(l).minute == 0
  {
  }

  /** The twelve 时辰 pick twelve different even hours. */
  lemma ShichenHoursDistinct(l1: SegmentLabel, l2: SegmentLabel)
    requires IsShichen(l1) && IsShichen(l2) && l1 != l2
    ensures SlotOf(l1).hour != SlotOf(l2).hour
    ensures SlotOf(l1).hour % 2 == 0 && SlotOf(l1).hour <= 22
  {
  }

  datatype ClockTime = ClockTime(hour: int, minute: int, note: Option<string>)

  /** `label(range, 取HH:MM)` for any tag, range and two-digit time. */
  function NoteText(tag: string, range: string, hour: nat, minute: nat): string {
    tag + "(" + range + ", 取" + Pad2(hour) + ":" + Pad2(minute) + ")"
  }

  /** What a note looks like: the tag, then the range in parentheses, followed inside them
      by `, 取` and the picked time as two two-digit fields with a colon between. */
  predicate NoteShaped(n: string, tag: string, range: string, hour: nat, minute: nat) {
    var k := |tag|;
    && |n| == k + 21 && n[..k] == tag && n[k] == '(' && n[k + 1..k + 12] == range
    && n[k + 12..k + 15] == ", 取" && n[k + 17] == ':' && n[k + 20] == ')'
    && AllDigits(n[k + 15..k + 17]) && ParseNat(n[k + 15..k + 17]) == hour
    && AllDigits(n[k + 18..k + 20]) && ParseNat(n[k + 18..k + 20]) == minute
  }

  lemma {:induction false} NoteTextShape(tag: string, range: string, hour: nat, minute: nat)
    requires |range| == 11 && hour < 100 && minute < 100
    ensures NoteShaped(NoteText(tag, range, hour, minute), tag, range, hour, minute)
  {
    ParsePad2(hour);
    ParsePad2(minute);
    NoteSlices(tag, range, Pad2(hour), Pad2(minute));
  }

  /** Where the parts of a note sit. */
  lemma NoteSlices(tag: string, range: string, hh: string, mm: string)
    requires |range| == 11 && |hh| == 2 && |mm| == 2
    ensures var n := tag + "(" + range + ", 取" + hh + ":" + mm + ")"; var k := |tag|;
      && |n| == k + 21 && n[..k] == tag && n[k] == '(' && n[k + 1..k + 12] == range
      && n[k + 12..k + 15] == ", 取" && n[k + 15..k + 17] == hh && n[k + 17] == ':'
      && n[k + 18..k + 20] == mm && n[k + 20] == ')'
  {
    var k := |tag|;
    var p1 := tag + "(" + range + ", 取";
    var p2 := p1 + hh + ":";
    var n := p2 + mm + ")";
    assert |p1| == k + 15 && |p2| == k + 18;
    assert n[..k] == p1[..k] == tag;
    assert n[k + 1..k + 12] == p1[k + 1..k + 12] == range;
    assert n[k + 12..k + 15] == p1[k + 12..k + 15] == ", 取";
    assert n[k + 15..k + 17] == p2[k + 15..k + 17] == hh;
  }

  /** The note printed for a segment. */
  function SegmentNote(l: SegmentLabel): string {
    NoteText(LabelText(l), SlotOf(l).range, SlotOf(l).hour, SlotOf(l).minute)
  }

  /** The note opens with the label and its range and ends with the picked time, which reads
      back as the picked hour and minute. */
  lemma SegmentNoteShape(l: SegmentLabel)
    ensures NoteShaped(SegmentNote(l), LabelText(l), SlotOf(l).range, SlotOf(l).hour, SlotOf(l).minute)
  {
    SlotInsideRange(l);
    ShichenHourBound(l);
    NoteTextShape(LabelText(l), SlotOf(l).range, SlotOf(l).hour, SlotOf(l).minute);
  }

  lemma ShichenHourBound(l: SegmentLabel)
    ensures SlotOf(l).hour <= 22 && SlotOf(l).minute == 0
  {
  }

  /** `normalizeBirthTime`: an exact time is kept as given; a segment becomes the hour picked for
      it, with its note. Valid input always gives a valid clock time. */
  function NormalizeBirthTime(t: BirthTime): (r: ClockTime)
    ensures t.Exact? ==> r == ClockTime(t.hour, t.minute, None)
    ensures t.Segment? ==>
      r.hour == SlotOf(t.slot).hour && r.minute == 0 && r.note == Some(SegmentNote(t.slot))
    ensures (t.Exact? ==> 0 <= t.hour <= 23 && 0 <= t.minute <= 59) ==>
      0 <= r.hour <= 23 && 0 <= r.minute <= 59
  {
    match t
    case Exact(h, m) => ClockTime(h, m, None)
    case Segment(l) =>
      ShichenHourBound(l);
      ClockTime(SlotOf(l).hour, SlotOf(l).minute, Some(SegmentNote(l)))
  }

  /** JavaScript's truncation of a time value toward zero. */
  function TruncReal(x: real): (n: int)
    ensures x >= 0.0 ==> n as real <= x < n as real + 1.0
    ensures x < 0.0 ==> n as real - 1.0 < x <= n as real
  {
    if x >= 0.0 then x.Floor else -((-x).Floor)
  }

  /** Minutes of solar time gained per degree of longitude east of the zone meridian 120°E. */
  function DeltaMinutes(longitude: real): real {
    (longitude - 120.0) * 4.0
  }

  lemma DeltaMinutesFacts(longitude: real)
    ensures DeltaMinutes(longitude) == 0.0 <==> longitude == 120.0
    ensures DeltaMinutes(longitude) > 0.0 <==> longitude > 120.0
    ensures 70.0 <= longitude <= 140.0 ==> -200.0 <= DeltaMinutes(longitude) <= 80.0
  {
  }

  datatype SolarCorrection = SolarCorrection(local: DateTime, corrected: DateTime, deltaMinutes: real)

  /** `correctToTrueSolarTime`: the local time built with `new Date(y, m - 1, d, hour, minute, 0)`
      and the instant `deltaMinutes` later, its time value truncated to whole milliseconds. */
  function CorrectToTrueSolarTime(y: int, m: int, d: int, hour: int, minute: int, longitude: real)
    : (r: SolarCorrection)
    ensures r.local == MakeDateTime(y, m - 1, d, hour, minute, 0)
    ensures r.deltaMinutes == DeltaMinutes(longitude)
    ensures ValidDateTime(r.corrected)
    ensures Timeline(r.corrected)
      == TruncReal(Timeline(r.local) as real + r.deltaMinutes * 60000.0)
    ensures var shift := (Timeline(r.corrected) - Timeline(r.local)) as real - r.deltaMinutes * 60000.0;
      -1.0 < shift < 1.0
  {
    var local := MakeDateTime(y, m - 1, d, hour, minute, 0);
    var delta := DeltaMinutes(longitude);
    var target := TruncReal(Timeline(local) as real + delta * 60000.0);
    SolarCorrection(local, AddMillis(local, target - Timeline(local)), delta)
  }

  /** At the zone meridian the correction leaves the clock unchanged. */
  lemma NoCorrectionOnMeridian(y: int, m: int, d: int, hour: int, minute: int)
    ensures var r := CorrectToTrueSolarTime(y, m, d, hour, minute, 120.0);
      r.corrected == r.local && r.deltaMinutes == 0.0
  {
    var r := CorrectToTrueSolarTime(y, m, d, hour, minute, 120.0);
    assert Timeline(r.corrected) == Timeline(r.local);
    TimelineInjective(r.corrected, r.local);
  }

  lemma TimelineInjective(a: DateTime, b: DateTime)
    requires ValidDateTime(a) && ValidDateTime(b) && Timeline(a) == Timeline(b)
    ensures a == b
  {
    assert DayIndex(a.date) == DayIndex(b.date) by {
      DivModTimeline(DayIndex(a.date), a.ms);
      DivModTimeline(DayIndex(b.date), b.ms);
    }
    DayIndexInjective(a.date, b.date);
  }

  lemma DivModTimeline(q: int, r: int)
    requires 0 <= r < MsPerDay
    ensures (q * MsPerDay + r) / MsPerDay == q && (q * MsPerDay + r) % MsPerDay == r
  {
    DivModOfDays(q, r);
  }

  /** `formatYmdHms`: `YYYY-MM-DD HH:MM:SS` with the year printed by `String`. */
  function FormatYmdHms(t: DateTime): (r: string)
    requires ValidDateTime(t)
    ensures 1000 <= t.date.year <= 9999 ==> (
      && |r| == 19
      && r[4] == '-' && r[7] == '-' && r[10] == ' ' && r[13] == ':' && r[16] == ':')
  {
    FieldRanges(t);
    var y := IntToString(t.date.year);
    NatToStringLength(if t.date.year >= 0 then t.date.year else 0);
    StampSlices(y, Pad2(t.date.month), Pad2(t.date.day), Pad2(Hours(t)), Pad2(Minutes(t)), Pad2(Seconds(t)));
    Stamp(y, Pad2(t.date.month), Pad2(t.date.day), Pad2(Hours(t)), Pad2(Minutes(t)), Pad2(Seconds(t)))
  }

  /** The text `y-mo-d h:mi:s` that `formatYmdHms` builds from its printed fields. */
  function Stamp(y: string, mo: string, d: string, h: string, mi: string, s: string): string {
    y + "-" + mo + "-" + d + " " + h + ":" + mi + ":" + s
  }

  /** Where the six fields of a stamp with a four-character year sit. */
  lemma StampSlices(y: string, mo: string, d: string, h: string, mi: string, s: string)
    requires |mo| == 2 && |d| == 2 && |h| == 2 && |mi| == 2 && |s| == 2
    ensures var r := Stamp(y, mo, d, h, mi, s);
      |y| == 4 ==> (
        && |r| == 19
        && r[4] == '-' && r[7] == '-' && r[10] == ' ' && r[13] == ':' && r[16] == ':'
        && r[..4] == y && r[5..7] == mo && r[8..10] == d
        && r[11..13] == h && r[14..16] == mi && r[17..19] == s)
  {
    if |y| == 4 {
      var r := Stamp(y, mo, d, h, mi, s);
      var p1 := y + "-";
      var p2 := p1 + mo + "-";
      var p3 := p2 + d + " ";
      var p4 := p3 + h + ":";
      var p5 := p4 + mi + ":";
      assert r == p5 + s;
      assert r[..4] == p1[..4];
      assert r[5..7] == p2[5..7];
      assert r[8..10] == p3[8..10];
      assert r[11..13] == p4[11..13];
      assert r[14..16] == p5[14..16];
    }
  }

  /** Reading the printed fields back returns the date and the clock time. */
  lemma {:induction false} FormatYmdHmsFields(t: DateTime)
    requires ValidDateTime(t) && 1000 <= t.date.year <= 9999
    ensures var r := FormatYmdHms(t);
      && AllDigits(r[..4]) && ParseNat(r[..4]) == t.date.year
      && AllDigits(r[5..7]) && ParseNat(r[5..7]) == t.date.month
      && AllDigits(r[8..10]) && ParseNat(r[8..10]) == t.date.day
      && AllDigits(r[11..13]) && ParseNat(r[11..13]) == Hours(t)
      && AllDigits(r[14..16]) && ParseNat(r[14..16]) == Minutes(t)
      && AllDigits(r[17..19]) && ParseNat(r[17..19]) == Seconds(t)
  {
    FieldRanges(t);
    NatToStringLength(t.date.year);
    ParseNatToString(t.date.year);
    ParsePad2(t.date.month);
    ParsePad2(t.date.day);
    ParsePad2(Hours(t));
    ParsePad2(Minutes(t));
    ParsePad2(Seconds(t));
    StampSlices(IntToString(t.date.year), Pad2(t.date.month), Pad2(t.date.day),
      Pad2(Hours(t)), Pad2(Minutes(t)), Pad2(Seconds(t)));
  }
}
