/** The display helpers of the web front end (apps/web/src/lib/format.ts): the Chinese labels
    of gender and calendar, the `YYYY-MM-DD` date with its leap-month mark, and the time label. */
module Format {
  import opened Strings
  import opened Birth

  function GenderLabel(g: Gender): (r: string)
    ensures r == "男" <==> g == Male
    ensures r == "女" <==> g == Female
  {
    match g
    case Male => "男"
    case Female => assert "女"[0] != "男"[0]; "女"
  }

  function CalendarLabel(c: CalendarType): (r: string)
    ensures r == "公历" <==> c == Solar
    ensures r == "农历" <==> c == Lunar
  {
    match c
    case Solar => "公历"
    case Lunar => assert "农历"[0] != "公历"[0]; "农历"
  }

  /** `String(n).padStart(w, "0")`. */
  function Padded(n: int, w: nat): (r: string)
    ensures r != [] && IsDigit(r[|r| - 1])
  {
    var s := IntToString(n);
    assert IsDigit(s[|s| - 1]);
    PadStart(s, w, '0')
  }

  /** A padded non-negative number is exactly `w` digits wide and reads back as `n`. */
  lemma PaddedReadsBack(n: int, w: nat)
    requires 0 <= n && |NatToString(n)| <= w
    ensures |Padded(n, w)| == w && AllDigits(Padded(n, w)) && ParseNat(Padded(n, w)) == n
  {
    var s := NatToString(n);
    ParseNatToString(n);
    if |s| < w {
      var z := Repeat('0', w - |s|);
      assert Padded(n, w) == z + s;
      ParseNatLeadingZeros(z, s);
    } else {
      assert Padded(n, w) == s;
    }
  }

  /** The two- and four-digit cases the formatters use. */
  lemma PaddedWidth(n: int, w: nat)
    requires w == 2 || w == 4
    requires 0 <= n && (w == 2 ==> n < 100) && (w == 4 ==> n < 10000)
    ensures |Padded(n, w)| == w && AllDigits(Padded(n, w)) && ParseNat(Padded(n, w)) == n
  {
    NatToStringLength(n);
    PaddedReadsBack(n, w);
  }

  /** The mark `formatDateYmd` appends for a leap month. */
  function LeapMark(): string { "(闰月)" }

  /** The `YYYY-MM-DD` part of `formatDateYmd`. */
  function DatePart(d: BirthDate): (r: string)
    ensures r != [] && IsDigit(r[|r| - 1])
  {
    Padded(d.year, 4) + "-" + Padded(d.month, 2) + "-" + Padded(d.day, 2)
  }

  function FormatDateYmd(d: BirthDate): string {
    DatePart(d) + (if d.isLeapMonth == Some(true) then LeapMark() else "")
  }

  /** The formatted date ends in the leap mark exactly when the month is a leap month. */
  lemma FormatDateYmdLeap(d: BirthDate)
    ensures EndsWith(FormatDateYmd(d), LeapMark()) <==> d.isLeapMonth == Some(true)
  {
    if d.isLeapMonth == Some(true) {
      LeapDateEnds(d);
    } else {
      PlainDateEnds(d);
    }
  }

  lemma LeapDateEnds(d: BirthDate)
    requires d.isLeapMonth == Some(true)
    ensures EndsWith(FormatDateYmd(d), LeapMark())
  {
    var r := FormatDateYmd(d);
    assert r[|r| - |LeapMark()|..] == LeapMark();
  }

  /** Without the mark the date ends in a digit, which the mark does not. */
  lemma PlainDateEnds(d: BirthDate)
    requires d.isLeapMonth != Some(true)
    ensures !EndsWith(FormatDateYmd(d), LeapMark())
  {
    PlainDateIsPart(d);
    DigitEndMissesMark(DatePart(d));
  }

  lemma PlainDateIsPart(d: BirthDate)
    requires d.isLeapMonth != Some(true)
    ensures FormatDateYmd(d) == DatePart(d)
  {
    assert DatePart(d) + "" == DatePart(d);
  }

  lemma DigitEndMissesMark(h: string)
    requires h != [] && IsDigit(h[|h| - 1])
    ensures !EndsWith(h, LeapMark())
  {
    assert !IsDigit(LeapMark()[|LeapMark()| - 1]);
    EndsWithLast(h, LeapMark());
  }

  /** For a four-digit year and two-digit month and day, the date part is exactly ten
      characters, `YYYY-MM-DD`, whose three fields read back as the date's fields, and what
      follows it is the leap mark exactly when the month is a leap month. */
  lemma {:induction false} FormatDateYmdFields(d: BirthDate)
    requires 0 <= d.year < 10000 && 0 <= d.month < 100 && 0 <= d.day < 100
    ensures var r := FormatDateYmd(d);
      && |r| >= 10 && r[4] == '-' && r[7] == '-'
      && AllDigits(r[..4]) && ParseNat(r[..4]) == d.year
      && AllDigits(r[5..7]) && ParseNat(r[5..7]) == d.month
      && AllDigits(r[8..10]) && ParseNat(r[8..10]) == d.day
      && r[10..] == (if d.isLeapMonth == Some(true) then LeapMark() else "")
  {
    PaddedWidth(d.year, 4);
    PaddedWidth(d.month, 2);
    PaddedWidth(d.day, 2);
    FieldSlices(Padded(d.year, 4), Padded(d.month, 2), Padded(d.day, 2),
      if d.isLeapMonth == Some(true) then LeapMark() else "");
  }

  /** Where the three fields of `y-m-dd` followed by `tail` sit. */
  lemma FieldSlices(y: string, m: string, dd: string, tail: string)
    requires |y| == 4 && |m| == 2 && |dd| == 2
    ensures var r := y + "-" + m + "-" + dd + tail;
      && |r| == 10 + |tail| && r[4] == '-' && r[7] == '-'
      && r[..4] == y && r[5..7] == m && r[8..10] == dd && r[10..] == tail
  {
  }

  /** Every date the birth schema admits prints as exactly ten characters plus the leap mark. */
  lemma FormatDateYmdLength(d: BirthDate)
    requires 1800 <= d.year <= 2200 && 1 <= d.month <= 12 && 1 <= d.day <= 31
    ensures |FormatDateYmd(d)| == 10 + (if d.isLeapMonth == Some(true) then |LeapMark()| else 0)
  {
    FormatDateYmdFields(d);
  }

  /** The `HH:MM` form of an exact time. */
  function ClockText(hour: int, minute: int): string {
    Padded(hour, 2) + ":" + Padded(minute, 2)
  }

  function FormatTimeLabel(t: BirthTime): string {
    match t
    case Exact(hour, minute) => ClockText(hour, minute)
    case Segment(slot) => LabelText(slot)
  }

  /** An exact two-digit time prints as `HH:MM`, whose fields read back as the hour and minute. */
  lemma FormatTimeLabelExact(hour: int, minute: int)
    requires 0 <= hour < 100 && 0 <= minute < 100
    ensures var r := FormatTimeLabel(Exact(hour, minute));
      && |r| == 5 && r[2] == ':'
      && AllDigits(r[..2]) && ParseNat(r[..2]) == hour
      && AllDigits(r[3..]) && ParseNat(r[3..]) == minute
  {
    PaddedWidth(hour, 2);
    PaddedWidth(minute, 2);
    ClockSlices(Padded(hour, 2), Padded(minute, 2));
  }

  /** Where the two fields of `hh:mm` sit. */
  lemma ClockSlices(hh: string, mm: string)
    requires |hh| == 2 && |mm| == 2
    ensures var r := hh + ":" + mm;
      |r| == 5 && r[2] == ':' && r[..2] == hh && r[3..] == mm
  {
  }

  /** A segment time prints as its label, which the schema reads back as the same segment. */
  lemma FormatTimeLabelSegment(slot: SegmentLabel)
    ensures ParseLabel(FormatTimeLabel(Segment(slot))) == Some(slot)
  {
    ParseLabelText(slot);
  }
}
