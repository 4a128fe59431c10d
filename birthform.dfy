/** The form logic of the birth-data page (apps/web/src/pages/Step1.tsx): clamping picker
    values into range, building the picker option lists, committing the date sheet, and the
    keyword search over the flattened list of Chinese provinces, cities and districts. */
module BirthForm {
  import opened Strings
  import opened Calendar
  import opened Birth

  // ---------------------------------------------------------------- numbers

  /** A JavaScript number: a finite value, or NaN or an infinity. */
  datatype Num = Finite(value: real) | NonFinite

  /** `clampInt`: `min` for a non-finite value, else the truncated value clamped into
      `[min, max]` (by `Math.max(min, Math.min(max, ...))`, so `min` wins when `min > max`). */
  function ClampInt(n: Num, min: int, max: int): (r: int)
    ensures n.NonFinite? || min > max ==> r == min
    ensures n.Finite? && min <= max ==> min <= r <= max
    ensures n.Finite? && min <= TruncReal(n.value) <= max ==> r == TruncReal(n.value)
    ensures n.Finite? && TruncReal(n.value) < min ==> r == min
    ensures n.Finite? && min <= max < TruncReal(n.value) ==> r == max
  {
    match n
    case NonFinite => min
    case Finite(x) =>
      var t := TruncReal(x);
      var upper := if max < t then max else t;
      if min > upper then min else upper
  }

  /** An integer already in range passes through unchanged. */
  lemma ClampIntKeeps(k: int, min: int, max: int)
    requires min <= k <= max
    ensures ClampInt(Finite(k as real), min, max) == k
  {
    assert TruncReal(k as real) == k;
  }

  /** Clamping twice is clamping once. */
  lemma ClampIntIdempotent(n: Num, min: int, max: int)
    requires min <= max
    ensures ClampInt(Finite(ClampInt(n, min, max) as real), min, max) == ClampInt(n, min, max)
  {
    ClampIntKeeps(ClampInt(n, min, max), min, max);
  }

  /** The integers `min..max` in ascending order. */
  function Range(min: int, max: int): (r: seq<int>)
    ensures |r| == if min <= max then max - min + 1 else 0
    ensures forall k :: 0 <= k < |r| ==> r[k] == min + k
  {
    seq(if min <= max then max - min + 1 else 0, k => min + k)
  }

  /** `buildRange`: pushes `min, min + 1, ..., max`. */
  method BuildRange(min: int, max: int) returns (out: seq<int>)
    ensures out == Range(min, max)
  {
    out := [];
    var i := min;
    while i <= max
      invariant min <= i && (min <= max ==> i <= max + 1)
      invariant min > max ==> i == min
      invariant |out| == i - min
      invariant forall k :: 0 <= k < |out| ==> out[k] == min + k
      decreases max - i
    {
      out := out + [i];
      i := i + 1;
    }
  }

  /** The range holds exactly the integers from `min` to `max`, each once, ascending. */
  lemma RangeMembers(min: int, max: int, x: int)
    ensures x in Range(min, max) <==> min <= x <= max
    ensures forall p, q :: 0 <= p < q < |Range(min, max)| ==> Range(min, max)[p] < Range(min, max)[q]
  {
    var r := Range(min, max);
    if min <= x <= max {
      assert r[x - min] == x;
    }
  }

  // ---------------------------------------------------------------- the date sheet

  datatype TimeMode = ExactMode | SegmentMode

  /** The committed date and time fields of the form. */
  datatype DateForm = DateForm(
    calendar: CalendarType, year: int, month: int, day: int, isLeapMonth: bool,
    timeMode: TimeMode, hour: int, minute: int, timeLabel: SegmentLabel)

  /** The draft values the date sheet edits (`tmpYear`, `tmpMonth`, ...). */
  datatype DateSheet = DateSheet(
    calendar: CalendarType, year: Num, month: Num, day: Num, leap: bool,
    timeMode: TimeMode, hour: Num, minute: Num, timeLabel: SegmentLabel)

  /** `daysInSolarMonth(y, m)`: `new Date(y, m, 0).getDate()`. */
  function DaysInSolarMonth(y: int, m: int): (r: int)
    requires !(0 <= y <= 99) && 1 <= m <= 12
    ensures r == DaysInMonth(y, m)
  {
    DayZeroIsMonthEnd(y, m);
    MakeDateTime(y, m, 0, 0, 0, 0).date.day
  }

  /** The last day the sheet offers: the month length for a solar date, 30 for a lunar one. */
  function MaxDay(c: CalendarType, y: int, m: int): (r: int)
    requires 1800 <= y <= 2200 && 1 <= m <= 12
    ensures c == Lunar ==> r == 30
    ensures c == Solar ==> r == DaysInMonth(y, m)
  {
    match c
    case Solar => DaysInSolarMonth(y, m)
    case Lunar => 30
  }

  /** A committed form: the date within the sheet's ranges, and in exact mode the clock too. */
  predicate ValidForm(f: DateForm) {
    && 1800 <= f.year <= 2200 && 1 <= f.month <= 12
    && 1 <= f.day <= MaxDay(f.calendar, f.year, f.month)
    && (f.timeMode == ExactMode ==> 0 <= f.hour <= 23 && 0 <= f.minute <= 59)
  }

  /** `confirmDateSheet`: commits the draft, clamping year, month and day (the day against the
      clamped year and month), and the hour and minute in exact mode; in segment mode it
      commits the label and leaves the hour and minute as they were. */
  function ConfirmDateSheet(sheet: DateSheet, form: DateForm): (r: DateForm)
    ensures ValidForm(r)
    ensures r.calendar == sheet.calendar && r.isLeapMonth == sheet.leap && r.timeMode == sheet.timeMode
    ensures r.year == ClampInt(sheet.year, 1800, 2200) && r.month == ClampInt(sheet.month, 1, 12)
    ensures r.day == ClampInt(sheet.day, 1, MaxDay(sheet.calendar, r.year, r.month))
    ensures sheet.timeMode == ExactMode ==>
      r.hour == ClampInt(sheet.hour, 0, 23) && r.minute == ClampInt(sheet.minute, 0, 59)
      && r.timeLabel == form.timeLabel
    ensures sheet.timeMode == SegmentMode ==>
      r.hour == form.hour && r.minute == form.minute && r.timeLabel == sheet.timeLabel
  {
    var y := ClampInt(sheet.year, 1800, 2200);
    var m := ClampInt(sheet.month, 1, 12);
    var d := ClampInt(sheet.day, 1, MaxDay(sheet.calendar, y, m));
    match sheet.timeMode
    case ExactMode =>
      DateForm(sheet.calendar, y, m, d, sheet.leap, ExactMode,
        ClampInt(sheet.hour, 0, 23), ClampInt(sheet.minute, 0, 59), form.timeLabel)
    case SegmentMode =>
      DateForm(sheet.calendar, y, m, d, sheet.leap, SegmentMode, form.hour, form.minute, sheet.timeLabel)
  }

  /** `openDateSheet`: the draft starts as a copy of the committed fields. */
  function OpenDateSheet(f: DateForm): (r: DateSheet)
    ensures r.calendar == f.calendar && r.leap == f.isLeapMonth && r.timeMode == f.timeMode
    ensures r.year == Finite(f.year as real) && r.month == Finite(f.month as real)
    ensures r.day == Finite(f.day as real) && r.timeLabel == f.timeLabel
    ensures r.hour == Finite(f.hour as real) && r.minute == Finite(f.minute as real)
  {
    DateSheet(f.calendar, Finite(f.year as real), Finite(f.month as real), Finite(f.day as real),
      f.isLeapMonth, f.timeMode, Finite(f.hour as real), Finite(f.minute as real), f.timeLabel)
  }

  /** Opening the sheet and confirming it untouched leaves a committed form as it was. */
  lemma ReconfirmUnchanged(f: DateForm)
    requires ValidForm(f)
    ensures ConfirmDateSheet(OpenDateSheet(f), f) == f
  {
    ClampIntKeeps(f.year, 1800, 2200);
    ClampIntKeeps(f.month, 1, 12);
    ClampIntKeeps(f.day, 1, MaxDay(f.calendar, f.year, f.month));
    if f.timeMode == ExactMode {
      ClampIntKeeps(f.hour, 0, 23);
      ClampIntKeeps(f.minute, 0, 59);
    }
  }

  /** So confirming is idempotent: confirming again what was just committed changes nothing. */
  lemma ConfirmIdempotent(sheet: DateSheet, form: DateForm)
    ensures var r := ConfirmDateSheet(sheet, form); ConfirmDateSheet(OpenDateSheet(r), r) == r
  {
    ReconfirmUnchanged(ConfirmDateSheet(sheet, form));
  }

  // ---------------------------------------------------------------- address search

  /** One entry of the flattened area list; a city without districts has `district == ""`. */
  datatype Address = Address(province: string, city: string, district: string)

  /** A search result; `None` stands for `undefined`. */
  datatype GeoCandidate = GeoCandidate(
    displayName: string, name: string,
    province: Option<string>, city: Option<string>, district: Option<string>)

  /** The non-empty fields, from province down to district. */
  function Parts(a: Address): (r: seq<string>)
    ensures forall k :: 0 <= k < |r| ==> r[k] != []
  {
    (if a.province != [] then [a.province] else [])
    + (if a.city != [] then [a.city] else [])
    + (if a.district != [] then [a.district] else [])
  }

  /** The parts are the fields filtered to the non-empty ones, kept in order. */
  lemma {:induction false} PartsInOrder(a: Address)
    ensures Parts(a) == NonEmpty([a.province, a.city, a.district])
  {
    var p, c, d := a.province, a.city, a.district;
    NonEmptyOne(p);
    NonEmptyOne(c);
    NonEmptyOne(d);
    NonEmptyAppend([p], [c]);
    assert [p] + [c] == [p, c];
    NonEmptyAppend([p, c], [d]);
    assert [p, c] + [d] == [p, c, d];
  }

  function DisplayName(a: Address): string {
    Join(Parts(a), " - ")
  }

  /** A full address is shown as "province - city - district". */
  lemma DisplayNameFull(a: Address)
    requires a.province != [] && a.city != [] && a.district != []
    ensures DisplayName(a) == a.province + " - " + a.city + " - " + a.district
  {
    JoinSnoc([a.province], a.city, " - ");
    assert [a.province, a.city] == [a.province] + [a.city];
    JoinSnoc([a.province, a.city], a.district, " - ");
    assert Parts(a) == [a.province, a.city] + [a.district];
  }

  /** A city without districts is shown as "province - city". */
  lemma DisplayNameCity(a: Address)
    requires a.province != [] && a.city != [] && a.district == []
    ensures DisplayName(a) == a.province + " - " + a.city
  {
    JoinSnoc([a.province], a.city, " - ");
    assert Parts(a) == [a.province] + [a.city];
  }

  /** `s || undefined`. */
  function OrUndefined(s: string): (r: Option<string>)
    ensures r.None? <==> s == []
    ensures r.Some? ==> r.value == s
  {
    if s == [] then None else Some(s)
  }

  /** The candidate pushed for a matching address. */
  function Candidate(a: Address): GeoCandidate {
    GeoCandidate(DisplayName(a),
      if a.district != [] then a.district else if a.city != [] then a.city else a.province,
      OrUndefined(a.province), OrUndefined(a.city), OrUndefined(a.district))
  }

  /** A candidate's name is the most specific part of its display name. */
  lemma CandidateName(a: Address)
    requires Parts(a) != []
    ensures Candidate(a).name == Parts(a)[|Parts(a)| - 1] && Candidate(a).name != []
  {
  }

  /** `field && field.toLowerCase().includes(keywordLower)`. */
  predicate FieldMatches(field: string, keywordLower: string) {
    field != [] && Contains(ToLower(field), keywordLower)
  }

  predicate Matches(a: Address, keywordLower: string) {
    FieldMatches(a.province, keywordLower) || FieldMatches(a.city, keywordLower)
    || FieldMatches(a.district, keywordLower)
  }

  /** The candidates the loop pushes from entry `i` on, `seen` holding the display names already
      pushed. */
  function SearchFrom(addresses: seq<Address>, keywordLower: string, i: nat, seen: set<string>): seq<GeoCandidate>
    decreases |addresses| - i
  {
    if i >= |addresses| then []
    else
      var a := addresses[i];
      if Matches(a, keywordLower) && DisplayName(a) !in seen then
        [Candidate(a)] + SearchFrom(addresses, keywordLower, i + 1, seen + {DisplayName(a)})
      else SearchFrom(addresses, keywordLower, i + 1, seen)
  }

  /** The matcher `searchAddressLocal` returns, applied to `keyword`. */
  function Search(addresses: seq<Address>, keyword: string): (r: seq<GeoCandidate>)
    ensures IsBlank(keyword) ==> r == []
  {
    if IsBlank(keyword) then [] else SearchFrom(addresses, Trim(ToLower(keyword)), 0, {})
  }

  /** The matcher: for a non-blank keyword, walks the list once, pushing each matching address
      whose display name has not been pushed yet. */
  method SearchAddress(addresses: seq<Address>, keyword: string) returns (results: seq<GeoCandidate>)
    ensures results == Search(addresses, keyword)
  {
    if IsBlank(keyword) {
      return [];
    }
    var keywordLower := Trim(ToLower(keyword));
    results := [];
    var seen: set<string> := {};
    var i := 0;
    while i < |addresses|
      invariant i <= |addresses|
      invariant results + SearchFrom(addresses, keywordLower, i, seen) == SearchFrom(addresses, keywordLower, 0, {})
      decreases |addresses| - i
    {
      results, seen := SearchTurn(addresses, keywordLower, i, results, seen);
      i := i + 1;
    }
  }

  /** One turn of the matcher's loop, at entry `i`. */
  method SearchTurn(addresses: seq<Address>, keywordLower: string, i: nat,
                    results: seq<GeoCandidate>, seen: set<string>)
    returns (results': seq<GeoCandidate>, seen': set<string>)
    requires i < |addresses|
    ensures results' + SearchFrom(addresses, keywordLower, i + 1, seen')
      == results + SearchFrom(addresses, keywordLower, i, seen)
  {
    results', seen' := results, seen;
    var a := addresses[i];
    SearchFromStep(addresses, keywordLower, i, seen);
    if Matches(a, keywordLower) {
      var displayName := DisplayName(a);
      if displayName !in seen {
        seen' := seen + {displayName};
        results' := results + [Candidate(a)];
        Associative(results, [Candidate(a)], SearchFrom(addresses, keywordLower, i + 1, seen'));
      }
    }
  }

  lemma Associative<T>(a: seq<T>, b: seq<T>, c: seq<T>)
    ensures a + (b + c) == (a + b) + c
  {
  }

  /** One entry of the walk: a matching address with a new display name is pushed and its name
      is seen from then on; any other address is passed over. */
  lemma SearchFromStep(addresses: seq<Address>, kw: string, i: nat, seen: set<string>)
    requires i < |addresses|
    ensures var a := addresses[i];
      SearchFrom(addresses, kw, i, seen) ==
        if Matches(a, kw) && DisplayName(a) !in seen then
          [Candidate(a)] + SearchFrom(addresses, kw, i + 1, seen + {DisplayName(a)})
        else SearchFrom(addresses, kw, i + 1, seen)
  {
  }

  /** Entry `j`, at or after `i`, matches, its display name is not in `seen`, and no matching
      entry between `i` and `j` has that display name. */
  predicate FirstNew(addresses: seq<Address>, kw: string, i: nat, seen: set<string>, j: nat) {
    && i <= j < |addresses| && Matches(addresses[j], kw) && DisplayName(addresses[j]) !in seen
    && forall k :: i <= k < j && Matches(addresses[k], kw) ==> DisplayName(addresses[k]) != DisplayName(addresses[j])
  }

  /** An entry first new from `i + 1` on is first new from `i` on, when entry `i` either does
      not match or has its name in `seen'`. */
  lemma FirstNewBack(addresses: seq<Address>, kw: string, i: nat, seen: set<string>, seen': set<string>, j: nat)
    requires i < |addresses| && FirstNew(addresses, kw, i + 1, seen', j)
    requires seen <= seen'
    requires Matches(addresses[i], kw) ==> DisplayName(addresses[i]) in seen'
    ensures FirstNew(addresses, kw, i, seen, j)
  {
  }

  /** Each result is the candidate of a matching address at or after `i`, the first one with
      its display name, which was not yet seen. */
  lemma {:induction false} SearchFromSound(addresses: seq<Address>, kw: string, i: nat, seen: set<string>, p: nat)
    returns (j: nat)
    requires p < |SearchFrom(addresses, kw, i, seen)|
    ensures FirstNew(addresses, kw, i, seen, j) && SearchFrom(addresses, kw, i, seen)[p] == Candidate(addresses[j])
    decreases |addresses| - i
  {
    if i >= |addresses| {
      assert false;
    }
    var a := addresses[i];
    if Matches(a, kw) && DisplayName(a) !in seen {
      if p == 0 {
        j := i;
        SoundHead(addresses, kw, i, seen);
      } else {
        j := SearchFromSound(addresses, kw, i + 1, seen + {DisplayName(a)}, p - 1);
        SoundPushed(addresses, kw, i, seen, p, j);
      }
    } else {
      j := SearchFromSound(addresses, kw, i + 1, seen, p);
      SoundPassed(addresses, kw, i, seen, p, j);
    }
  }

  /** The first result from a matching entry with a new name is that entry's candidate. */
  lemma {:induction false} SoundHead(addresses: seq<Address>, kw: string, i: nat, seen: set<string>)
    requires i < |addresses| && Matches(addresses[i], kw) && DisplayName(addresses[i]) !in seen
    ensures 0 < |SearchFrom(addresses, kw, i, seen)|
    ensures FirstNew(addresses, kw, i, seen, i) && SearchFrom(addresses, kw, i, seen)[0] == Candidate(addresses[i])
  {
    SearchFromStep(addresses, kw, i, seen);
  }

  /** A later result behind a pushed entry comes from the walk after it. */
  lemma {:induction false} SoundPushed(addresses: seq<Address>, kw: string, i: nat, seen: set<string>, p: nat, j: nat)
    requires i < |addresses| && Matches(addresses[i], kw) && DisplayName(addresses[i]) !in seen
    requires 0 < p < |SearchFrom(addresses, kw, i, seen)|
    requires FirstNew(addresses, kw, i + 1, seen + {DisplayName(addresses[i])}, j)
    requires SearchFrom(addresses, kw, i + 1, seen + {DisplayName(addresses[i])})[p - 1] == Candidate(addresses[j])
    ensures FirstNew(addresses, kw, i, seen, j) && SearchFrom(addresses, kw, i, seen)[p] == Candidate(addresses[j])
  {
    SearchFromStep(addresses, kw, i, seen);
    FirstNewBack(addresses, kw, i, seen, seen + {DisplayName(addresses[i])}, j);
  }

  /** A result behind a passed-over entry comes from the walk after it. */
  lemma {:induction false} SoundPassed(addresses: seq<Address>, kw: string, i: nat, seen: set<string>, p: nat, j: nat)
    requires i < |addresses| && !(Matches(addresses[i], kw) && DisplayName(addresses[i]) !in seen)
    requires p < |SearchFrom(addresses, kw, i, seen)|
    requires FirstNew(addresses, kw, i + 1, seen, j)
    requires SearchFrom(addresses, kw, i + 1, seen)[p] == Candidate(addresses[j])
    ensures FirstNew(addresses, kw, i, seen, j) && SearchFrom(addresses, kw, i, seen)[p] == Candidate(addresses[j])
  {
    SearchFromStep(addresses, kw, i, seen);
    FirstNewBack(addresses, kw, i, seen, seen, j);
  }

  /** No display name in `r` is in `seen`. */
  predicate NamesAvoid(r: seq<GeoCandidate>, seen: set<string>) {
    forall p :: 0 <= p < |r| ==> r[p].displayName !in seen
  }

  /** The display names in `r` are pairwise distinct. */
  predicate NamesDistinct(r: seq<GeoCandidate>) {
    forall p, q :: 0 <= p < q < |r| ==> r[p].displayName != r[q].displayName
  }

  /** Pushing a candidate not yet seen in front of results that avoid it keeps the names
      distinct. */
  lemma ConsDistinct(c: GeoCandidate, rest: seq<GeoCandidate>, seen: set<string>)
    requires c.displayName !in seen && NamesAvoid(rest, seen + {c.displayName}) && NamesDistinct(rest)
    ensures NamesAvoid([c] + rest, seen) && NamesDistinct([c] + rest)
  {
    var r := [c] + rest;
    forall p, q | 0 <= p < q < |r| ensures r[p].displayName != r[q].displayName {
      assert r[q] == rest[q - 1];
      if p > 0 { assert r[p] == rest[p - 1]; }
    }
    forall p | 0 <= p < |r| ensures r[p].displayName !in seen {
      if p > 0 { assert r[p] == rest[p - 1]; }
    }
  }

  /** The display names of the results are pairwise distinct and none of them was seen. */
  lemma {:induction false} SearchFromDistinct(addresses: seq<Address>, kw: string, i: nat, seen: set<string>)
    ensures NamesAvoid(SearchFrom(addresses, kw, i, seen), seen)
    ensures NamesDistinct(SearchFrom(addresses, kw, i, seen))
    decreases |addresses| - i
  {
    if i < |addresses| {
      var a := addresses[i];
      if Matches(a, kw) && DisplayName(a) !in seen {
        var seen' := seen + {DisplayName(a)};
        SearchFromDistinct(addresses, kw, i + 1, seen');
        ConsDistinct(Candidate(a), SearchFrom(addresses, kw, i + 1, seen'), seen);
      } else {
        SearchFromDistinct(addresses, kw, i + 1, seen);
      }
    }
  }

  /** Some result of `r` has display name `name`. */
  predicate HasName(r: seq<GeoCandidate>, name: string) {
    exists p :: 0 <= p < |r| && r[p].displayName == name
  }

  /** Some matching address of the list has `c` as its candidate. */
  predicate FromMatch(addresses: seq<Address>, kw: string, c: GeoCandidate) {
    exists j :: 0 <= j < |addresses| && Matches(addresses[j], kw) && c == Candidate(addresses[j])
  }

  /** A name among the later results is among the results. */
  lemma HasNameCons(c: GeoCandidate, rest: seq<GeoCandidate>, name: string)
    requires HasName(rest, name) || c.displayName == name
    ensures HasName([c] + rest, name)
  {
    var r := [c] + rest;
    if c.displayName == name {
      assert r[0].displayName == name;
    } else {
      var p :| 0 <= p < |rest| && rest[p].displayName == name;
      assert r[p + 1] == rest[p];
    }
  }

  /** Every matching address at or after `i` whose display name was not seen has a result
      with that display name. */
  lemma {:induction false} SearchFromComplete(addresses: seq<Address>, kw: string, i: nat, seen: set<string>, j: nat)
    requires i <= j < |addresses| && Matches(addresses[j], kw) && DisplayName(addresses[j]) !in seen
    ensures HasName(SearchFrom(addresses, kw, i, seen), DisplayName(addresses[j]))
    decreases |addresses| - i
  {
    var name := DisplayName(addresses[j]);
    var a := addresses[i];
    if Matches(a, kw) && DisplayName(a) !in seen {
      if DisplayName(a) != name {
        assert j != i && name !in seen + {DisplayName(a)};
        SearchFromComplete(addresses, kw, i + 1, seen + {DisplayName(a)}, j);
      }
      CompleteTaken(addresses, kw, i, seen, name);
    } else {
      assert j != i;
      SearchFromComplete(addresses, kw, i + 1, seen, j);
      CompleteSkipped(addresses, kw, i, seen, name);
    }
  }

  /** A taken entry brings its own display name, and those of the results after it. */
  lemma CompleteTaken(addresses: seq<Address>, kw: string, i: nat, seen: set<string>, name: string)
    requires i < |addresses| && Matches(addresses[i], kw) && DisplayName(addresses[i]) !in seen
    requires DisplayName(addresses[i]) == name
      || HasName(SearchFrom(addresses, kw, i + 1, seen + {DisplayName(addresses[i])}), name)
    ensures HasName(SearchFrom(addresses, kw, i, seen), name)
  {
    var a := addresses[i];
    SearchFromStep(addresses, kw, i, seen);
    assert Candidate(a).displayName == DisplayName(a);
    HasNameCons(Candidate(a), SearchFrom(addresses, kw, i + 1, seen + {DisplayName(a)}), name);
  }

  /** A skipped entry leaves the results after it, and their display names, as they are. */
  lemma CompleteSkipped(addresses: seq<Address>, kw: string, i: nat, seen: set<string>, name: string)
    requires i < |addresses| && !(Matches(addresses[i], kw) && DisplayName(addresses[i]) !in seen)
    requires HasName(SearchFrom(addresses, kw, i + 1, seen), name)
    ensures HasName(SearchFrom(addresses, kw, i, seen), name)
  {
    SearchFromStep(addresses, kw, i, seen);
  }

  /** `js` lists, in strictly increasing order, entries of the list from `i` on that match and
      whose candidates are `r`, position by position. */
  predicate InListOrder(addresses: seq<Address>, kw: string, r: seq<GeoCandidate>, js: seq<nat>, i: nat) {
    && |js| == |r|
    && (forall p :: 0 <= p < |js| ==>
          i <= js[p] < |addresses| && Matches(addresses[js[p]], kw) && r[p] == Candidate(addresses[js[p]]))
    && (forall p, q :: 0 <= p < q < |js| ==> js[p] < js[q])
  }

  /** The results from entry `i` on come in the order of the list. */
  lemma {:induction false} SearchFromOrdered(addresses: seq<Address>, kw: string, i: nat, seen: set<string>)
    returns (js: seq<nat>)
    ensures InListOrder(addresses, kw, SearchFrom(addresses, kw, i, seen), js, i)
    decreases |addresses| - i
  {
    if i >= |addresses| {
      js := [];
    } else {
      var a := addresses[i];
      if Matches(a, kw) && DisplayName(a) !in seen {
        var tail := SearchFrom(addresses, kw, i + 1, seen + {DisplayName(a)});
        var rest := SearchFromOrdered(addresses, kw, i + 1, seen + {DisplayName(a)});
        assert SearchFrom(addresses, kw, i, seen) == [Candidate(a)] + tail;
        OrderedCons(addresses, kw, i, tail, rest);
        js := [i] + rest;
      } else {
        assert SearchFrom(addresses, kw, i, seen) == SearchFrom(addresses, kw, i + 1, seen);
        js := SearchFromOrdered(addresses, kw, i + 1, seen);
        OrderedFromEarlier(addresses, kw, SearchFrom(addresses, kw, i + 1, seen), js, i);
      }
    }
  }

  /** A match at entry `i` put in front of results from later entries keeps list order. */
  lemma OrderedCons(addresses: seq<Address>, kw: string, i: nat, tail: seq<GeoCandidate>, rest: seq<nat>)
    requires i < |addresses| && Matches(addresses[i], kw) && InListOrder(addresses, kw, tail, rest, i + 1)
    ensures InListOrder(addresses, kw, [Candidate(addresses[i])] + tail, [i] + rest, i)
  {
    var r, js := [Candidate(addresses[i])] + tail, [i] + rest;
    forall p | 0 < p < |js| ensures js[p] == rest[p - 1] && r[p] == tail[p - 1] {
    }
  }

  /** Results from entries after `i` are also results from entries from `i` on. */
  lemma OrderedFromEarlier(addresses: seq<Address>, kw: string, r: seq<GeoCandidate>, js: seq<nat>, i: nat)
    requires InListOrder(addresses, kw, r, js, i + 1)
    ensures InListOrder(addresses, kw, r, js, i)
  {
  }

  /** The search returns one candidate per distinct display name among the matching
      addresses, and nothing else. */
  lemma SearchFacts(addresses: seq<Address>, keyword: string)
    requires !IsBlank(keyword)
    ensures var kw := Trim(ToLower(keyword)); var r := Search(addresses, keyword);
      && NamesDistinct(r)
      && (forall p :: 0 <= p < |r| ==> FromMatch(addresses, kw, r[p]))
      && (forall j :: 0 <= j < |addresses| && Matches(addresses[j], kw) ==> HasName(r, DisplayName(addresses[j])))
      && (exists js :: InListOrder(addresses, kw, r, js, 0))
  {
    var kw := Trim(ToLower(keyword));
    var r := SearchFrom(addresses, kw, 0, {});
    SearchInListOrder(addresses, keyword);
    SearchFromDistinct(addresses, kw, 0, {});
    forall p | 0 <= p < |r| ensures FromMatch(addresses, kw, r[p]) {
      var j := SearchFromSound(addresses, kw, 0, {}, p);
    }
    forall j | 0 <= j < |addresses| && Matches(addresses[j], kw)
      ensures HasName(r, DisplayName(addresses[j]))
    {
      SearchFromComplete(addresses, kw, 0, {}, j);
    }
  }

  /** The results come in the order of the list: each is the candidate of a matching entry,
      and the entries behind them appear in the list in the same order. */
  lemma SearchInListOrder(addresses: seq<Address>, keyword: string)
    requires !IsBlank(keyword)
    ensures exists js :: InListOrder(addresses, Trim(ToLower(keyword)), Search(addresses, keyword), js, 0)
  {
    var kw := Trim(ToLower(keyword));
    var js := SearchFromOrdered(addresses, kw, 0, {});
    assert Search(addresses, keyword) == SearchFrom(addresses, kw, 0, {});
    assert InListOrder(addresses, kw, Search(addresses, keyword), js, 0);
  }

  /** The keyword is matched case-insensitively: a lower-cased keyword finds the same results. */
  lemma SearchCaseInsensitive(addresses: seq<Address>, keyword: string)
    ensures Search(addresses, ToLower(keyword)) == Search(addresses, keyword)
  {
    ToLowerBlank(keyword);
    ToLowerIdempotent(keyword);
  }
}
