/** The few JavaScript string and Option behaviours the rest of the model leans on:
    `trim`, ASCII `toLowerCase`, `includes`, `indexOf`, `startsWith`, `padStart`, `String(n)`,
    `Array.join` and `split(/\s+/g)`. */
module Strings {

  datatype Option<+T> = None | Some(value: T) {
    function GetOr(default: T): T {
      match this
      case Some(v) => v
      case None => default
    }
  }

  datatype Result<+R, +E> = Success(value: R) | Failure(error: E)

  /** The characters JavaScript's `trim` and the regex class `\s` treat as white space
      (WhiteSpace and LineTerminator of ECMA-262): space, the range from tab to carriage return
      (tab, line feed, vertical tab, form feed, carriage return), and the wide ones below. */
  predicate IsWhitespace(c: char) {
    c == ' ' || ('\t' <= c <= '\r') || ('\U{A0}' <= c && IsWideWhitespace(c))
  }

  /** The white-space characters from U+00A0 up. */
  predicate IsWideWhitespace(c: char) {
    c == '\U{A0}' || c == '\U{1680}' || ('\U{2000}' <= c <= '\U{200A}')
    || c == '\U{2028}' || c == '\U{2029}' || c == '\U{202F}' || c == '\U{205F}'
    || c == '\U{3000}' || c == '\U{FEFF}'
  }

  predicate AllWhitespace(s: string) {
    forall i :: 0 <= i < |s| ==> IsWhitespace(s[i])
  }

  /** The number of white-space characters `s` starts with. */
  function LeadingWhitespace(s: string): (n: nat)
    ensures n <= |s| && AllWhitespace(s[..n])
    ensures n < |s| ==> !IsWhitespace(s[n])
  {
    if s != [] && IsWhitespace(s[0]) then
      var m := LeadingWhitespace(s[1..]);
      assert s[..m + 1] == [s[0]] + s[1..][..m];
      m + 1
    else 0
  }

  /** The number of white-space characters `s` ends with. */
  function TrailingWhitespace(s: string): (n: nat)
    ensures n <= |s| && AllWhitespace(s[|s| - n..])
    ensures n < |s| ==> !IsWhitespace(s[|s| - n - 1])
  {
    if s != [] && IsWhitespace(s[|s| - 1]) then
      var m := TrailingWhitespace(s[..|s| - 1]);
      TrailingStep(s, m);
      m + 1
    else 0
  }

  /** A white-space character after `m` trailing white-space characters makes `m + 1`. */
  lemma TrailingStep(s: string, m: nat)
    requires s != [] && IsWhitespace(s[|s| - 1])
    requires m <= |s| - 1 && AllWhitespace(s[..|s| - 1][|s| - 1 - m..])
    requires m < |s| - 1 ==> !IsWhitespace(s[..|s| - 1][|s| - 1 - m - 1])
    ensures AllWhitespace(s[|s| - (m + 1)..])
    ensures m + 1 < |s| ==> !IsWhitespace(s[|s| - (m + 1) - 1])
  {
    var init := s[..|s| - 1];
    assert s[|s| - (m + 1)..] == init[|init| - m..] + [s[|s| - 1]];
    AllWhitespaceAppend(init[|init| - m..], [s[|s| - 1]]);
    assert m + 1 < |s| ==> s[|s| - (m + 1) - 1] == init[|init| - m - 1];
  }

  /** `s.trim()`: `s` without its leading and trailing white space. */
  function Trim(s: string): (r: string)
    ensures var i := LeadingWhitespace(s);
      i + |r| <= |s| && r == s[i..i + |r|] && AllWhitespace(s[..i]) && AllWhitespace(s[i + |r|..])
    ensures r != [] ==> !IsWhitespace(r[0]) && !IsWhitespace(r[|r| - 1])
    ensures r == [] <==> AllWhitespace(s)
  {
    var i := LeadingWhitespace(s);
    var j := TrailingWhitespace(s[i..]);
    var r := s[i..|s| - j];
    TrimCuts(s, i, j, r);
    r
  }

  /** The two white-space counts `Trim` reads off leave the trimmed string between them. */
  lemma TrimCuts(s: string, i: nat, j: nat, r: string)
    requires i <= |s| && AllWhitespace(s[..i]) && (i < |s| ==> !IsWhitespace(s[i]))
    requires j <= |s[i..]| && AllWhitespace(s[i..][|s[i..]| - j..])
    requires j < |s[i..]| ==> !IsWhitespace(s[i..][|s[i..]| - j - 1])
    requires j <= |s| - i && r == s[i..|s| - j]
    ensures i + |r| <= |s| && r == s[i..i + |r|] && AllWhitespace(s[..i]) && AllWhitespace(s[i + |r|..])
    ensures r != [] ==> !IsWhitespace(r[0]) && !IsWhitespace(r[|r| - 1])
    ensures r == [] <==> AllWhitespace(s)
  {
    TrailingRunOfRest(s, i, j);
    TrimShape(s, i, |s| - j, r);
  }

  /** The trailing run of `s[i..]` is the trailing run of `s`. */
  lemma TrailingRunOfRest(s: string, i: nat, j: nat)
    requires i <= |s| && j <= |s[i..]| && AllWhitespace(s[i..][|s[i..]| - j..])
    requires j < |s[i..]| ==> !IsWhitespace(s[i..][|s[i..]| - j - 1])
    ensures i <= |s| - j && AllWhitespace(s[|s| - j..])
    ensures i < |s| - j ==> !IsWhitespace(s[|s| - j - 1])
  {
    assert s[i..][|s[i..]| - j..] == s[|s| - j..];
    if j < |s[i..]| {
      assert s[i..][|s[i..]| - j - 1] == s[|s| - j - 1];
    }
  }

  /** Cutting the white space before `i` and from `e` on, where the characters just inside the
      cuts are not white space, leaves the trimmed string. */
  lemma TrimShape(s: string, i: nat, e: nat, r: string)
    requires i <= e <= |s| && AllWhitespace(s[..i]) && AllWhitespace(s[e..])
    requires i < |s| ==> !IsWhitespace(s[i])
    requires i < e ==> !IsWhitespace(s[e - 1])
    requires r == s[i..e]
    ensures i + |r| <= |s| && r == s[i..i + |r|] && AllWhitespace(s[..i]) && AllWhitespace(s[i + |r|..])
    ensures r != [] ==> !IsWhitespace(r[0]) && !IsWhitespace(r[|r| - 1])
    ensures r == [] <==> AllWhitespace(s)
  {
    if i < e {
      assert r[0] == s[i];
      assert r[e - i - 1] == s[e - 1];
      assert !AllWhitespace(s) by { assert !IsWhitespace(s[i]); }
    } else {
      CutsMeet(s, i, e);
    }
  }

  /** When the two white-space runs meet, the whole string is white space. */
  lemma CutsMeet(s: string, i: nat, e: nat)
    requires e == i <= |s| && AllWhitespace(s[..i]) && AllWhitespace(s[e..])
    ensures AllWhitespace(s)
  {
    forall k | 0 <= k < |s| ensures IsWhitespace(s[k]) {
      if k < i {
        assert s[..i][k] == s[k];
      } else {
        assert s[e..][k - e] == s[k];
      }
    }
  }

  lemma AllWhitespaceAppend(a: string, b: string)
    requires AllWhitespace(a) && AllWhitespace(b)
    ensures AllWhitespace(a + b)
  {
    forall k | 0 <= k < |a + b| ensures IsWhitespace((a + b)[k]) {
      if k < |a| { assert (a + b)[k] == a[k]; } else { assert (a + b)[k] == b[k - |a|]; }
    }
  }

  /** Trimming twice changes nothing more. */
  lemma TrimIdempotent(s: string)
    ensures Trim(Trim(s)) == Trim(s)
  {
    var t := Trim(s);
    if t != [] {
      assert LeadingWhitespace(t) == 0;
      var u := Trim(t);
      assert u == t[..|u|];
    }
  }

  /** A string with no white space at either end is its own trim. */
  lemma TrimUnpadded(s: string)
    requires s != [] && !IsWhitespace(s[0]) && !IsWhitespace(s[|s| - 1])
    ensures Trim(s) == s
  {
    assert LeadingWhitespace(s) == 0;
    var t := Trim(s);
    assert t == s[..|t|];
  }

  /** A string is blank when `!s.trim()` holds in JavaScript. */
  predicate IsBlank(s: string) {
    Trim(s) == []
  }

  predicate IsAsciiLetter(c: char) {
    ('a' <= c <= 'z') || ('A' <= c <= 'Z')
  }

  /** The regex test `/[a-zA-Z]/.test(s)`. */
  predicate HasAsciiLetter(s: string) {
    exists i :: 0 <= i < |s| && IsAsciiLetter(s[i])
  }

  function LowerChar(c: char): char {
    if 'A' <= c <= 'Z' then (c as int + 32) as char else c
  }

  /** `toLowerCase`, restricted to the ASCII letters (every other character is kept). */
  function ToLower(s: string): (r: string)
    ensures |r| == |s|
    ensures forall i :: 0 <= i < |s| ==> r[i] == LowerChar(s[i])
  {
    if s == [] then [] else [LowerChar(s[0])] + ToLower(s[1..])
  }

  /** `s.startsWith(k, i)`. */
  predicate StartsWithAt(s: string, k: string, i: int) {
    0 <= i && i + |k| <= |s| && s[i..i + |k|] == k
  }

  predicate EndsWith(s: string, k: string) {
    |k| <= |s| && s[|s| - |k|..] == k
  }

  /** A string that ends in `k` ends in `k`'s last character. */
  lemma EndsWithLast(s: string, k: string)
    requires k != []
    ensures EndsWith(s, k) ==> s[|s| - 1] == k[|k| - 1]
  {
    if EndsWith(s, k) {
      assert s[|s| - |k|..][|k| - 1] == s[|s| - 1];
    }
  }

  /** A string without upper-case ASCII letters is its own lower case. */
  lemma ToLowerUnchanged(s: string)
    requires forall i :: 0 <= i < |s| ==> !('A' <= s[i] <= 'Z')
    ensures ToLower(s) == s
  {
  }

  /** Lower-casing twice is lower-casing once. */
  lemma ToLowerIdempotent(s: string)
    ensures ToLower(ToLower(s)) == ToLower(s)
  {
    var t := ToLower(s);
    assert forall i :: 0 <= i < |t| ==> !('A' <= t[i] <= 'Z');
    ToLowerUnchanged(t);
  }

  /** Lower-casing keeps every white-space character and makes none, so it keeps blankness. */
  lemma ToLowerBlank(s: string)
    ensures IsBlank(ToLower(s)) <==> IsBlank(s)
  {
    var t := ToLower(s);
    assert forall i :: 0 <= i < |s| ==> (IsWhitespace(t[i]) <==> IsWhitespace(s[i]));
    assert AllWhitespace(t) <==> AllWhitespace(s);
  }

  /** `hay.includes(needle)`. */
  predicate Contains(hay: string, needle: string) {
    exists i :: 0 <= i <= |hay| - |needle| && StartsWithAt(hay, needle, i)
  }

  function IndexOfFrom(hay: string, needle: string, i: nat): (r: int)
    requires i <= |hay|
    decreases |hay| - i
    ensures r == -1 || i <= r <= |hay| - |needle|
  {
    if StartsWithAt(hay, needle, i) then i
    else if i + |needle| >= |hay| then -1
    else IndexOfFrom(hay, needle, i + 1)
  }

  /** `hay.indexOf(needle)`: the first position where `needle` occurs, or -1. */
  function IndexOf(hay: string, needle: string): (r: int)
    ensures r == -1 || 0 <= r <= |hay| - |needle|
  {
    IndexOfFrom(hay, needle, 0)
  }

  lemma {:induction false} IndexOfFromFacts(hay: string, needle: string, i: nat)
    requires i <= |hay|
    decreases |hay| - i
    ensures var r := IndexOfFrom(hay, needle, i);
      && (r != -1 ==> StartsWithAt(hay, needle, r))
      && (r == -1 ==> forall j :: i <= j <= |hay| - |needle| ==> !StartsWithAt(hay, needle, j))
      && (r != -1 ==> forall j :: i <= j < r ==> !StartsWithAt(hay, needle, j))
  {
    if !StartsWithAt(hay, needle, i) && i + |needle| < |hay| {
      IndexOfFromFacts(hay, needle, i + 1);
    }
  }

  /** `indexOf` finds the first occurrence, and -1 exactly when there is none. */
  lemma IndexOfFacts(hay: string, needle: string)
    ensures IndexOf(hay, needle) == -1 <==> !Contains(hay, needle)
    ensures IndexOf(hay, needle) != -1 ==> StartsWithAt(hay, needle, IndexOf(hay, needle))
    ensures forall j :: 0 <= j < IndexOf(hay, needle) ==> !StartsWithAt(hay, needle, j)
  {
    IndexOfFromFacts(hay, needle, 0);
  }

  function Repeat(c: char, n: nat): (r: string)
    ensures |r| == n && forall i :: 0 <= i < n ==> r[i] == c
  {
    if n == 0 then [] else [c] + Repeat(c, n - 1)
  }

  /** JavaScript's `%`: the remainder takes the sign of the dividend. */
  function JsRem(a: int, n: int): (r: int)
    requires n > 0
    ensures -n < r < n
    ensures a >= 0 ==> r == a % n
    ensures a < 0 ==> r == -((-a) % n)
  {
    if a >= 0 then a % n else -((-a) % n)
  }

  /** `s.padStart(n, c)` with a one-character pad. */
  function PadStart(s: string, n: nat, c: char): (r: string)
    ensures |r| == if |s| >= n then |s| else n
    ensures EndsWith(r, s)
    ensures forall i :: 0 <= i < |r| - |s| ==> r[i] == c
  {
    if |s| >= n then s else Repeat(c, n - |s|) + s
  }

  function DigitChar(d: nat): char
    requires d < 10
  {
    "0123456789"[d]
  }

  predicate IsDigit(c: char) {
    '0' <= c <= '9'
  }

  predicate AllDigits(s: string) {
    forall i :: 0 <= i < |s| ==> IsDigit(s[i])
  }

  /** `String(n)` for a non-negative integer: its decimal digits, no leading zeros. */
  function NatToString(n: nat): (r: string)
    ensures 1 <= |r| && AllDigits(r)
    ensures |r| > 1 ==> r[0] != '0'
    ensures n < 10 <==> |r| == 1
  {
    if n < 10 then [DigitChar(n)] else NatToString(n / 10) + [DigitChar(n % 10)]
  }

  /** `String(n)` for any integer. */
  function IntToString(n: int): (r: string)
    ensures r != []
    ensures n >= 0 ==> r == NatToString(n)
    ensures n < 0 ==> r == "-" + NatToString(-n)
  {
    if n >= 0 then NatToString(n) else "-" + NatToString(-n)
  }

  /** `String(n).padStart(2, "0")`: the two-digit form of hours, minutes, days and months. */
  function Pad2(n: nat): (r: string)
    ensures n < 100 ==> |r| == 2 && AllDigits(r)
  {
    PadStart(NatToString(n), 2, '0')
  }

  lemma NatToStringLength(n: nat)
    ensures n < 10 ==> |NatToString(n)| == 1
    ensures 10 <= n < 100 ==> |NatToString(n)| == 2
    ensures 100 <= n < 1000 ==> |NatToString(n)| == 3
    ensures 1000 <= n < 10000 ==> |NatToString(n)| == 4
  {
    if n >= 10 {
      NatToStringLength(n / 10);
    }
  }

  /** The reading of a digit string; the inverse of `NatToString`. */
  function ParseNat(s: string): nat
    requires AllDigits(s)
  {
    if s == [] then 0 else ParseNat(s[..|s| - 1]) * 10 + (s[|s| - 1] as int - '0' as int)
  }

  lemma {:induction false} ParseNatToString(n: nat)
    ensures ParseNat(NatToString(n)) == n
  {
    var r := NatToString(n);
    if n >= 10 {
      ParseNatToString(n / 10);
      assert r[..|r| - 1] == NatToString(n / 10);
    }
  }

  lemma {:induction false} ParseNatZeros(z: string)
    requires forall i :: 0 <= i < |z| ==> z[i] == '0'
    ensures AllDigits(z) && ParseNat(z) == 0
  {
    if z != [] {
      ParseNatZeros(z[..|z| - 1]);
    }
  }

  lemma {:induction false} ParseNatLeadingZeros(z: string, s: string)
    requires AllDigits(s) && forall i :: 0 <= i < |z| ==> z[i] == '0'
    ensures AllDigits(z + s) && ParseNat(z + s) == ParseNat(s)
  {
    ParseNatZeros(z);
    if s == [] {
      assert z + s == z;
    } else {
      ParseNatLeadingZeros(z, s[..|s| - 1]);
      assert (z + s)[..|z + s| - 1] == z + s[..|s| - 1];
    }
  }

  /** `parts.join(sep)`. */
  function Join(parts: seq<string>, sep: string): (r: string)
    ensures parts == [] ==> r == []
    ensures |parts| == 1 ==> r == parts[0]
  {
    if parts == [] then []
    else if |parts| == 1 then parts[0]
    else parts[0] + sep + Join(parts[1..], sep)
  }

  /** Joining puts the separator between the first part and the join of the rest. */
  lemma JoinCons(p: string, ps: seq<string>, sep: string)
    requires ps != []
    ensures Join([p] + ps, sep) == p + sep + Join(ps, sep)
  {
    assert ([p] + ps)[1..] == ps;
  }

  /** Joining puts the separator between the join of all parts but the last and the last. */
  lemma {:induction false} JoinSnoc(ps: seq<string>, p: string, sep: string)
    requires ps != []
    ensures Join(ps + [p], sep) == Join(ps, sep) + sep + p
  {
    if |ps| == 1 {
      JoinCons(ps[0], [p], sep);
      assert ps + [p] == [ps[0]] + [p];
    } else {
      JoinSnoc(ps[1..], p, sep);
      assert (ps + [p])[1..] == ps[1..] + [p];
      assert (ps + [p])[0] == ps[0];
    }
  }

  /** The joined text holds every part and one separator between each two. */
  lemma {:induction false} JoinLength(ps: seq<string>, sep: string)
    requires ps != []
    ensures |Join(ps, sep)| == |Concat(ps)| + (|ps| - 1) * |sep|
  {
    if |ps| > 1 {
      JoinLength(ps[1..], sep);
    }
  }

  /** The characters of `s` that are not white space, in order. */
  function NonWhitespace(s: string): string {
    if s == [] then []
    else (if IsWhitespace(s[0]) then [] else [s[0]]) + NonWhitespace(s[1..])
  }

  function Concat(parts: seq<string>): string {
    if parts == [] then [] else parts[0] + Concat(parts[1..])
  }

  predicate NoWhitespace(s: string) {
    forall i :: 0 <= i < |s| ==> !IsWhitespace(s[i])
  }

  /** A word stays free of white space when a non-white-space character joins it. */
  lemma NoWhitespaceSnoc(cur: string, c: char)
    requires NoWhitespace(cur) && !IsWhitespace(c)
    ensures NoWhitespace(cur + [c])
  {
    forall k | 0 <= k < |cur| + 1 ensures !IsWhitespace((cur + [c])[k]) {
      if k < |cur| { assert (cur + [c])[k] == cur[k]; }
    }
  }

  /** Split with a current word `cur` already read: `s.split(/\s+/g)` once `cur` is prefixed. */
  function SplitFrom(cur: string, s: string): (r: seq<string>)
    requires NoWhitespace(cur)
    ensures |r| >= 1
    decreases |s|
  {
    if s == [] then
      [cur]
    else if !IsWhitespace(s[0]) then
      NoWhitespaceSnoc(cur, s[0]);
      SplitFrom(cur + [s[0]], s[1..])
    else
      [cur] + SplitFrom([], s[WhitespaceRun(s)..])
  }

  /** The pieces have the split shape, and the first one starts with the current word. */
  lemma {:induction false} SplitFromShape(cur: string, s: string)
    requires NoWhitespace(cur)
    ensures IsSplitList(SplitFrom(cur, s)) && cur <= SplitFrom(cur, s)[0]
    decreases |s|
  {
    if s != [] {
      if !IsWhitespace(s[0]) {
        SplitFromShape(cur + [s[0]], s[1..]);
        assert cur <= cur + [s[0]];
      } else {
        var n := WhitespaceRun(s);
        var rest := SplitFrom([], s[n..]);
        SplitFromShape([], s[n..]);
        if s[n..] != [] {
          assert !IsWhitespace(s[n..][0]);
          SplitFromShape([s[n..][0]], s[n..][1..]);
          assert rest == SplitFrom([] + [s[n..][0]], s[n..][1..]);
          assert [] + [s[n..][0]] == [s[n..][0]];
        }
        var r := [cur] + rest;
        assert forall k :: 0 < k < |r| ==> r[k] == rest[k - 1];
      }
    }
  }

  /** The pieces hold the current word and then the non-white-space characters, in order. */
  lemma {:induction false} SplitFromConcat(cur: string, s: string)
    requires NoWhitespace(cur)
    ensures Concat(SplitFrom(cur, s)) == cur + NonWhitespace(s)
    decreases |s|
  {
    if s == [] {
      assert cur + [] == cur;
    } else if !IsWhitespace(s[0]) {
      NoWhitespaceSnoc(cur, s[0]);
      assert SplitFrom(cur, s) == SplitFrom(cur + [s[0]], s[1..]);
      assert NonWhitespace(s) == [s[0]] + NonWhitespace(s[1..]);
      SplitFromConcat(cur + [s[0]], s[1..]);
      assert cur + [s[0]] + NonWhitespace(s[1..]) == cur + NonWhitespace(s);
    } else {
      var n := WhitespaceRun(s);
      var rest := SplitFrom([], s[n..]);
      assert SplitFrom(cur, s) == [cur] + rest;
      SplitFromConcat([], s[n..]);
      NonWhitespaceRun(s, n);
      assert ([cur] + rest)[1..] == rest;
      assert Concat([cur] + rest) == cur + Concat(rest);
      assert [] + NonWhitespace(s[n..]) == NonWhitespace(s[n..]);
    }
  }

  /** Length of the white-space run that starts `s`. */
  function WhitespaceRun(s: string): (n: nat)
    ensures n <= |s| && AllWhitespace(s[..n])
    ensures n < |s| ==> !IsWhitespace(s[n])
  {
    if s != [] && IsWhitespace(s[0]) then
      var m := WhitespaceRun(s[1..]);
      assert s[..m + 1] == [s[0]] + s[1..][..m];
      m + 1
    else 0
  }

  lemma {:induction false} NonWhitespaceRun(s: string, n: nat)
    requires n <= |s| && AllWhitespace(s[..n])
    ensures NonWhitespace(s) == NonWhitespace(s[n..])
  {
    if n > 0 {
      assert IsWhitespace(s[..n][0]);
      NonWhitespaceRun(s[1..], n - 1);
      assert s[1..][n - 1..] == s[n..];
    }
  }

  /** The shape of what `split(/\s+/g)` returns: at least one piece, no piece holding white
      space, and only the first and the last piece possibly empty. */
  predicate IsSplitList(r: seq<string>) {
    && |r| >= 1
    && (forall k :: 0 <= k < |r| ==> NoWhitespace(r[k]))
    && (forall k :: 0 < k < |r| - 1 ==> r[k] != [])
  }

  /** `s` with each maximal run of white space replaced by one space. */
  function Collapse(s: string): (r: string)
    decreases |s|
  {
    if s == [] then []
    else if IsWhitespace(s[0]) then " " + Collapse(s[WhitespaceRun(s)..])
    else [s[0]] + Collapse(s[1..])
  }

  /** `s.split(/\s+/g)`: the maximal runs of non-white-space characters, with an empty first
      (last) piece when `s` starts (ends) with white space. Joined with single spaces, the
      pieces give `s` with each white-space run collapsed to one space; `SplitUnique` shows
      that no other list of that shape does. */
  function SplitWhitespace(s: string): (r: seq<string>)
    ensures IsSplitList(r)
    ensures Join(r, " ") == Collapse(s)
    ensures Concat(r) == NonWhitespace(s)
  {
    SplitFromShape([], s);
    SplitFromConcat([], s);
    JoinSplitFrom([], s);
    SplitFrom([], s)
  }

  lemma {:induction false} JoinSplitFrom(cur: string, s: string)
    requires NoWhitespace(cur)
    ensures Join(SplitFrom(cur, s), " ") == cur + Collapse(s)
    decreases |s|
  {
    if s == [] {
      assert cur + [] == cur;
    } else if !IsWhitespace(s[0]) {
      JoinSplitFrom(cur + [s[0]], s[1..]);
      JoinSplitFromWord(cur, s);
    } else {
      var n := WhitespaceRun(s);
      JoinSplitFrom([], s[n..]);
      JoinSplitFromRun(cur, s);
    }
  }

  /** A first character that is not white space is read into the current word. */
  lemma {:induction false} JoinSplitFromWord(cur: string, s: string)
    requires NoWhitespace(cur) && s != [] && !IsWhitespace(s[0])
    requires Join(SplitFrom(cur + [s[0]], s[1..]), " ") == cur + [s[0]] + Collapse(s[1..])
    ensures Join(SplitFrom(cur, s), " ") == cur + Collapse(s)
  {
    assert cur + [s[0]] + Collapse(s[1..]) == cur + ([s[0]] + Collapse(s[1..]));
  }

  /** A white-space run ends the current word and is joined back as one space. */
  lemma {:induction false} JoinSplitFromRun(cur: string, s: string)
    requires NoWhitespace(cur) && s != [] && IsWhitespace(s[0])
    requires Join(SplitFrom([], s[WhitespaceRun(s)..]), " ") == [] + Collapse(s[WhitespaceRun(s)..])
    ensures Join(SplitFrom(cur, s), " ") == cur + Collapse(s)
  {
    var n := WhitespaceRun(s);
    SplitFromRun(cur, s);
    CollapseRun(s);
    JoinAfterRun(cur, SplitFrom([], s[n..]), Collapse(s[n..]));
  }

  lemma SplitFromRun(cur: string, s: string)
    requires NoWhitespace(cur) && s != [] && IsWhitespace(s[0])
    ensures SplitFrom(cur, s) == [cur] + SplitFrom([], s[WhitespaceRun(s)..])
  {
  }

  lemma CollapseRun(s: string)
    requires s != [] && IsWhitespace(s[0])
    ensures Collapse(s) == " " + Collapse(s[WhitespaceRun(s)..])
  {
  }

  lemma JoinAfterRun(cur: string, rest: seq<string>, c: string)
    requires rest != [] && Join(rest, " ") == [] + c
    ensures Join([cur] + rest, " ") == cur + (" " + c)
  {
    JoinCons(cur, rest, " ");
    assert [] + c == c;
  }

  /** Reading a word without white space extends the current word. */
  lemma {:induction false} SplitFromWord(cur: string, w: string, rest: string)
    requires NoWhitespace(cur) && NoWhitespace(w)
    ensures SplitFrom(cur, w + rest) == SplitFrom(cur + w, rest)
    decreases |w|
  {
    if w == [] {
      assert w + rest == rest && cur + w == cur;
    } else {
      assert (w + rest)[0] == w[0];
      assert (w + rest)[1..] == w[1..] + rest;
      SplitFromWord(cur + [w[0]], w[1..], rest);
      assert cur + [w[0]] + w[1..] == cur + w;
    }
  }

  /** A white-space run ends where a word (or the text) begins. */
  lemma {:induction false} WhitespaceRunOf(sep: string, rest: string)
    requires AllWhitespace(sep) && (rest == [] || !IsWhitespace(rest[0]))
    ensures WhitespaceRun(sep + rest) == |sep|
    decreases |sep|
  {
    if sep == [] {
      assert sep + rest == rest;
    } else {
      assert (sep + rest)[0] == sep[0];
      assert (sep + rest)[1..] == sep[1..] + rest;
      WhitespaceRunOf(sep[1..], rest);
    }
  }

  /** The join of a split-shaped list is empty or starts with a non-white-space character. */
  lemma JoinHead(ps: seq<string>, sep: string)
    requires |ps| >= 1 && NoWhitespace(ps[0]) && (|ps| == 1 || ps[0] != [])
    ensures Join(ps, sep) == [] || !IsWhitespace(Join(ps, sep)[0])
  {
    if |ps| > 1 {
      assert Join(ps, sep)[0] == ps[0][0];
    }
  }

  lemma {:induction false} SplitFromJoin(cur: string, ws: seq<string>, sep: string)
    requires NoWhitespace(cur) && IsSplitList(ws) && sep != [] && AllWhitespace(sep)
    ensures SplitFrom(cur, Join(ws, sep)) == [cur + ws[0]] + ws[1..]
    decreases |ws|
  {
    if |ws| == 1 {
      SplitFromWord(cur, ws[0], []);
      assert ws[0] + [] == ws[0];
    } else {
      var tail := ws[1..];
      var j := Join(tail, sep);
      assert IsSplitList(tail) by {
        forall k | 0 < k < |tail| - 1 ensures tail[k] != [] { assert tail[k] == ws[k + 1]; }
      }
      assert Join(ws, sep) == ws[0] + (sep + j);
      SplitFromWord(cur, ws[0], sep + j);
      JoinHead(tail, sep);
      WhitespaceRunOf(sep, j);
      assert (sep + j)[0] == sep[0];
      assert (sep + j)[|sep|..] == j;
      SplitFromJoin([], tail, sep);
      assert [] + tail[0] == tail[0];
      assert [tail[0]] + tail[1..] == tail;
    }
  }

  /** Splitting undoes joining: pieces of the split shape, joined with any white space,
      split back into themselves. */
  lemma SplitJoin(ws: seq<string>, sep: string)
    requires IsSplitList(ws) && sep != [] && AllWhitespace(sep)
    ensures SplitWhitespace(Join(ws, sep)) == ws
  {
    SplitFromJoin([], ws, sep);
    assert [] + ws[0] == ws[0];
  }

  /** The split of `s` is the only list of the split shape whose pieces, joined with single
      spaces, give `Collapse(s)`. */
  lemma SplitUnique(ws: seq<string>, s: string)
    requires IsSplitList(ws) && Join(ws, " ") == Collapse(s)
    ensures ws == SplitWhitespace(s)
  {
    SplitJoin(ws, " ");
    SplitJoin(SplitWhitespace(s), " ");
  }

  /** Reading the two digits back gives the number. */
  lemma {:induction false} ParsePad2(n: nat)
    requires n < 100
    ensures AllDigits(Pad2(n)) && ParseNat(Pad2(n)) == n
  {
    NatToStringLength(n);
    ParseNatToString(n);
    var z := Repeat('0', 2 - |NatToString(n)|);
    ParseNatLeadingZeros(z, NatToString(n));
  }

  /** The non-empty strings among `ss`, in order (`.filter(Boolean)`). */
  function NonEmpty(ss: seq<string>): (r: seq<string>)
    ensures |r| <= |ss|
    ensures forall x :: x in r <==> x in ss && x != ""
  {
    if ss == [] then []
    else NonEmpty(ss[..|ss| - 1]) + (if ss[|ss| - 1] != "" then [ss[|ss| - 1]] else [])
  }

  /** A single string survives the filter exactly when it is not empty. */
  lemma NonEmptyOne(x: string)
    ensures NonEmpty([x]) == if x != "" then [x] else []
  {
    assert [x][..0] == [];
  }

  /** Filtering distributes over concatenation, so the survivors keep their order. */
  lemma {:induction false} NonEmptyAppend(xs: seq<string>, ys: seq<string>)
    ensures NonEmpty(xs + ys) == NonEmpty(xs) + NonEmpty(ys)
    decreases |ys|
  {
    if ys == [] {
      assert xs + ys == xs;
    } else {
      assert (xs + ys)[..|xs + ys| - 1] == xs + ys[..|ys| - 1];
      NonEmptyAppend(xs, ys[..|ys| - 1]);
    }
  }
}
