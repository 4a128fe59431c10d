/** The pure helpers of the Zi Wei Dou Shu page (apps/web/src/pages/ZiweiStep2.tsx): turning the
    pinyin names the astrolabe library prints for stems and branches into Chinese characters,
    the 4 x 4 grid that lays the twelve palaces out as a ring, and the horoscope hour picker. */
module Ziwei {
  import opened Strings
  import opened GanZhi

  // ---------------------------------------------------------------- pinyin tables

  /** `cnHeavenlyStemByPinyin`, in its insertion order. */
  function StemPinyin(): seq<(string, string)> {
    [("jia", "甲"), ("yi", "乙"), ("bing", "丙"), ("ding", "丁"), ("wu", "戊"),
     ("ji", "己"), ("geng", "庚"), ("xin", "辛"), ("ren", "壬"), ("gui", "癸")]
  }

  /** `cnEarthlyBranchByPinyin`, in its insertion order. */
  function BranchPinyin(): seq<(string, string)> {
    [("zi", "子"), ("chou", "丑"), ("yin", "寅"), ("mao", "卯"), ("chen", "辰"), ("si", "巳"),
     ("wu", "午"), ("wei", "未"), ("shen", "申"), ("you", "酉"), ("xu", "戌"), ("hai", "亥")]
  }

  /** `heavenlyStemPinyins`: the stem keys, sorted (stably) longest first. */
  function StemKeys(): seq<string> {
    ["bing", "ding", "geng", "jia", "xin", "ren", "gui", "yi", "wu", "ji"]
  }

  /** `earthlyBranchPinyins`: the branch keys, sorted (stably) longest first. */
  function BranchKeys(): seq<string> {
    ["chou", "chen", "shen", "yin", "mao", "wei", "you", "hai", "zi", "si", "wu", "xu"]
  }

  /** The value `table[key]`, or `None` where the record has no such key. */
  function Lookup(table: seq<(string, string)>, key: string): (r: Option<string>)
    ensures r.Some? ==> exists i :: 0 <= i < |table| && table[i] == (key, r.value)
    ensures r.None? ==> forall i :: 0 <= i < |table| ==> table[i].0 != key
  {
    if table == [] then None
    else if table[0].0 == key then Some(table[0].1)
    else
      var r := Lookup(table[1..], key);
      assert r.Some? ==> exists i :: 0 <= i < |table| - 1 && table[1..][i] == (key, r.value);
      r
  }

  predicate DistinctKeys(table: seq<(string, string)>) {
    forall a, b :: 0 <= a < b < |table| ==> table[a].0 != table[b].0
  }

  /** With distinct keys, every entry of the table is what its key looks up. */
  lemma {:induction false} LookupEntry(table: seq<(string, string)>, i: nat)
    requires DistinctKeys(table) && i < |table|
    ensures Lookup(table, table[i].0) == Some(table[i].1)
  {
    if i > 0 {
      assert table[0].0 != table[i].0;
      assert DistinctKeys(table[1..]) by {
        forall a, b | 0 <= a < b < |table| - 1 ensures table[1..][a].0 != table[1..][b].0 {
          assert table[1..][a] == table[a + 1] && table[1..][b] == table[b + 1];
        }
      }
      LookupEntry(table[1..], i - 1);
      assert table[1..][i - 1] == table[i];
    }
  }

  predicate ByLengthDescending(keys: seq<string>) {
    forall a, b :: 0 <= a < b < |keys| ==> |keys[a]| >= |keys[b]|
  }

  /** `keys` lists the keys of `table` longest first, key `j` being that of entry `from[j]`,
      and keys of equal length keep the table's order: what the stable sort produces. */
  predicate StablySortedKeys(keys: seq<string>, table: seq<(string, string)>, from: seq<nat>) {
    && |keys| == |table| == |from|
    && (forall j :: 0 <= j < |from| ==> from[j] < |table| && keys[j] == table[from[j]].0)
    && (forall a, b :: 0 <= a < b < |from| ==> from[a] != from[b])
    && ByLengthDescending(keys)
    && (forall a, b :: 0 <= a < b < |keys| && |keys[a]| == |keys[b]| ==> from[a] < from[b])
  }

  predicate AsciiLower(s: string) {
    forall i :: 0 <= i < |s| ==> 'a' <= s[i] <= 'z'
  }

  /** For each sorted stem key, the position of its entry in the table. */
  function StemKeyOrigins(): seq<nat> { [2, 3, 6, 0, 7, 8, 9, 1, 4, 5] }

  /** For each sorted branch key, the position of its entry in the table. */
  function BranchKeyOrigins(): seq<nat> { [1, 4, 8, 2, 3, 7, 9, 11, 0, 5, 6, 10] }

  /** Sorting the stem table's keys by `b.length - a.length` gives `StemKeys()`. */
  lemma StemKeysSorted()
    ensures StablySortedKeys(StemKeys(), StemPinyin(), StemKeyOrigins())
  {
    StemKeysFromTable();
    StemKeysStable();
  }

  lemma StemKeysFromTable()
    ensures |StemKeys()| == |StemPinyin()| == |StemKeyOrigins()| == 10
    ensures forall j :: 0 <= j < 10 ==> StemKeyOrigins()[j] < 10 && StemKeys()[j] == StemPinyin()[StemKeyOrigins()[j]].0
    ensures forall a, b :: 0 <= a < b < 10 ==> StemKeyOrigins()[a] != StemKeyOrigins()[b]
  {
  }

  lemma StemKeysStable()
    ensures ByLengthDescending(StemKeys())
    ensures forall a, b :: 0 <= a < b < |StemKeys()| && |StemKeys()[a]| == |StemKeys()[b]| ==>
      StemKeyOrigins()[a] < StemKeyOrigins()[b]
  {
  }

  /** Sorting the branch table's keys by `b.length - a.length` gives `BranchKeys()`. */
  lemma BranchKeysSorted()
    ensures StablySortedKeys(BranchKeys(), BranchPinyin(), BranchKeyOrigins())
  {
    BranchKeysFromTable();
    BranchKeysStable();
  }

  lemma BranchKeysFromTable()
    ensures |BranchKeys()| == |BranchPinyin()| == |BranchKeyOrigins()| == 12
    ensures forall j :: 0 <= j < 12 ==> BranchKeyOrigins()[j] < 12 && BranchKeys()[j] == BranchPinyin()[BranchKeyOrigins()[j]].0
    ensures forall a, b :: 0 <= a < b < 12 ==> BranchKeyOrigins()[a] != BranchKeyOrigins()[b]
  {
  }

  lemma BranchKeysStable()
    ensures ByLengthDescending(BranchKeys())
    ensures forall a, b :: 0 <= a < b < |BranchKeys()| && |BranchKeys()[a]| == |BranchKeys()[b]| ==>
      BranchKeyOrigins()[a] < BranchKeyOrigins()[b]
  {
  }

  /** Every sorted key is at least two letters long. */
  lemma KeyLengths()
    ensures forall j :: 0 <= j < |StemKeys()| ==> |StemKeys()[j]| >= 2
    ensures forall j :: 0 <= j < |BranchKeys()| ==> |BranchKeys()[j]| >= 2
  {
  }

  /** Every value of the two tables is a single character. */
  lemma ValueLengths()
    ensures forall i :: 0 <= i < |StemPinyin()| ==> |StemPinyin()[i].1| == 1
    ensures forall i :: 0 <= i < |BranchPinyin()| ==> |BranchPinyin()[i].1| == 1
  {
  }

  /** The tables map the pinyin of the ten stems and the twelve branches, in cycle order, to
      their characters. */
  lemma ValuesInCycleOrder()
    ensures |StemPinyin()| == 10 && forall i :: 0 <= i < 10 ==> StemPinyin()[i].1 == [Stems()[i]]
    ensures |BranchPinyin()| == 12 && forall i :: 0 <= i < 12 ==> BranchPinyin()[i].1 == [Branches()[i]]
  {
  }

  /** The stem table's keys are distinct lower-case words. */
  lemma StemKeysDistinct()
    ensures DistinctKeys(StemPinyin())
    ensures forall i :: 0 <= i < |StemPinyin()| ==> StemPinyin()[i].0 != [] && AsciiLower(StemPinyin()[i].0)
  {
  }

  /** The branch table's keys are distinct lower-case words. */
  lemma BranchKeysDistinct()
    ensures DistinctKeys(BranchPinyin())
    ensures forall i :: 0 <= i < |BranchPinyin()| ==> BranchPinyin()[i].0 != [] && AsciiLower(BranchPinyin()[i].0)
  {
  }

  // ---------------------------------------------------------------- single names

  /** The lookup key of a lower-cased name: the name with the suffix removed when it ends
      with it. */
  function PinyinKey(lower: string, suffix: string): string {
    if EndsWith(lower, suffix) then lower[..|lower| - |suffix|] else lower
  }

  /** `toCnHeavenlyStem` and `toCnEarthlyBranch`, which differ only in the suffix they strip
      and the table they read. */
  function ToCnByPinyin(raw: string, suffix: string, table: seq<(string, string)>): (r: string)
    ensures IsBlank(raw) ==> r == []
    ensures !HasAsciiLetter(Trim(raw)) ==> r == Trim(raw)
    ensures r == Trim(raw) || exists i :: 0 <= i < |table| && r == table[i].1
    ensures HasAsciiLetter(Trim(raw)) && Lookup(table, PinyinKey(ToLower(Trim(raw)), suffix)).None? ==>
      r == Trim(raw)
    ensures HasAsciiLetter(Trim(raw)) && Lookup(table, PinyinKey(ToLower(Trim(raw)), suffix)).Some? ==>
      r == Lookup(table, PinyinKey(ToLower(Trim(raw)), suffix)).value
  {
    var s := Trim(raw);
    if s == [] then ""
    else if !HasAsciiLetter(s) then s
    else
      match Lookup(table, PinyinKey(ToLower(s), suffix))
      case Some(c) => c
      case None => s
  }

  function ToCnHeavenlyStem(raw: string): string {
    ToCnByPinyin(raw, "heavenly", StemPinyin())
  }

  function ToCnEarthlyBranch(raw: string): string {
    ToCnByPinyin(raw, "earthly", BranchPinyin())
  }

  /** A lower-case ASCII word is its own trim and its own lower case. */
  lemma AsciiLowerWord(w: string)
    requires w != [] && AsciiLower(w)
    ensures Trim(w) == w && HasAsciiLetter(w) && ToLower(w) == w
  {
    assert IsAsciiLetter(w[0]);
    TrimUnpadded(w);
    ToLowerUnchanged(w);
  }

  /** A lower-case word whose key, once the suffix is stripped, is in the table reads back as
      that key's entry. */
  lemma {:induction false} LowerWordLookup(w: string, suffix: string, table: seq<(string, string)>, key: string)
    requires w != [] && AsciiLower(w)
    requires key == (if EndsWith(w, suffix) then w[..|w| - |suffix|] else w)
    requires Lookup(table, key).Some?
    ensures ToCnByPinyin(w, suffix, table) == Lookup(table, key).value
  {
    AsciiLowerWord(w);
    var lower := ToLower(Trim(w));
    assert lower == w;
    assert PinyinKey(lower, suffix) == key;
  }

  /** A text that trims and lower-cases to a key of the table, bare or followed by the
      suffix (`jia`, ` Jia `, `jiaHeavenly`), reads back as that key's entry. */
  lemma {:induction false} KeyReadsBack(raw: string, table: seq<(string, string)>, i: nat, suffix: string, withSuffix: bool)
    requires DistinctKeys(table) && i < |table|
    requires AsciiLower(table[i].0) && table[i].0 != [] && |table[i].0| < |suffix|
    requires ToLower(Trim(raw)) == table[i].0 + (if withSuffix then suffix else "")
    ensures ToCnByPinyin(raw, suffix, table) == table[i].1
  {
    var k := table[i].0;
    var s := Trim(raw);
    var lower := ToLower(s);
    LookupEntry(table, i);
    assert lower[0] == k[0] && 'a' <= lower[0] <= 'z';
    assert lower[0] == LowerChar(s[0]);
    assert IsAsciiLetter(s[0]);
    if withSuffix {
      assert lower[|lower| - |suffix|..] == suffix;
      assert lower[..|lower| - |suffix|] == k;
    } else {
      assert lower == k;
      assert !EndsWith(lower, suffix);
    }
    assert PinyinKey(lower, suffix) == k;
  }

  /** A stem's pinyin in any case and padding, bare or with the `Heavenly` suffix the library
      prints (`jia`, ` Jia `, `jiaHeavenly`), becomes that stem; likewise each branch with
      `Earthly`. */
  lemma {:induction false} PinyinReadsBack(raw: string, i: nat, withSuffix: bool)
    ensures i < 10 && ToLower(Trim(raw)) == StemPinyin()[i].0 + (if withSuffix then "heavenly" else "") ==>
      ToCnHeavenlyStem(raw) == [Stems()[i]]
    ensures i < 12 && ToLower(Trim(raw)) == BranchPinyin()[i].0 + (if withSuffix then "earthly" else "") ==>
      ToCnEarthlyBranch(raw) == [Branches()[i]]
  {
    ValuesInCycleOrder();
    if i < 10 && ToLower(Trim(raw)) == StemPinyin()[i].0 + (if withSuffix then "heavenly" else "") {
      StemKeysDistinct();
      assert |StemPinyin()[i].0| <= 4;
      KeyReadsBack(raw, StemPinyin(), i, "heavenly", withSuffix);
    }
    if i < 12 && ToLower(Trim(raw)) == BranchPinyin()[i].0 + (if withSuffix then "earthly" else "") {
      BranchKeysDistinct();
      assert |BranchPinyin()[i].0| <= 4;
      KeyReadsBack(raw, BranchPinyin(), i, "earthly", withSuffix);
    }
  }

  // ---------------------------------------------------------------- gan-zhi text

  /** `keys.find((k) => s.startsWith(k, i))`. */
  function FindKey(keys: seq<string>, s: string, i: int): (r: Option<string>)
    ensures r.Some? ==> (exists j :: 0 <= j < |keys| && keys[j] == r.value) && StartsWithAt(s, r.value, i)
    ensures r.None? ==> forall j :: 0 <= j < |keys| ==> !StartsWithAt(s, keys[j], i)
  {
    if keys == [] then None
    else if StartsWithAt(s, keys[0], i) then Some(keys[0])
    else FindKey(keys[1..], s, i)
  }

  /** On a list sorted longest first, `find` returns the longest key that matches. */
  lemma {:induction false} FindKeyLongest(keys: seq<string>, s: string, i: int)
    requires ByLengthDescending(keys)
    ensures FindKey(keys, s, i).Some? ==>
      forall j :: 0 <= j < |keys| && StartsWithAt(s, keys[j], i) ==> |keys[j]| <= |FindKey(keys, s, i).value|
  {
    if keys != [] && !StartsWithAt(s, keys[0], i) {
      assert ByLengthDescending(keys[1..]) by {
        forall a, b | 0 <= a < b < |keys| - 1 ensures |keys[1..][a]| >= |keys[1..][b]| {
          assert keys[1..][a] == keys[a + 1] && keys[1..][b] == keys[b + 1];
        }
      }
      FindKeyLongest(keys[1..], s, i);
    }
  }

  /** The two pinyin records and the two key lists sorted from them. */
  datatype PinyinTables = PinyinTables(
    stemTable: seq<(string, string)>, branchTable: seq<(string, string)>,
    stemKeys: seq<string>, branchKeys: seq<string>)

  function Tables(): PinyinTables {
    PinyinTables(StemPinyin(), BranchPinyin(), StemKeys(), BranchKeys())
  }

  /** What the loop relies on: keys of at least two letters, one-character values. */
  predicate Usable(t: PinyinTables) {
    && (forall j :: 0 <= j < |t.stemKeys| ==> |t.stemKeys[j]| >= 2)
    && (forall j :: 0 <= j < |t.branchKeys| ==> |t.branchKeys[j]| >= 2)
    && (forall j :: 0 <= j < |t.stemTable| ==> |t.stemTable[j].1| == 1)
    && (forall j :: 0 <= j < |t.branchTable| ==> |t.branchTable[j].1| == 1)
  }

  lemma TablesUsable()
    ensures Usable(Tables())
  {
    KeyLengths();
    ValueLengths();
  }

  /** One stem key at `i` followed at once by one branch key, as the loop body looks for it. */
  function PairAt(t: PinyinTables, lower: string, i: int): (r: Option<(string, string)>)
    ensures r.Some? ==> exists j :: 0 <= j < |t.stemKeys| && t.stemKeys[j] == r.value.0
    ensures r.Some? ==> exists j :: 0 <= j < |t.branchKeys| && t.branchKeys[j] == r.value.1
    ensures r.Some? ==> StartsWithAt(lower, r.value.0, i) && StartsWithAt(lower, r.value.1, i + |r.value.0|)
  {
    match FindKey(t.stemKeys, lower, i)
    case None => None
    case Some(stem) =>
      match FindKey(t.branchKeys, lower, i + |stem|)
      case None => None
      case Some(branch) => Some((stem, branch))
  }

  /** `table[key] ?? ""`. */
  function ValueOr(table: seq<(string, string)>, key: string): string {
    match Lookup(table, key)
    case Some(c) => c
    case None => ""
  }

  lemma ValueOrShort(table: seq<(string, string)>, key: string)
    requires forall i :: 0 <= i < |table| ==> |table[i].1| == 1
    ensures |ValueOr(table, key)| <= 1
  {
  }

  /** The sizes that make the loop advance and keep the text short: both keys of a pair are
      at least two letters long, and each writes at most one character. */
  lemma PairSizes(t: PinyinTables, lower: string, i: int)
    requires Usable(t) && PairAt(t, lower, i).Some?
    ensures var p := PairAt(t, lower, i).value;
      && |p.0| >= 2 && |p.1| >= 2 && 0 <= i && i + |p.0| + |p.1| <= |lower|
      && |ValueOr(t.stemTable, p.0)| <= 1 && |ValueOr(t.branchTable, p.1)| <= 1
  {
    var p := PairAt(t, lower, i).value;
    ValueOrShort(t.stemTable, p.0);
    ValueOrShort(t.branchTable, p.1);
  }

  /** `s[i] ?? ""`. */
  function CharAt(s: string, i: int): (r: string)
    ensures |r| <= 1
  {
    if 0 <= i < |s| then [s[i]] else []
  }

  /** One turn of the loop at position `i`: the text it appends and where it goes on. */
  function Step(t: PinyinTables, s: string, lower: string, i: nat): (r: (string, nat))
    requires Usable(t) && i < |lower|
    ensures i < r.1 <= |lower| && |r.0| <= r.1 - i
  {
    var p := PairAt(t, lower, i);
    if p.Some? then
      PairSizes(t, lower, i);
      (ValueOr(t.stemTable, p.value.0) + ValueOr(t.branchTable, p.value.1), i + |p.value.0| + |p.value.1|)
    else (CharAt(s, i), i + 1)
  }

  /** What the loop of `toCnGanzhiText` appends from position `i` of `lower` on. */
  function Transduce(t: PinyinTables, s: string, lower: string, i: nat): string
    requires Usable(t)
    decreases |lower| - i
  {
    if i >= |lower| then []
    else
      var r := Step(t, s, lower, i);
      r.0 + Transduce(t, s, lower, r.1)
  }

  /** `toCnGanzhiText` as a value. */
  function GanzhiText(raw: string): (r: string)
    ensures IsBlank(raw) ==> r == []
    ensures !HasAsciiLetter(Trim(raw)) ==> r == Trim(raw)
  {
    var s := Trim(raw);
    if s == [] then ""
    else if !HasAsciiLetter(s) then s
    else
      TablesUsable();
      Transduce(Tables(), s, ToLower(s), 0)
  }

  /** `toCnGanzhiText`: walks the lower-cased text, replacing each stem pinyin that is directly
      followed by a branch pinyin with the two characters and copying every other character. */
  method ToCnGanzhiText(raw: string) returns (out: string)
    ensures out == GanzhiText(raw)
  {
    var s := Trim(raw);
    if s == [] {
      return "";
    }
    if !HasAsciiLetter(s) {
      return s;
    }
    TablesUsable();
    out := TransduceLoop(Tables(), s, ToLower(s));
  }

  /** The `while` loop of `toCnGanzhiText` over the lower-cased text `lower` of `s`. */
  method TransduceLoop(t: PinyinTables, s: string, lower: string) returns (out: string)
    requires Usable(t)
    ensures out == Transduce(t, s, lower, 0)
  {
    out := "";
    var i := 0;
    while i < |lower|
      invariant 0 <= i
      invariant out + Transduce(t, s, lower, i) == Transduce(t, s, lower, 0)
      decreases |lower| - i
    {
      var text, next := LoopTurn(t, s, lower, i);
      TransduceStep(t, s, lower, i);
      out := out + text;
      i := next;
    }
  }

  /** The body of the loop at position `i`: look for a stem key, then a branch key right after
      it; append their characters and skip both, or else copy one character. */
  method LoopTurn(t: PinyinTables, s: string, lower: string, i: nat) returns (text: string, next: nat)
    requires Usable(t) && i < |lower|
    ensures text == Step(t, s, lower, i).0 && next == Step(t, s, lower, i).1
  {
    var stem := FindKey(t.stemKeys, lower, i);
    if stem.Some? {
      var afterStem := i + |stem.value|;
      var branch := FindKey(t.branchKeys, lower, afterStem);
      if branch.Some? {
        StepPair(t, s, lower, i, stem, branch);
        text := ValueOr(t.stemTable, stem.value) + ValueOr(t.branchTable, branch.value);
        next := afterStem + |branch.value|;
        return;
      }
      StepNoBranch(t, s, lower, i, stem, branch);
    } else {
      StepNoStem(t, s, lower, i, stem);
    }
    text := CharAt(s, i);
    next := i + 1;
  }

  /** A stem key and a branch key right after it make the turn write their characters. */
  lemma StepPair(t: PinyinTables, s: string, lower: string, i: nat, stem: Option<string>, branch: Option<string>)
    requires Usable(t) && i < |lower|
    requires stem == FindKey(t.stemKeys, lower, i) && stem.Some?
    requires branch == FindKey(t.branchKeys, lower, i + |stem.value|) && branch.Some?
    ensures Step(t, s, lower, i).0 == ValueOr(t.stemTable, stem.value) + ValueOr(t.branchTable, branch.value)
    ensures Step(t, s, lower, i).1 == i + |stem.value| + |branch.value|
  {
    PairOfFinds(t, lower, i, stem.value, branch.value);
  }

  /** Without a stem key the turn copies one character. */
  lemma StepNoStem(t: PinyinTables, s: string, lower: string, i: nat, stem: Option<string>)
    requires Usable(t) && i < |lower| && stem == FindKey(t.stemKeys, lower, i) && stem.None?
    ensures Step(t, s, lower, i).0 == CharAt(s, i) && Step(t, s, lower, i).1 == i + 1
  {
  }

  /** A stem key with no branch key after it makes the turn copy one character. */
  lemma StepNoBranch(t: PinyinTables, s: string, lower: string, i: nat, stem: Option<string>, branch: Option<string>)
    requires Usable(t) && i < |lower|
    requires stem == FindKey(t.stemKeys, lower, i) && stem.Some?
    requires branch == FindKey(t.branchKeys, lower, i + |stem.value|) && branch.None?
    ensures Step(t, s, lower, i).0 == CharAt(s, i) && Step(t, s, lower, i).1 == i + 1
  {
    assert PairAt(t, lower, i) == None;
  }

  /** One turn of the loop: what it appends, then the rest from where it goes on. */
  lemma {:induction false} TransduceStep(t: PinyinTables, s: string, lower: string, i: nat)
    requires Usable(t) && i < |lower|
    ensures Transduce(t, s, lower, i) == Step(t, s, lower, i).0 + Transduce(t, s, lower, Step(t, s, lower, i).1)
  {
  }

  /** A turn that writes `out` and moves to `next` puts `out` in front of what follows. */
  lemma {:induction false} TransduceStepTo(t: PinyinTables, s: string, lower: string, i: nat, out: string, next: nat)
    requires Usable(t) && i < |lower| && Step(t, s, lower, i) == (out, next)
    ensures Transduce(t, s, lower, i) == out + Transduce(t, s, lower, next)
  {
    TransduceStep(t, s, lower, i);
  }

  /** Each replacement writes two characters for at least four it consumes, and every other
      step copies at most one character for the one it consumes. */
  lemma {:induction false} TransduceShorter(t: PinyinTables, s: string, lower: string, i: nat)
    requires Usable(t)
    ensures i <= |lower| ==> |Transduce(t, s, lower, i)| <= |lower| - i
    ensures i >= |lower| ==> Transduce(t, s, lower, i) == []
    decreases |lower| - i
  {
    if i < |lower| {
      TransduceShorter(t, s, lower, Step(t, s, lower, i).1);
    }
  }

  /** The converted text is never longer than the trimmed input. */
  lemma GanzhiTextShorter(raw: string)
    ensures |GanzhiText(raw)| <= |Trim(raw)|
  {
    var s := Trim(raw);
    if s != [] && HasAsciiLetter(s) {
      TablesUsable();
      TransduceShorter(Tables(), s, ToLower(s), 0);
    }
  }

  /** Where no stem-then-branch pair starts, the text from `i` on is copied unchanged. */
  lemma {:induction false} TransduceCopies(t: PinyinTables, s: string, lower: string, i: nat)
    requires Usable(t) && |lower| == |s| && i <= |s|
    requires forall j :: i <= j < |lower| ==> PairAt(t, lower, j).None?
    ensures Transduce(t, s, lower, i) == s[i..]
    decreases |lower| - i
  {
    if i < |lower| {
      assert Step(t, s, lower, i) == ([s[i]], i + 1);
      TransduceCopies(t, s, lower, i + 1);
      assert s[i..] == [s[i]] + s[i + 1..];
    }
  }

  /** A text in which no stem pinyin is directly followed by a branch pinyin comes back
      trimmed and otherwise unchanged. */
  lemma GanzhiTextCopies(raw: string)
    requires forall j :: 0 <= j < |Trim(raw)| ==> PairAt(Tables(), ToLower(Trim(raw)), j).None?
    ensures GanzhiText(raw) == Trim(raw)
  {
    var s := Trim(raw);
    if s != [] && HasAsciiLetter(s) {
      TablesUsable();
      TransduceCopies(Tables(), s, ToLower(s), 0);
    }
  }

  /** The pair the loop replaces is the longest stem key at that place, followed by the
      longest branch key right after it. */
  lemma {:induction false} PairLongest(t: PinyinTables, lower: string, i: int)
    requires ByLengthDescending(t.stemKeys) && ByLengthDescending(t.branchKeys)
    requires PairAt(t, lower, i).Some?
    ensures var (stem, branch) := PairAt(t, lower, i).value;
      && (forall j :: 0 <= j < |t.stemKeys| && StartsWithAt(lower, t.stemKeys[j], i) ==> |t.stemKeys[j]| <= |stem|)
      && (forall j :: 0 <= j < |t.branchKeys| && StartsWithAt(lower, t.branchKeys[j], i + |stem|) ==> |t.branchKeys[j]| <= |branch|)
  {
    var (stem, branch) := PairAt(t, lower, i).value;
    FindKeyLongest(t.stemKeys, lower, i);
    FindKeyLongest(t.branchKeys, lower, i + |stem|);
  }

  /** The page's key lists are sorted longest first, so its pairs are longest matches. */
  lemma TablesSorted()
    ensures ByLengthDescending(Tables().stemKeys) && ByLengthDescending(Tables().branchKeys)
  {
    StemKeysStable();
    BranchKeysStable();
  }

  /** A sorted stem key and a sorted branch key look up one stem and one branch character. */
  lemma PairChars(stem: string, branch: string)
    requires exists j :: 0 <= j < |StemKeys()| && StemKeys()[j] == stem
    requires exists j :: 0 <= j < |BranchKeys()| && BranchKeys()[j] == branch
    ensures |ValueOr(StemPinyin(), stem)| == 1 && ValueOr(StemPinyin(), stem)[0] in Stems()
    ensures |ValueOr(BranchPinyin(), branch)| == 1 && ValueOr(BranchPinyin(), branch)[0] in Branches()
  {
    StemKeysSorted();
    BranchKeysSorted();
    ValuesInCycleOrder();
    var j :| 0 <= j < |StemKeys()| && StemKeys()[j] == stem;
    var si := StemKeyOrigins()[j];
    assert StemPinyin()[si].0 == stem;
    var c := Lookup(StemPinyin(), stem).value;
    var si' :| 0 <= si' < 10 && StemPinyin()[si'] == (stem, c);
    assert c == [Stems()[si']];
    var k :| 0 <= k < |BranchKeys()| && BranchKeys()[k] == branch;
    var bi := BranchKeyOrigins()[k];
    assert BranchPinyin()[bi].0 == branch;
    var d := Lookup(BranchPinyin(), branch).value;
    var bi' :| 0 <= bi' < 12 && BranchPinyin()[bi'] == (branch, d);
    assert d == [Branches()[bi']];
  }

  /** For each stem of the table, the place of its key in the sorted list `StemKeys()`. */
  function StemPos(): seq<nat> { [3, 7, 0, 1, 8, 9, 2, 4, 5, 6] }

  /** For each branch of the table, the place of its key in the sorted list `BranchKeys()`. */
  function BranchPos(): seq<nat> { [8, 0, 3, 4, 1, 9, 10, 5, 2, 6, 11, 7] }

  lemma KeyPositions()
    ensures forall i :: 0 <= i < 10 ==> StemPos()[i] < 10 && StemKeys()[StemPos()[i]] == StemPinyin()[i].0
    ensures forall j :: 0 <= j < 12 ==> BranchPos()[j] < 12 && BranchKeys()[BranchPos()[j]] == BranchPinyin()[j].0
  {
  }

  /** For stem `i` and each sorted stem key `n` listed before its own, a place where key `n`
      departs from stem `i`'s pinyin: a letter both have and that differs, or (for `jia`
      before `ji`) the letter after `ji`, which is `a`. */
  function StemDiff(): seq<seq<nat>> {
    [[0, 0, 0], [0, 0, 0, 0, 0, 0, 0], [], [0], [0, 0, 0, 0, 0, 0, 0, 0], [0, 0, 0, 2, 0, 0, 0, 0, 0],
     [0, 0], [0, 0, 0, 0], [0, 0, 0, 0, 0], [0, 0, 1, 0, 0, 0]]
  }

  /** For branch `j` and each sorted branch key `n` listed before its own, a letter both have
      and that differs. */
  function BranchDiff(): seq<seq<nat>> {
    [[0, 0, 0, 0, 0, 0, 0, 0], [], [0, 0, 0], [0, 0, 0, 0], [2], [0, 0, 1, 0, 0, 0, 0, 0, 0],
     [0, 0, 0, 0, 0, 1, 0, 0, 0, 0], [0, 0, 0, 0, 0], [0, 0], [0, 0, 0, 1, 0, 0],
     [0, 0, 0, 0, 0, 0, 0, 0, 0, 0, 0], [0, 0, 0, 0, 0, 0, 0]]
  }

  /** The stem key listed `n`-th departs from stem `i`'s pinyin where `StemDiff` says. */
  predicate StemDiffers(i: nat, n: nat)
    requires i < 10 && n < StemPos()[i]
  {
    var k, ki := StemKeys()[n], StemPinyin()[i].0;
    |StemDiff()[i]| == StemPos()[i] && StemDiff()[i][n] < |k| && StemDiff()[i][n] <= |ki|
    && (if StemDiff()[i][n] < |ki| then k[StemDiff()[i][n]] != ki[StemDiff()[i][n]]
        else k[StemDiff()[i][n]] == 'a')
  }

  /** The stem keys listed before stem `i`'s own key depart from its pinyin where `StemDiff`
      says. */
  lemma EarlierStemKeys()
    ensures forall i: nat, n: nat :: i < 10 && n < StemPos()[i] ==> StemDiffers(i, n)
  {
    forall i: nat, n: nat | i < 10 && n < StemPos()[i] ensures StemDiffers(i, n) {
      assert i < 5 || i >= 5;
    }
  }

  /** No branch pinyin starts with `a`. */
  lemma BranchHeads()
    ensures forall j :: 0 <= j < 12 ==> |BranchPinyin()[j].0| >= 2 && BranchPinyin()[j].0[0] != 'a'
  {
  }

  /** The branch key listed `n`-th departs from branch `j`'s pinyin where `BranchDiff` says. */
  predicate BranchDiffers(j: nat, n: nat)
    requires j < 12 && n < BranchPos()[j]
  {
    var k, kj := BranchKeys()[n], BranchPinyin()[j].0;
    |BranchDiff()[j]| == BranchPos()[j] && BranchDiff()[j][n] < |k| && BranchDiff()[j][n] < |kj|
    && k[BranchDiff()[j][n]] != kj[BranchDiff()[j][n]]
  }

  /** The branch keys listed before branch `j`'s own key depart from its pinyin where
      `BranchDiff` says. */
  lemma EarlierBranchKeys()
    ensures forall j: nat, n: nat :: j < 12 && n < BranchPos()[j] ==> BranchDiffers(j, n)
  {
    EarlierBranchKeysFrom(0);
    EarlierBranchKeysFrom(6);
  }

  /** `EarlierBranchKeys` for the six branches from `lo` on. */
  lemma EarlierBranchKeysFrom(lo: nat)
    requires lo == 0 || lo == 6
    ensures forall j: nat, n: nat :: lo <= j < lo + 6 && n < BranchPos()[j] ==> BranchDiffers(j, n)
  {
    forall j: nat, n: nat | lo <= j < lo + 6 && n < BranchPos()[j] ensures BranchDiffers(j, n) {
      assert j < lo + 3 || j >= lo + 3;
    }
  }

  /** A key that differs from `w` at a letter both have does not start where `w` does. */
  lemma {:induction false} DiffersAt(lower: string, w: string, q: int, k: string, d: nat)
    requires StartsWithAt(lower, w, q) && d < |w| && d < |k| && k[d] != w[d]
    ensures !StartsWithAt(lower, k, q)
  {
    assert lower[q..q + |w|][d] == lower[q + d];
  }

  /** A prefix of a string that starts at `q` starts at `q`. */
  lemma {:induction false} StartsWithPrefix(lower: string, w: string, q: int, n: nat)
    requires StartsWithAt(lower, w, q) && n <= |w|
    ensures StartsWithAt(lower, w[..n], q)
  {
    assert lower[q..q + n] == lower[q..q + |w|][..n];
  }

  /** Where `a + b` starts, `b` starts right after `a`. */
  lemma {:induction false} StartsWithSecond(lower: string, q: int, a: string, b: string)
    requires StartsWithAt(lower, a + b, q)
    ensures StartsWithAt(lower, b, q + |a|)
  {
    assert lower[q + |a|..q + |a| + |b|] == lower[q..q + |a + b|][|a|..];
    assert (a + b)[|a|..] == b;
  }

  /** `find` returns the first key that starts at `q`. */
  lemma {:induction false} FindKeyFirst(keys: seq<string>, lower: string, q: int, m: nat)
    requires m < |keys| && StartsWithAt(lower, keys[m], q)
    requires forall n :: 0 <= n < m ==> !StartsWithAt(lower, keys[n], q)
    ensures FindKey(keys, lower, q) == Some(keys[m])
  {
    if m > 0 {
      assert forall n :: 0 <= n < m - 1 ==> keys[1..][n] == keys[n + 1];
      FindKeyFirst(keys[1..], lower, q, m - 1);
    }
  }

  /** The stem search at `p` finds `stem`. */
  ghost predicate StemKeyAt(t: PinyinTables, lower: string, p: int, stem: string) {
    FindKey(t.stemKeys, lower, p) == Some(stem)
  }

  /** The branch search at `q` finds `branch`. */
  ghost predicate BranchKeyAt(t: PinyinTables, lower: string, q: int, branch: string) {
    FindKey(t.branchKeys, lower, q) == Some(branch)
  }

  /** Where stem `i`'s pinyin is followed by branch `j`'s, the stem search finds stem `i`. */
  lemma {:induction false} StemFound(lower: string, p: int, i: nat, j: nat)
    requires i < 10 && j < 12
    requires StartsWithAt(lower, StemPinyin()[i].0 + BranchPinyin()[j].0, p)
    ensures StemKeyAt(Tables(), lower, p, StemPinyin()[i].0)
  {
    var ki, kj := StemPinyin()[i].0, BranchPinyin()[j].0;
    var w := ki + kj;
    KeyPositions();
    BranchHeads();
    EarlierStemKeys();
    var m := StemPos()[i];
    assert w[..|ki|] == ki;
    StartsWithPrefix(lower, w, p, |ki|);
    forall n | 0 <= n < m ensures !StartsWithAt(lower, StemKeys()[n], p) {
      assert StemDiffers(i, n);
      var d := StemDiff()[i][n];
      assert w[d] == if d < |ki| then ki[d] else kj[0];
      DiffersAt(lower, w, p, StemKeys()[n], d);
    }
    FindKeyFirst(StemKeys(), lower, p, m);
  }

  /** Where branch `j`'s pinyin starts, the branch search finds branch `j`. */
  lemma {:induction false} BranchFound(lower: string, q: int, j: nat)
    requires j < 12 && StartsWithAt(lower, BranchPinyin()[j].0, q)
    ensures BranchKeyAt(Tables(), lower, q, BranchPinyin()[j].0)
  {
    KeyPositions();
    EarlierBranchKeys();
    forall n: nat | n < BranchPos()[j] ensures !StartsWithAt(lower, BranchKeys()[n], q) {
      assert BranchDiffers(j, n);
      DiffersAt(lower, BranchPinyin()[j].0, q, BranchKeys()[n], BranchDiff()[j][n]);
    }
    FindKeyFirst(BranchKeys(), lower, q, BranchPos()[j]);
  }

  /** Where stem `i`'s pinyin directly followed by branch `j`'s starts, the loop finds that
      pair. */
  lemma {:induction false} PairFound(lower: string, p: nat, i: nat, j: nat)
    requires i < 10 && j < 12
    requires StartsWithAt(lower, StemPinyin()[i].0 + BranchPinyin()[j].0, p)
    ensures PairAt(Tables(), lower, p) == Some((StemPinyin()[i].0, BranchPinyin()[j].0))
  {
    var ki, kj := StemPinyin()[i].0, BranchPinyin()[j].0;
    StemFound(lower, p, i, j);
    StartsWithSecond(lower, p, ki, kj);
    BranchFound(lower, p + |ki|, j);
    PairOfFinds(Tables(), lower, p, ki, kj);
  }

  /** The pair the loop takes is the stem key found at `p` and the branch key found after it. */
  lemma {:induction false} PairOfFinds(t: PinyinTables, lower: string, p: int, stem: string, branch: string)
    requires StemKeyAt(t, lower, p, stem) && BranchKeyAt(t, lower, p + |stem|, branch)
    ensures PairAt(t, lower, p) == Some((stem, branch))
  {
  }

  /** The characters the tables give for stem `i`'s and branch `j`'s pinyin. */
  lemma PairValues(i: nat, j: nat)
    requires i < 10 && j < 12
    ensures ValueOr(Tables().stemTable, StemPinyin()[i].0) + ValueOr(Tables().branchTable, BranchPinyin()[j].0)
      == [Stems()[i], Branches()[j]]
  {
    StemKeysDistinct();
    BranchKeysDistinct();
    LookupEntry(StemPinyin(), i);
    LookupEntry(BranchPinyin(), j);
    ValuesInCycleOrder();
  }

  /** Where the loop finds a pair, the turn writes the pair's two values and moves past it. */
  lemma {:induction false} StepOfPair(t: PinyinTables, s: string, lower: string, p: nat, stem: string, branch: string)
    requires Usable(t) && p < |lower| && PairAt(t, lower, p) == Some((stem, branch))
    ensures p + |stem| + |branch| <= |lower|
    ensures Step(t, s, lower, p) == (ValueOr(t.stemTable, stem) + ValueOr(t.branchTable, branch), p + |stem| + |branch|)
  {
    PairSizes(t, lower, p);
  }

  /** Where the loop finds a pair, it writes the pair's two values and goes on after it. */
  lemma {:induction false} TransduceOfPair(t: PinyinTables, s: string, lower: string, p: nat, stem: string, branch: string, text: string)
    requires Usable(t) && p < |lower| && PairAt(t, lower, p) == Some((stem, branch))
    requires ValueOr(t.stemTable, stem) + ValueOr(t.branchTable, branch) == text
    ensures p + |stem| + |branch| <= |lower|
    ensures Transduce(t, s, lower, p) == text + Transduce(t, s, lower, p + |stem| + |branch|)
  {
    StepOfPair(t, s, lower, p, stem, branch);
    TransduceStepTo(t, s, lower, p, ValueOr(t.stemTable, stem) + ValueOr(t.branchTable, branch),
      p + |stem| + |branch|);
  }

  /** A text that reads, once trimmed and lower-cased, as a stem's pinyin followed by a
      branch's (`jiazi`, `JiaZi`, ` JIAZI `) becomes that stem and that branch. */
  lemma {:induction false} GanzhiTextPair(raw: string, i: nat, j: nat)
    requires i < 10 && j < 12
    requires ToLower(Trim(raw)) == StemPinyin()[i].0 + BranchPinyin()[j].0
    ensures GanzhiText(raw) == [Stems()[i], Branches()[j]]
  {
    var s := Trim(raw);
    var lower := ToLower(s);
    BranchHeads();
    StemKeysDistinct();
    assert AsciiLower(StemPinyin()[i].0);
    assert 'a' <= lower[0] <= 'z';
    assert IsAsciiLetter(s[0]);
    assert StartsWithAt(lower, lower, 0);
    TablesUsable();
    var ki, kj := StemPinyin()[i].0, BranchPinyin()[j].0;
    PairFound(lower, 0, i, j);
    PairValues(i, j);
    TransduceOfPair(Tables(), s, lower, 0, ki, kj, [Stems()[i], Branches()[j]]);
    TransduceShorter(Tables(), s, lower, |lower|);
  }

  // ---------------------------------------------------------------- palace grid

  /** `ringCellIndexes`: the border cells of the 4 x 4 grid, clockwise from the top left. */
  function RingCells(): seq<nat> {
    [0, 1, 2, 3, 7, 11, 15, 14, 13, 12, 8, 4]
  }

  /** For each of the sixteen cells, its step along the ring, or -1 for the four centre cells. */
  function RingStep(): seq<int> {
    [0, 1, 2, 3, 11, -1, -1, 4, 10, -1, -1, 5, 9, 8, 7, 6]
  }

  /** Cell `c` is on the border of the 4 x 4 grid. */
  predicate OnBorder(c: nat) {
    c / 4 == 0 || c / 4 == 3 || c % 4 == 0 || c % 4 == 3
  }

  /** `RingStep` inverts `RingCells`: the ring visits each border cell once and no other. */
  lemma RingStepInverse()
    ensures |RingCells()| == 12 && |RingStep()| == 16
    ensures forall s :: 0 <= s < 12 ==> RingCells()[s] < 16 && RingStep()[RingCells()[s]] == s
    ensures forall c :: 0 <= c < 16 && RingStep()[c] >= 0 ==> RingStep()[c] < 12 && RingCells()[RingStep()[c]] == c
  {
  }

  lemma RingIsBorder()
    ensures forall c :: 0 <= c < 16 ==> (RingStep()[c] >= 0 <==> OnBorder(c))
  {
  }

  /** Cells `a` and `b` share a side in the 4 x 4 grid. */
  predicate Neighbours(a: nat, b: nat) {
    var dr := a / 4 - b / 4;
    var dc := a % 4 - b % 4;
    (dr == 0 && (dc == 1 || dc == -1)) || (dc == 0 && (dr == 1 || dr == -1))
  }

  /** Walking the ring steps from each cell to a neighbour, and from the last back to the first. */
  lemma RingIsConnected()
    ensures forall s, t :: 0 <= s < 12 && t == (s + 1) % 12 ==> Neighbours(RingCells()[s], RingCells()[t])
  {
  }

  /** The grid after the first `n` steps of the `forEach`: the ring cells of the first `n`
      steps hold their branch index and every other cell is still `null`. */
  function GridAfter(n: nat): (g: seq<Option<nat>>)
    ensures |g| == 16
  {
    seq(16, c requires 0 <= c < 16 =>
      var s := RingStep()[c];
      if 0 <= s < n then Some((3 + s) % 12) else None)
  }

  /** `gridPalaceBranchIndexes`: a fresh sixteen-cell array filled along the ring. */
  method GridPalaceBranchIndexes() returns (out: array<Option<nat>>)
    ensures fresh(out) && out[..] == GridAfter(12)
  {
    out := new Option<nat>[16](_ => None);
    RingStepInverse();
    assert out[..] == GridAfter(0);
    var step := 0;
    while step < 12
      invariant 0 <= step <= 12 && out[..] == GridAfter(step)
    {
      out[RingCells()[step]] := Some((3 + step) % 12);
      step := step + 1;
    }
  }

  /** The finished grid: each ring cell holds its branch index and the four centre cells
      hold nothing. */
  lemma GridLayout()
    ensures forall s :: 0 <= s < 12 ==> GridAfter(12)[RingCells()[s]] == Some((3 + s) % 12)
    ensures GridAfter(12)[5] == None && GridAfter(12)[6] == None
    ensures GridAfter(12)[9] == None && GridAfter(12)[10] == None
  {
    RingStepInverse();
  }

  /** Ring step `s` shows palace branch `(3 + s) % 12`, which step `(b + 9) % 12` inverts. */
  lemma StepBranch(s: int, b: int)
    requires 0 <= s < 12 && 0 <= b < 12
    ensures (3 + s) % 12 == b <==> s == (b + 9) % 12
  {
    if s < 9 {
      assert (3 + s) % 12 == 3 + s;
    } else {
      assert (3 + s) % 12 == s - 9;
    }
  }

  /** Each branch index 0..11 sits in exactly one cell of the finished grid. */
  lemma GridBranchesOnce(b: int)
    requires 0 <= b < 12
    ensures GridAfter(12)[RingCells()[(b + 9) % 12]] == Some(b)
    ensures forall c :: 0 <= c < 16 && GridAfter(12)[c] == Some(b) ==> c == RingCells()[(b + 9) % 12]
  {
    var g := GridAfter(12);
    RingStepInverse();
    StepBranch((b + 9) % 12, b);
    forall c | 0 <= c < 16 && g[c] == Some(b) ensures c == RingCells()[(b + 9) % 12] {
      var s := RingStep()[c];
      assert 0 <= s < 12;
      StepBranch(s, b);
    }
  }

  // ---------------------------------------------------------------- horoscope hour

  /** The labels of `timeLabelByIndex`: early Zi, the eleven double hours, late Zi. */
  function TimeLabels(): seq<string> {
    ["早子时", "丑时", "寅时", "卯时", "辰时", "巳时", "午时", "未时", "申时", "酉时", "戌时", "亥时", "晚子时"]
  }

  /** `labels[timeIndex] ?? ""`. */
  function TimeLabelByIndex(timeIndex: int): (r: string)
    ensures r == [] <==> !(0 <= timeIndex < 13)
  {
    if 0 <= timeIndex < 13 then TimeLabels()[timeIndex] else ""
  }

  /** Indexes 1..11 name the branch double hours in cycle order; 0 and 12 are the two halves
      of the Zi hour. */
  lemma TimeLabelsFollowBranches(i: int)
    requires 1 <= i <= 11
    ensures TimeLabelByIndex(i) == [Branches()[i]] + "时"
  {
  }

  /** The `onHour` update `(v + dir + 13) % 13`, with JavaScript's remainder. */
  function NextHourIndex(v: int, dir: int): (r: int)
    requires dir == 1 || dir == -1
    ensures 0 <= v < 13 ==> 0 <= r < 13 && TimeLabelByIndex(r) != []
  {
    JsRem(v + dir + 13, 13)
  }

  /** A step forward and a step back undo each other. */
  lemma HourStepsUndo(v: int)
    requires 0 <= v < 13
    ensures NextHourIndex(NextHourIndex(v, 1), -1) == v
    ensures NextHourIndex(NextHourIndex(v, -1), 1) == v
  {
    HourStep(v);
    if v < 12 {
      HourStep(v + 1);
    } else {
      HourStep(0);
    }
    if v > 0 {
      HourStep(v - 1);
    } else {
      HourStep(12);
    }
  }

  /** One press forward or back, for an index on the dial. */
  lemma HourStep(v: int)
    requires 0 <= v < 13
    ensures NextHourIndex(v, 1) == if v == 12 then 0 else v + 1
    ensures NextHourIndex(v, -1) == if v == 0 then 12 else v - 1
  {
    if v == 12 {
      assert (v + 1 + 13) % 13 == 0;
    } else {
      assert (v + 1 + 13) % 13 == v + 1;
    }
    if v == 0 {
      assert (v - 1 + 13) % 13 == 12;
    } else {
      assert (v - 1 + 13) % 13 == v - 1;
    }
  }

  /** The index after `n` presses in direction `dir`. */
  function HourAfter(v: int, dir: int, n: nat): int
    requires dir == 1 || dir == -1
  {
    if n == 0 then v else NextHourIndex(HourAfter(v, dir, n - 1), dir)
  }

  /** Pressing `n` times moves the index `n` places round the thirteen labels, so thirteen
      presses bring it back. */
  lemma {:induction false} HourAfterPresses(v: int, dir: int, n: nat)
    requires 0 <= v < 13 && (dir == 1 || dir == -1)
    ensures HourAfter(v, dir, n) == (v + dir * n) % 13
  {
    if n > 0 {
      HourAfterPresses(v, dir, n - 1);
      PressTurn(v, dir, n, HourAfter(v, dir, n - 1));
    }
  }

  /** A press from the index `n - 1` presses reached gives the index `n` presses reach. */
  lemma PressTurn(v: int, dir: int, n: nat, h: int)
    requires n > 0 && (dir == 1 || dir == -1) && h == (v + dir * (n - 1)) % 13
    ensures NextHourIndex(h, dir) == (v + dir * n) % 13
  {
    PressStep(v, dir, n);
  }

  /** One more press adds `dir` to the unreduced position. */
  lemma PressStep(v: int, dir: int, n: nat)
    requires n > 0 && (dir == 1 || dir == -1)
    ensures ((v + dir * (n - 1)) % 13 + dir + 13) % 13 == (v + dir * n) % 13
  {
    var m := v + dir * (n - 1);
    assert m + dir == v + dir * n by {
      if dir == 1 { assert dir * n == n; } else { assert dir * n == -(n as int); }
    }
    ModOfSum(m, dir + 13);
    ModAddThirteen(m + dir);
  }

  /** Reducing the first summand first does not change the remainder. */
  lemma ModOfSum(m: int, c: int)
    ensures (m % 13 + c) % 13 == (m + c) % 13
  {
    var q := m / 13;
    assert m == 13 * q + m % 13;
    ModAddMultiple(m % 13 + c, q);
  }

  lemma ModAddThirteen(x: int)
    ensures (x + 13) % 13 == x % 13
  {
    ModAddMultiple(x, 1);
  }

  lemma ModAddMultiple(x: int, q: int)
    ensures (x + 13 * q) % 13 == x % 13
  {
    var r := x % 13;
    assert x == 13 * (x / 13) + r;
    assert x + 13 * q == 13 * (x / 13 + q) + r;
  }
}
