/** The life K-line engine (packages/core/src/kline.ts): one candle per year of age 1..100
    scored from the chart's favourable elements, the decade and year gan-zhi and branch
    relations, plus the decade stages and the overall insight. Scores are exact reals; the
    source's weights 0.2, 0.35, 0.3, 0.1 and 0.05 are taken as the exact decimals. */
module KLine {
  import opened Strings
  import opened GanZhi
  import opened Paipan
  import opened Calendar
  import opened Birth

  /** `clamp01` with its default bounds 0 and 100. */
  function Clamp01(v: real): (r: real)
    ensures 0.0 <= r <= 100.0
    ensures 0.0 <= v <= 100.0 ==> r == v
    ensures v < 0.0 ==> r == 0.0
    ensures v > 100.0 ==> r == 100.0
  {
    if v < 0.0 then 0.0 else if v > 100.0 then 100.0 else v
  }

  function Max(a: real, b: real): real { if a >= b then a else b }
  function Min(a: real, b: real): real { if a <= b then a else b }
  function Abs(x: real): real { if x < 0.0 then -x else x }

  /** `Math.round`: the nearest integer, halves rounded up. */
  function Round(x: real): (n: int)
    ensures n as real - 0.5 <= x < n as real + 0.5
  {
    (x + 0.5).Floor
  }

  lemma RoundBounds(x: real, lo: int, hi: int)
    requires lo as real <= x <= hi as real
    ensures lo <= Round(x) <= hi
  {
  }

  /** `gz.slice(0, 1)` and `gz.slice(1)`. */
  function StemPart(gz: string): string {
    if |gz| >= 1 then gz[..1] else ""
  }

  function BranchPart(gz: string): string {
    if |gz| >= 1 then gz[1..] else ""
  }

  // ---------------------------------------------------------------- relation score

  datatype RelLabel = Favorable | Neutral | Unfavorable

  datatype Relation = Relation(kind: RelLabel, score: int)

  /** The elements `relationScore` looks at: the stem's and the branch's, each only when the
      string is non-empty, unknown characters counting as earth. */
  function Parts(gan: string, zhi: string): (r: seq<Element>)
    ensures |r| <= 2
  {
    (if gan != "" then [StemElementOr(gan)] else [])
    + (if zhi != "" then [BranchElementOr(zhi)] else [])
  }

  /** How many of `parts` lie in `elements`. */
  function Hits(parts: seq<Element>, elements: seq<Element>): (n: nat)
    ensures n <= |parts|
  {
    if parts == [] then 0
    else Hits(parts[..|parts| - 1], elements) + (if parts[|parts| - 1] in elements then 1 else 0)
  }

  /** The decision table of `relationScore` on the two hit counts. */
  function RelationOfHits(hitFav: nat, hitUnfav: nat): Relation {
    if hitFav >= 2 then Relation(Favorable, 85)
    else if hitUnfav >= 2 then Relation(Unfavorable, 35)
    else if hitFav == 1 && hitUnfav == 0 then Relation(Favorable, 75)
    else if hitUnfav == 1 && hitFav == 0 then Relation(Unfavorable, 50)
    else Relation(Neutral, 65)
  }

  /** What `relationScore` answers for a stem and a branch. */
  function RelationOf(favorable: seq<Element>, unfavorable: seq<Element>, gan: string, zhi: string): Relation {
    var parts := Parts(gan, zhi);
    RelationOfHits(Hits(parts, favorable), Hits(parts, unfavorable))
  }

  /** `relationScore`: count the favourable and unfavourable hits, then decide. */
  method RelationScore(favorable: seq<Element>, unfavorable: seq<Element>, gan: string, zhi: string)
    returns (r: Relation)
    ensures r == RelationOf(favorable, unfavorable, gan, zhi)
  {
    var parts := Parts(gan, zhi);
    var hitFav := 0;
    var hitUnfav := 0;
    var i := 0;
    while i < |parts|
      invariant 0 <= i <= |parts|
      invariant hitFav == Hits(parts[..i], favorable) && hitUnfav == Hits(parts[..i], unfavorable)
    {
      assert parts[..i + 1][..i] == parts[..i];
      if parts[i] in favorable {
        hitFav := hitFav + 1;
      }
      if parts[i] in unfavorable {
        hitUnfav := hitUnfav + 1;
      }
      i := i + 1;
    }
    assert parts[..i] == parts;
    r := RelationOfHits(hitFav, hitUnfav);
  }

  /** The score takes one of five values and the label is `favorable` exactly for 85 and 75,
      `unfavorable` exactly for 35 and 50. */
  lemma RelationScoreValues(favorable: seq<Element>, unfavorable: seq<Element>, gan: string, zhi: string)
    ensures var r := RelationOf(favorable, unfavorable, gan, zhi);
      && r.score in {85, 75, 65, 50, 35}
      && (r.kind == Favorable <==> r.score == 85 || r.score == 75)
      && (r.kind == Unfavorable <==> r.score == 35 || r.score == 50)
  {
  }

  /** With a favourable and an unfavourable set that share no element (as the chart's always do),
      the score says how the stem and branch fall: 85 when both are present and favourable, 35
      when both are present and unfavourable, 75 when exactly one favourable one is present and
      nothing else counts, 50 likewise for one unfavourable one, and 65 otherwise. */
  lemma RelationMeaning(favorable: seq<Element>, unfavorable: seq<Element>, gan: string, zhi: string)
    requires forall e :: e in favorable ==> e !in unfavorable
    ensures var r := RelationOf(favorable, unfavorable, gan, zhi);
      var parts := Parts(gan, zhi);
      && (r.score == 85 <==> |parts| == 2 && parts[0] in favorable && parts[1] in favorable)
      && (r.score == 35 <==> |parts| == 2 && parts[0] in unfavorable && parts[1] in unfavorable)
      && (r.score == 75 <==> Hits(parts, favorable) == 1 && Hits(parts, unfavorable) == 0)
      && (r.score == 50 <==> Hits(parts, unfavorable) == 1 && Hits(parts, favorable) == 0)
  {
    var parts := Parts(gan, zhi);
    if |parts| == 2 {
      HitsOfPair(parts, favorable);
      HitsOfPair(parts, unfavorable);
    } else if |parts| == 1 {
      HitsOfOne(parts, favorable);
      HitsOfOne(parts, unfavorable);
    } else {
      assert parts == [];
    }
  }

  lemma HitsOfOne(parts: seq<Element>, elements: seq<Element>)
    requires |parts| == 1
    ensures Hits(parts, elements) == if parts[0] in elements then 1 else 0
  {
    assert parts[..0] == [];
  }

  lemma HitsOfPair(parts: seq<Element>, elements: seq<Element>)
    requires |parts| == 2
    ensures Hits(parts, elements) == (if parts[0] in elements then 1 else 0) + (if parts[1] in elements then 1 else 0)
  {
    HitsOfOne(parts[..1], elements);
  }

  // ---------------------------------------------------------------- clash factor

  datatype ClashFactor = ClashFactor(score: int, delta: int, tags: seq<string>)

  /** The branch pairs `estimateClashFactor` examines: each natal branch with the year branch
      and with the decade branch, then the decade branch with the year branch. */
  function PairCount(natal: seq<string>, luckZhi: string, yearZhi: string, pairs: set<string>): (n: nat)
  {
    if natal == [] then (if luckZhi + yearZhi in pairs then 1 else 0)
    else
      var z := natal[|natal| - 1];
      PairCount(natal[..|natal| - 1], luckZhi, yearZhi, pairs)
      + (if z + yearZhi in pairs then 1 else 0) + (if z + luckZhi in pairs then 1 else 0)
  }

  /** The decision table of `estimateClashFactor`: clashes win over combinations. */
  function ClashOfCounts(he: nat, chong: nat): (r: ClashFactor)
    ensures ("合" in r.tags <==> he > 0) && ("冲" in r.tags <==> chong > 0)
    ensures forall t :: t in r.tags ==> t == "合" || t == "冲"
    ensures r.tags == (if he > 0 then ["合"] else []) + (if chong > 0 then ["冲"] else [])
  {
    var tags := (if he > 0 then ["合"] else []) + (if chong > 0 then ["冲"] else []);
    if chong >= 2 then ClashFactor(35, -15, tags)
    else if chong == 1 then ClashFactor(50, -10, tags)
    else if he >= 2 then ClashFactor(70, 5, tags)
    else if he == 1 then ClashFactor(65, 5, tags)
    else ClashFactor(60, 0, tags)
  }

  function ClashOf(natal: seq<string>, luckZhi: string, yearZhi: string): ClashFactor {
    ClashOfCounts(PairCount(natal, luckZhi, yearZhi, SixHePairs()), PairCount(natal, luckZhi, yearZhi, ClashPairs()))
  }

  /** `estimateClashFactor`. */
  method EstimateClashFactor(natal: seq<string>, luckZhi: string, yearZhi: string) returns (r: ClashFactor)
    ensures r == ClashOf(natal, luckZhi, yearZhi)
  {
    var he := 0;
    var chong := 0;
    var i := 0;
    while i < |natal|
      invariant 0 <= i <= |natal|
      invariant he + CountBranchSixHe(luckZhi, yearZhi) == PairCount(natal[..i], luckZhi, yearZhi, SixHePairs())
      invariant chong + CountBranchClash(luckZhi, yearZhi) == PairCount(natal[..i], luckZhi, yearZhi, ClashPairs())
    {
      assert natal[..i + 1][..i] == natal[..i];
      var z := natal[i];
      he := he + CountBranchSixHe(z, yearZhi);
      chong := chong + CountBranchClash(z, yearZhi);
      he := he + CountBranchSixHe(z, luckZhi);
      chong := chong + CountBranchClash(z, luckZhi);
      i := i + 1;
    }
    assert natal[..i] == natal;
    he := he + CountBranchSixHe(luckZhi, yearZhi);
    chong := chong + CountBranchClash(luckZhi, yearZhi);
    r := ClashOfCounts(he, chong);
  }

  /** Score and delta move together: every clash outcome scores below the neutral 60 and lowers
      the candle, every combination outcome scores above it and raises it, and 60 with delta 0
      means neither was found. */
  lemma ClashFactorTable(natal: seq<string>, luckZhi: string, yearZhi: string)
    ensures var r := ClashOf(natal, luckZhi, yearZhi);
      var he := PairCount(natal, luckZhi, yearZhi, SixHePairs());
      var chong := PairCount(natal, luckZhi, yearZhi, ClashPairs());
      && (chong >= 2 <==> r.score == 35 && r.delta == -15)
      && (chong == 1 <==> r.score == 50 && r.delta == -10)
      && (chong == 0 && he >= 2 <==> r.score == 70 && r.delta == 5)
      && (chong == 0 && he == 1 <==> r.score == 65 && r.delta == 5)
      && (chong == 0 && he == 0 <==> r.score == 60 && r.delta == 0)
      && (r.delta < 0 <==> chong > 0)
      && -15 <= r.delta <= 5
  {
  }

  /** Both pair tables are symmetric, so whether two branch strings clash or combine does not
      depend on their order. */
  lemma BranchCountsSymmetric(a: string, b: string)
    ensures CountBranchClash(a, b) == CountBranchClash(b, a)
    ensures CountBranchSixHe(a, b) == CountBranchSixHe(b, a)
  {
    ClashPairsSymmetric();
    SixHePairsSymmetric();
    if |a| == 1 && |b| == 1 {
      assert Reverse2(a + b) == b + a;
      assert Reverse2(b + a) == a + b;
    } else if |a| == 0 {
      assert a + b == b + a;
    } else if |b| == 0 {
      assert a + b == b + a;
    } else {
      assert |a + b| > 2 && |b + a| > 2;
    }
  }

  // ---------------------------------------------------------------- pattern adjustment

  /** The elements `estimatePatternAdjust` collects from the four pillars, stem then branch,
      skipping empty ones. */
  function PillarElements(pillars: seq<PillarDetail>): seq<Element> {
    if pillars == [] then []
    else
      var p := pillars[|pillars| - 1];
      PillarElements(pillars[..|pillars| - 1]) + Parts(p.gan, p.zhi)
  }

  const AllElements: seq<Element> := [Wood, Fire, Earth, Metal, Water]

  lemma AllElementsComplete(e: Element)
    ensures e in AllElements
  {
  }

  /** The counts of the present elements differ by at most one. */
  ghost predicate Balanced(elements: seq<Element>) {
    forall a, b :: a in elements && b in elements ==>
      multiset(elements)[a] <= multiset(elements)[b] + 1
  }

  /** Some element occurs at least five times. */
  ghost predicate Dominated(elements: seq<Element>) {
    exists e :: e in elements && multiset(elements)[e] >= 5
  }

  /** The pattern score: 65 for a balanced chart (also one with no element at all, where the
      source compares `-Infinity` with `Infinity`), 50 when one element dominates, 60 otherwise. */
  ghost function PatternOf(elements: seq<Element>): int {
    if Balanced(elements) then 65 else if Dominated(elements) then 50 else 60
  }

  /** `estimatePatternAdjust`: tally the elements in a map, then compare the largest and the
      smallest tally. */
  method EstimatePatternAdjust(pillars: seq<PillarDetail>) returns (score: int)
    ensures score == PatternOf(PillarElements(pillars))
  {
    var elements := [];
    var i := 0;
    while i < |pillars|
      invariant 0 <= i <= |pillars|
      invariant elements == PillarElements(pillars[..i])
    {
      assert pillars[..i + 1][..i] == pillars[..i];
      var p := pillars[i];
      if p.gan != "" {
        elements := elements + [StemElementOr(p.gan)];
      }
      if p.zhi != "" {
        elements := elements + [BranchElementOr(p.zhi)];
      }
      i := i + 1;
    }
    assert pillars[..i] == pillars;
    var counts := Tally(elements);
    score := Spread(elements, counts);
  }

  /** The tallies of `counts.set(e, (counts.get(e) ?? 0) + 1)`. */
  method Tally(elements: seq<Element>) returns (counts: map<Element, nat>)
    ensures forall e :: e in counts <==> e in elements
    ensures forall e :: e in counts ==> counts[e] == multiset(elements)[e]
  {
    counts := map[];
    var j := 0;
    while j < |elements|
      invariant 0 <= j <= |elements|
      invariant forall e :: e in counts <==> e in elements[..j]
      invariant forall e :: e in counts ==> counts[e] == multiset(elements[..j])[e]
    {
      assert elements[..j + 1] == elements[..j] + [elements[j]];
      var e := elements[j];
      counts := counts[e := (if e in counts then counts[e] else 0) + 1];
      j := j + 1;
    }
    assert elements[..j] == elements;
  }

  /** The comparison of the largest and the smallest tally. */
  method Spread(elements: seq<Element>, counts: map<Element, nat>) returns (score: int)
    requires forall e :: e in counts <==> e in elements
    requires forall e :: e in counts ==> counts[e] == multiset(elements)[e]
    ensures score == 65 <==> Balanced(elements)
    ensures score == 50 <==> !Balanced(elements) && Dominated(elements)
    ensures score == 65 || score == 50 || score == 60
  {
    if counts == map[] {
      score := 65;
      return;
    }
    var max := 0;
    var min := 0;
    var seen := false;
    var k := 0;
    while k < 5
      invariant 0 <= k <= 5
      invariant seen <==> exists t :: 0 <= t < k && AllElements[t] in counts
      invariant seen ==> forall t :: 0 <= t < k && AllElements[t] in counts ==>
        min <= counts[AllElements[t]] <= max
      invariant seen ==> exists t :: 0 <= t < k && AllElements[t] in counts && counts[AllElements[t]] == max
      invariant seen ==> exists t :: 0 <= t < k && AllElements[t] in counts && counts[AllElements[t]] == min
    {
      var e := AllElements[k];
      if e in counts {
        if !seen || counts[e] > max {
          max := counts[e];
        }
        if !seen || counts[e] < min {
          min := counts[e];
        }
        seen := true;
      }
      k := k + 1;
    }
    var some :| some in counts;
    AllElementsComplete(some);
    assert seen;
    forall e | e in counts
      ensures min <= counts[e] <= max
    {
      AllElementsComplete(e);
    }
    if max - min <= 1 {
      score := 65;
    } else if max >= 5 {
      score := 50;
    } else {
      score := 60;
    }
  }

  // ---------------------------------------------------------------- year gan-zhi

  /** `calcYearGanZhiBySolarYear`. */
  function YearGanZhi(y: int): (r: string)
    ensures |r| == 2
  {
    var idx := JsRem(y - 1984, 60);
    var i := (idx + 60) % 60;
    [Stems()[i % 10], Branches()[i % 12]]
  }

  /** The two-step reduction is the mathematical residue, so the year's gan-zhi is the stem and
      branch at offset `y - 1984` in both cycles. */
  lemma YearGanZhiAt(y: int)
    ensures YearGanZhi(y) == GanZhiAt(y - 1984, y - 1984)
    ensures YearGanZhi(y) == [Stems()[(y - 1984) % 10], Branches()[(y - 1984) % 12]]
  {
    var d := y - 1984;
    var i := (JsRem(d, 60) + 60) % 60;
    JsResidue(d);
    Residues(d);
  }

  /** Adding 60 to the truncated remainder and reducing again gives the Euclidean residue. */
  lemma JsResidue(d: int)
    ensures (JsRem(d, 60) + 60) % 60 == d % 60
  {
    if d < 0 {
      var q := (-d) / 60;
      var r := (-d) % 60;
      assert -d == 60 * q + r;
      if r == 0 {
        assert d == 60 * (-q);
      } else {
        assert d == 60 * (-q - 1) + (60 - r);
      }
    }
  }

  /** Euclidean division by 10 and by 12 is unique. */
  lemma Unique10(a: int, q: int, r: int)
    requires a == 10 * q + r && 0 <= r < 10
    ensures a % 10 == r
  {
  }

  lemma Unique12(a: int, q: int, r: int)
    requires a == 12 * q + r && 0 <= r < 12
    ensures a % 12 == r
  {
  }

  /** The residue mod 60 determines the residues mod 10 and mod 12. */
  lemma Residues(d: int)
    ensures (d % 60) % 10 == d % 10 && (d % 60) % 12 == d % 12
  {
    var m := d / 60;
    var i := d % 60;
    assert d == 60 * m + i;
    assert d == 10 * (6 * m + i / 10) + i % 10;
    assert d == 12 * (5 * m + i / 12) + i % 12;
    Unique10(d, 6 * m + i / 10, i % 10);
    Unique12(d, 5 * m + i / 12, i % 12);
  }

  lemma YearGanZhiAnchor()
    ensures YearGanZhi(1984) == "甲子"
  {
  }

  /** The year gan-zhi repeats every sixty years. */
  lemma YearGanZhiPeriod(y: int)
    ensures YearGanZhi(y + 60) == YearGanZhi(y)
  {
    YearGanZhiAt(y);
    YearGanZhiAt(y + 60);
    var d := y - 1984;
    Unique10(d + 60, d / 10 + 6, d % 10);
    Unique12(d + 60, d / 12 + 5, d % 12);
  }

  /** Consecutive years follow each other in the cycle the fallback decades use. */
  lemma YearGanZhiNext(y: int)
    ensures YearGanZhi(y + 1) == NextGanZhi(YearGanZhi(y), 1)
  {
    YearGanZhiAt(y);
    YearGanZhiAt(y + 1);
    NextGanZhiAt(y - 1984, y - 1984, 1);
  }

  // ---------------------------------------------------------------- one year

  /** `estimateBaseScore`: each strength has its own base score. */
  function BaseScore(s: Strength): (r: real)
    ensures r == 80.0 <==> s == Strong
    ensures r == 70.0 <==> s == Medium
    ensures r == 58.0 <==> s == Weak
  {
    match s
    case Strong => 80.0
    case Medium => 70.0
    case Weak => 58.0
  }

  predicate Covers(d: DaYun, age: int) {
    d.startAge <= age <= d.endAge
  }

  /** The position of the first decade covering `age` (`find`). */
  function FindCovering(ds: seq<DaYun>, age: int): (r: Option<nat>)
    ensures r.Some? ==> r.value < |ds|
  {
    if ds == [] then None
    else if Covers(ds[0], age) then Some(0)
    else match FindCovering(ds[1..], age)
      case Some(k) => Some(k + 1)
      case None => None
  }

  /** The position found covers the age and no earlier decade does; no position means no decade
      covers it. */
  lemma {:induction false} FindCoveringFacts(ds: seq<DaYun>, age: int)
    ensures var r := FindCovering(ds, age);
      && (r.Some? ==> Covers(ds[r.value], age) && forall k :: 0 <= k < r.value ==> !Covers(ds[k], age))
      && (r.None? ==> forall k :: 0 <= k < |ds| ==> !Covers(ds[k], age))
  {
    if ds != [] && !Covers(ds[0], age) {
      FindCoveringFacts(ds[1..], age);
      var r := FindCovering(ds[1..], age);
      forall k | 0 < k < |ds| ensures ds[k] == ds[1..][k - 1] { }
    }
  }

  /** `dyByAge`: the first decade covering the age, or the last decade when none does. */
  function DyByAge(ds: seq<DaYun>, age: int): DaYun
    requires |ds| > 0
  {
    match FindCovering(ds, age)
    case Some(k) => ds[k]
    case None => ds[|ds| - 1]
  }

  lemma DyByAgeFacts(ds: seq<DaYun>, age: int)
    requires |ds| > 0
    ensures (exists k :: 0 <= k < |ds| && Covers(ds[k], age)) ==>
      Covers(DyByAge(ds, age), age)
      && exists k :: 0 <= k < |ds| && DyByAge(ds, age) == ds[k] && forall j :: 0 <= j < k ==> !Covers(ds[j], age)
    ensures (forall k :: 0 <= k < |ds| ==> !Covers(ds[k], age)) ==> DyByAge(ds, age) == ds[|ds| - 1]
  {
    FindCoveringFacts(ds, age);
  }

  /** Before the first decade starts (a start age above 1), every decade lies ahead, so the
      look-up lands on the last decade rather than the first. */
  lemma BeforeFirstDecade(ds: seq<DaYun>, age: int)
    requires |ds| > 0 && forall k :: 0 <= k < |ds| ==> ds[k].startAge > age
    ensures DyByAge(ds, age) == ds[|ds| - 1]
  {
    DyByAgeFacts(ds, age);
  }

  /** What one chart contributes to every year. */
  datatype Chart = Chart(
    base: real, favorable: seq<Element>, unfavorable: seq<Element>, natalZhis: seq<string>,
    patternScore: int, firstSolarYear: int, dayBranch: string, daYun: seq<DaYun>)

  datatype Trend = Up | Down

  datatype YearKLine = YearKLine(
    age: int, year: int, ganZhi: string, open: real, high: real, low: real, close: real,
    score: real, trend: Trend, tags: seq<string>, brief: string)

  /** `yearFactor`: the year relation's score, lowered by 18 when the year branch clashes with
      the day branch and moved by 15 (up only for a favourable year) when the year repeats the
      decade's gan-zhi, clamped after each step. */
  function YearFactor(yearRel: Relation, dayClash: bool, sameGz: bool): (r: real)
    requires 0 <= yearRel.score <= 100
    ensures 0.0 <= r <= 100.0
    ensures !dayClash && !sameGz ==> r == yearRel.score as real
    ensures dayClash && !sameGz ==> r == Max(0.0, yearRel.score as real - 18.0)
    ensures !dayClash && sameGz && yearRel.kind == Favorable ==> r == Min(100.0, yearRel.score as real + 15.0)
    ensures !dayClash && sameGz && yearRel.kind != Favorable ==> r == Max(0.0, yearRel.score as real - 15.0)
    ensures dayClash && sameGz && yearRel.kind == Favorable ==>
      r == Min(100.0, Max(0.0, yearRel.score as real - 18.0) + 15.0)
    ensures dayClash && sameGz && yearRel.kind != Favorable ==>
      r == Max(0.0, Max(0.0, yearRel.score as real - 18.0) - 15.0)
  {
    var f := yearRel.score as real;
    var f1 := if dayClash then Clamp01(f - 18.0) else f;
    if sameGz then Clamp01(f1 + (if yearRel.kind == Favorable then 15.0 else -15.0)) else f1
  }

  /** The weighted score of a year, before clamping. */
  function Weighted(base: real, luck: int, yearFactor: real, clash: int, pattern: int): real {
    base * 0.2 + luck as real * 0.35 + yearFactor * 0.3 + clash as real * 0.1 + pattern as real * 0.05
  }

  /** The weights add up to one, so a year whose inputs all lie in [0, 100] needs no clamping. */
  lemma WeightedInRange(base: real, luck: int, yearFactor: real, clash: int, pattern: int)
    requires 0.0 <= base <= 100.0 && 0 <= luck <= 100 && 0.0 <= yearFactor <= 100.0
    requires 0 <= clash <= 100 && 0 <= pattern <= 100
    ensures 0.0 <= Weighted(base, luck, yearFactor, clash, pattern) <= 100.0
  {
  }

  function MinInt(a: int, b: int): int { if a <= b then a else b }

  /** The candle's wick length: the decade's distance from neutral and the year's clash delta,
      each rounded and capped. */
  function Volatility(luckScore: int, delta: int, dayClash: bool): (v: int)
    ensures 0 <= v <= 20
  {
    var luckVol := MinInt(8, Round(Abs((luckScore - 65) as real) / 5.0));
    var yearVol := MinInt(12, Round(Abs(delta as real) + (if dayClash then 6.0 else 0.0)));
    RoundBounds(Abs((luckScore - 65) as real) / 5.0, 0, 1 + Abs((luckScore - 65) as real).Floor);
    RoundBounds(Abs(delta as real) + (if dayClash then 6.0 else 0.0), 0, Abs(delta as real).Floor + 7);
    luckVol + yearVol
  }

  /** The tags of a year: the clash factor's, then 冲日支, then 岁运并临. */
  function YearTags(clash: ClashFactor, dayClash: bool, sameGz: bool): seq<string> {
    clash.tags + (if dayClash then ["冲日支"] else []) + (if sameGz then ["岁运并临"] else [])
  }

  /** The record the year loop pushes for `age`, opening at `open`. */
  function YearCandle(c: Chart, age: int, open: real): (y: YearKLine)
    requires |c.daYun| > 0
  {
    var year := c.firstSolarYear + age - 1;
    var gz := YearGanZhi(year);
    var dy := DyByAge(c.daYun, age);
    var luckRel := RelationOf(c.favorable, c.unfavorable, StemPart(dy.ganZhi), BranchPart(dy.ganZhi));
    var yearRel := RelationOf(c.favorable, c.unfavorable, StemPart(gz), BranchPart(gz));
    var clash := ClashOf(c.natalZhis, BranchPart(dy.ganZhi), BranchPart(gz));
    RelationScoreValues(c.favorable, c.unfavorable, StemPart(gz), BranchPart(gz));
    CandleOf(c, age, open, year, gz, dy.ganZhi, luckRel, yearRel, clash)
  }

  /** The candle of a year from its gan-zhi, its decade's gan-zhi and the three scores. */
  function CandleOf(c: Chart, age: int, open: real, year: int, gz: string, luckGz: string,
    luckRel: Relation, yearRel: Relation, clash: ClashFactor): (y: YearKLine)
    requires 0 <= yearRel.score <= 100
  {
    var dayClash := CountBranchClash(BranchPart(gz), c.dayBranch) == 1;
    var sameGz := luckGz == gz;
    var yearFactor := YearFactor(yearRel, dayClash, sameGz);
    var close := Clamp01(Weighted(c.base, luckRel.score, yearFactor, clash.score, c.patternScore));
    var vol := Volatility(luckRel.score, clash.delta, dayClash) as real;
    var trend := if close >= open then Up else Down;
    YearKLine(age, year, gz, open, Clamp01(Max(open, close) + vol), Clamp01(Min(open, close) - vol),
      close, close, trend, YearTags(clash, dayClash, sameGz), if trend == Up then "上行" else "回撤")
  }

  /** A well-formed candle: its body lies inside its wicks, all within [0, 100], each wick at
      most 20 long; it rises exactly when it closes at or above its open, and its brief says
      so; its score is its close. */
  predicate WellFormedCandle(y: YearKLine) {
    && 0.0 <= y.low <= Min(y.open, y.close) && Max(y.open, y.close) <= y.high <= 100.0
    && Min(y.open, y.close) - y.low <= 20.0 && y.high - Max(y.open, y.close) <= 20.0
    && (y.trend == Up <==> y.close >= y.open)
    && (y.brief == "上行" <==> y.trend == Up)
    && y.score == y.close
  }

  /** Every candle opening inside [0, 100] is well formed and carries its age, its calendar
      year and that year's gan-zhi. */
  lemma CandleShape(c: Chart, age: int, open: real)
    requires |c.daYun| > 0 && 0.0 <= open <= 100.0
    ensures var y := YearCandle(c, age, open);
      && y.age == age && y.year == c.firstSolarYear + age - 1 && y.ganZhi == YearGanZhi(y.year)
      && y.open == open && WellFormedCandle(y)
  {
  }

  /** The year tags: 冲日支 exactly when the year branch clashes with the day branch, 岁运并临
      exactly when the year's gan-zhi is the decade's. */
  lemma CandleTags(c: Chart, age: int, open: real, year: int, gz: string, luckGz: string,
    luckRel: Relation, yearRel: Relation, clash: ClashFactor)
    requires 0 <= yearRel.score <= 100
    requires forall t :: t in clash.tags ==> t == "合" || t == "冲"
    ensures var y := CandleOf(c, age, open, year, gz, luckGz, luckRel, yearRel, clash);
      && ("冲日支" in y.tags <==> CountBranchClash(BranchPart(gz), c.dayBranch) == 1)
      && ("岁运并临" in y.tags <==> luckGz == gz)
  {
    assert "冲日支" != "合" && "冲日支" != "冲" && "岁运并临" != "合" && "岁运并临" != "冲";
    assert "冲日支" != "岁运并临";
  }

  /** The loop body of `generateKLine` for one age. */
  method YearStep(c: Chart, age: int, open: real) returns (y: YearKLine)
    requires |c.daYun| > 0
    ensures y == YearCandle(c, age, open)
  {
    var year := c.firstSolarYear + age - 1;
    var gz := YearGanZhi(year);
    var yearGan := StemPart(gz);
    var yearZhi := BranchPart(gz);
    var dy := DyByAge(c.daYun, age);
    var luckGan := StemPart(dy.ganZhi);
    var luckZhi := BranchPart(dy.ganZhi);
    var luckRel := RelationScore(c.favorable, c.unfavorable, luckGan, luckZhi);
    var yearRel := RelationScore(c.favorable, c.unfavorable, yearGan, yearZhi);
    var clash := EstimateClashFactor(c.natalZhis, luckZhi, yearZhi);
    RelationScoreValues(c.favorable, c.unfavorable, yearGan, yearZhi);
    y := Candle(c, age, open, year, gz, dy.ganZhi, luckRel, yearRel, clash);
    YearCandleParts(c, age, open);
  }

  /** `YearCandle` in terms of the parts the loop body computes one by one. */
  lemma YearCandleParts(c: Chart, age: int, open: real)
    requires |c.daYun| > 0
    ensures var year := c.firstSolarYear + age - 1;
      var gz := YearGanZhi(year);
      var dy := DyByAge(c.daYun, age);
      && 0 <= RelationOf(c.favorable, c.unfavorable, StemPart(gz), BranchPart(gz)).score <= 100
      && YearCandle(c, age, open) == CandleOf(c, age, open, year, gz, dy.ganZhi,
           RelationOf(c.favorable, c.unfavorable, StemPart(dy.ganZhi), BranchPart(dy.ganZhi)),
           RelationOf(c.favorable, c.unfavorable, StemPart(gz), BranchPart(gz)),
           ClashOf(c.natalZhis, BranchPart(dy.ganZhi), BranchPart(gz)))
  {
    var gz := YearGanZhi(c.firstSolarYear + age - 1);
    RelationScoreValues(c.favorable, c.unfavorable, StemPart(gz), BranchPart(gz));
  }

  /** The part of the loop body that adjusts the year factor and the tags and builds the
      candle. */
  method Candle(c: Chart, age: int, open: real, year: int, gz: string, luckGz: string,
    luckRel: Relation, yearRel: Relation, clash: ClashFactor) returns (y: YearKLine)
    requires 0 <= yearRel.score <= 100
    ensures y == CandleOf(c, age, open, year, gz, luckGz, luckRel, yearRel, clash)
  {
    var dayClash := CountBranchClash(BranchPart(gz), c.dayBranch) == 1;
    var yearFactor := yearRel.score as real;
    var tags := clash.tags;
    if dayClash {
      yearFactor := Clamp01(yearFactor - 18.0);
      tags := tags + ["冲日支"];
    }
    if luckGz == gz {
      tags := tags + ["岁运并临"];
      yearFactor := Clamp01(yearFactor + (if yearRel.kind == Favorable then 15.0 else -15.0));
    }
    assert yearFactor == YearFactor(yearRel, dayClash, luckGz == gz);
    assert tags == YearTags(clash, dayClash, luckGz == gz);
    var total := Clamp01(Weighted(c.base, luckRel.score, yearFactor, clash.score, c.patternScore));
    var close := total;
    var vol := Volatility(luckRel.score, clash.delta, dayClash) as real;
    var high := Clamp01(Max(open, close) + vol);
    var low := Clamp01(Min(open, close) - vol);
    var trend := if close >= open then Up else Down;
    var brief := if trend == Up then "上行" else "回撤";
    y := YearKLine(age, year, gz, open, high, low, close, close, trend, tags, brief);
  }

  // ---------------------------------------------------------------- stages

  function Sum(ys: seq<YearKLine>): real {
    if ys == [] then 0.0 else Sum(ys[..|ys| - 1]) + ys[|ys| - 1].score
  }

  predicate ScoresInRange(ys: seq<YearKLine>) {
    forall i :: 0 <= i < |ys| ==> 0.0 <= ys[i].score <= 100.0
  }

  /** A sum of scores in [0, 100] lies between 0 and 100 per year. */
  lemma {:induction false} SumBounds(ys: seq<YearKLine>)
    requires ScoresInRange(ys)
    ensures 0.0 <= Sum(ys) <= 100.0 * |ys| as real
  {
    if ys != [] {
      SumBounds(ys[..|ys| - 1]);
    }
  }

  /** The years a decade covers, in order. */
  function CoveredYears(ys: seq<YearKLine>, d: DaYun): (r: seq<YearKLine>)
    ensures |r| <= |ys|
    ensures forall y :: y in r <==> y in ys && d.startAge <= y.age <= d.endAge
  {
    if ys == [] then []
    else
      var y := ys[|ys| - 1];
      CoveredYears(ys[..|ys| - 1], d) + (if d.startAge <= y.age <= d.endAge then [y] else [])
  }

  datatype Stage = Stage(
    startAge: int, endAge: int, ganZhi: string, score: real, summary: string, advice: string,
    risks: seq<string>)

  /** The decades that become stages: those starting at an age in 1..100, in order. */
  function StageDecades(ds: seq<DaYun>): (r: seq<DaYun>)
    ensures |r| <= |ds|
    ensures forall d :: d in r <==> d in ds && 1 <= d.startAge <= 100
  {
    if ds == [] then []
    else
      var d := ds[|ds| - 1];
      StageDecades(ds[..|ds| - 1]) + (if 1 <= d.startAge <= 100 then [d] else [])
  }

  /** The mean score of `ys`, or 60 for no year. */
  function MeanOr60(ys: seq<YearKLine>): real {
    if |ys| > 0 then Sum(ys) / |ys| as real else 60.0
  }

  function StageOf(d: DaYun, ys: seq<YearKLine>): Stage {
    var score := Clamp01(Round(MeanOr60(CoveredYears(ys, d))) as real);
    Stage(d.startAge, d.endAge, d.ganZhi, score,
      if score >= 75.0 then "偏强" else if score >= 60.0 then "平稳" else "偏弱",
      if score >= 75.0 then "把握节奏，顺势布局" else if score >= 60.0 then "稳健推进，重视复利" else "控制风险，先守后攻",
      if score >= 60.0 then [] else ["情绪波动", "决策保守"])
  }

  /** `daYunStages`. */
  function Stages(ds: seq<DaYun>, ys: seq<YearKLine>): seq<Stage> {
    var e := StageDecades(ds);
    seq(|e|, i requires 0 <= i < |e| => StageOf(e[i], ys))
  }

  /** The rounded mean of a non-empty list of closes in [0, 100] is a whole number in
      [0, 100]. */
  lemma MeanBounds(cov: seq<YearKLine>)
    requires ScoresInRange(cov) && cov != []
    ensures var m := Round(Sum(cov) / |cov| as real);
      && 0 <= m <= 100 && MeanOr60(cov) == Sum(cov) / |cov| as real
  {
    SumBounds(cov);
    DivBounds(Sum(cov), |cov| as real);
    RoundBounds(Sum(cov) / |cov| as real, 0, 100);
  }

  /** The score of a stage is a whole number in [0, 100], the rounded mean of the closes the
      decade covers, or 60 when it covers none. */
  lemma StageScore(d: DaYun, ys: seq<YearKLine>)
    requires ScoresInRange(ys)
    ensures var cov := CoveredYears(ys, d);
      var score := StageOf(d, ys).score;
      && 0.0 <= score <= 100.0 && score == score.Floor as real
      && (cov == [] ==> score == 60.0)
      && (cov != [] ==> score == Round(Sum(cov) / |cov| as real) as real)
  {
    var cov := CoveredYears(ys, d);
    if cov != [] {
      assert ScoresInRange(cov) by {
        forall k | 0 <= k < |cov| ensures 0.0 <= cov[k].score <= 100.0 {
          assert cov[k] in ys;
        }
      }
      MeanBounds(cov);
      var m := Round(Sum(cov) / |cov| as real);
      assert Clamp01(m as real) == m as real;
    } else {
      assert Round(60.0) == 60;
    }
  }

  /** A stage keeps its decade's ages and gan-zhi, and lists risks exactly when its score is
      below 60. */
  lemma StageFields(d: DaYun, ys: seq<YearKLine>)
    ensures var st := StageOf(d, ys);
      && st.startAge == d.startAge && st.endAge == d.endAge && st.ganZhi == d.ganZhi
      && (st.risks != [] <==> st.score < 60.0)
  {
  }

  /** One stage per decade starting at an age in 1..100, in order. */
  lemma StagesFacts(ds: seq<DaYun>, ys: seq<YearKLine>)
    ensures var st := Stages(ds, ys);
      && |st| == |StageDecades(ds)|
      && forall i :: 0 <= i < |st| ==>
        && st[i] == StageOf(StageDecades(ds)[i], ys)
        && StageDecades(ds)[i] in ds && 1 <= StageDecades(ds)[i].startAge <= 100
  {
    var e := StageDecades(ds);
    forall i | 0 <= i < |e| ensures e[i] in ds && 1 <= e[i].startAge <= 100 {
      assert e[i] in e;
    }
  }

  lemma DivBounds(s: real, n: real)
    requires n >= 1.0 && 0.0 <= s <= 100.0 * n
    ensures 0.0 <= s / n <= 100.0
  {
  }

  // ---------------------------------------------------------------- peaks and troughs

  /** The sort key: the comparator `b.score - a.score` sorts by descending score,
      `a.score - b.score` by ascending score. */
  function Key(y: YearKLine, descending: bool): real {
    if descending then -y.score else y.score
  }

  /** The order a stable sort leaves records in: by key, ties by age. */
  predicate Precedes(x: YearKLine, y: YearKLine, descending: bool) {
    Key(x, descending) < Key(y, descending) || (Key(x, descending) == Key(y, descending) && x.age < y.age)
  }

  /** Stable insertion: `x` comes before every record of `t` in the input, so it goes in front
      of the first record whose key is not smaller. */
  function Insert(x: YearKLine, t: seq<YearKLine>, descending: bool): (r: seq<YearKLine>)
    ensures multiset(r) == multiset(t) + multiset{x}
  {
    if t == [] || Key(x, descending) <= Key(t[0], descending) then [x] + t
    else
      assert t == [t[0]] + t[1..];
      [t[0]] + Insert(x, t[1..], descending)
  }

  /** `[...years].sort(comparator)`: a stable sort by score. */
  function SortByScore(s: seq<YearKLine>, descending: bool): (r: seq<YearKLine>)
    ensures multiset(r) == multiset(s)
  {
    if s == [] then []
    else
      assert s == [s[0]] + s[1..];
      Insert(s[0], SortByScore(s[1..], descending), descending)
  }

  predicate Ordered(r: seq<YearKLine>, descending: bool) {
    forall i, j :: 0 <= i < j < |r| ==> Precedes(r[i], r[j], descending)
  }

  predicate AgesIncreasing(s: seq<YearKLine>) {
    forall i, j :: 0 <= i < j < |s| ==> s[i].age < s[j].age
  }

  /** `x` comes before every record of `t`. */
  predicate PrecedesAll(x: YearKLine, t: seq<YearKLine>, descending: bool) {
    forall k :: 0 <= k < |t| ==> Precedes(x, t[k], descending)
  }

  /** A record before all of an ordered list keeps the list ordered when put in front. */
  lemma ConsOrdered(x: YearKLine, t: seq<YearKLine>, descending: bool)
    requires Ordered(t, descending) && PrecedesAll(x, t, descending)
    ensures Ordered([x] + t, descending)
  {
    var r := [x] + t;
    forall i, j | 0 <= i < j < |r| ensures Precedes(r[i], r[j], descending) {
      assert r[j] == t[j - 1];
      if i > 0 {
        assert r[i] == t[i - 1];
      }
    }
  }

  /** Inserting a record that comes after `y` into a list that comes after `y` gives a list
      that comes after `y`. */
  lemma {:induction false} InsertBound(y: YearKLine, x: YearKLine, t: seq<YearKLine>, descending: bool)
    requires PrecedesAll(y, t, descending) && Precedes(y, x, descending)
    ensures PrecedesAll(y, Insert(x, t, descending), descending)
  {
    if t != [] && Key(x, descending) > Key(t[0], descending) {
      assert PrecedesAll(y, t[1..], descending) by {
        forall k | 0 <= k < |t[1..]| ensures Precedes(y, t[1..][k], descending) {
          assert t[1..][k] == t[k + 1];
        }
      }
      InsertBound(y, x, t[1..], descending);
      var r := Insert(x, t, descending);
      var rest := Insert(x, t[1..], descending);
      forall k | 0 <= k < |r| ensures Precedes(y, r[k], descending) {
        if k > 0 {
          assert r[k] == rest[k - 1];
        }
      }
    }
  }

  /** Stable insertion into an ordered list of later-born records keeps it ordered. */
  lemma {:induction false} InsertOrdered(x: YearKLine, t: seq<YearKLine>, descending: bool)
    requires Ordered(t, descending) && forall k :: 0 <= k < |t| ==> x.age < t[k].age
    ensures Ordered(Insert(x, t, descending), descending)
  {
    if t == [] || Key(x, descending) <= Key(t[0], descending) {
      forall k | 0 <= k < |t| ensures Precedes(x, t[k], descending) {
        if k > 0 {
          assert Precedes(t[0], t[k], descending);
        }
      }
      ConsOrdered(x, t, descending);
    } else {
      var t' := t[1..];
      assert Ordered(t', descending) by {
        forall i, j | 0 <= i < j < |t'| ensures Precedes(t'[i], t'[j], descending) {
          assert t'[i] == t[i + 1] && t'[j] == t[j + 1];
        }
      }
      assert PrecedesAll(t[0], t', descending) by {
        forall k | 0 <= k < |t'| ensures Precedes(t[0], t'[k], descending) {
          assert t'[k] == t[k + 1];
        }
      }
      forall k | 0 <= k < |t'| ensures x.age < t'[k].age {
        assert t'[k] == t[k + 1];
      }
      InsertOrdered(x, t', descending);
      InsertBound(t[0], x, t', descending);
      ConsOrdered(t[0], Insert(x, t', descending), descending);
    }
  }

  /** For records with increasing ages (as the year list has), the stable sort is a
      permutation ordered by key with ties in input order. */
  lemma {:induction false} SortOrdered(s: seq<YearKLine>, descending: bool)
    requires AgesIncreasing(s)
    ensures Ordered(SortByScore(s, descending), descending)
    ensures multiset(SortByScore(s, descending)) == multiset(s)
  {
    if s != [] {
      var s' := s[1..];
      assert AgesIncreasing(s') by {
        forall i, j | 0 <= i < j < |s'| ensures s'[i].age < s'[j].age {
          assert s'[i] == s[i + 1] && s'[j] == s[j + 1];
        }
      }
      SortOrdered(s', descending);
      var t := SortByScore(s', descending);
      forall k | 0 <= k < |t| ensures s[0].age < t[k].age {
        assert t[k] in multiset(s');
        var m :| 0 <= m < |s'| && s'[m] == t[k];
        assert s[m + 1] == t[k];
      }
      InsertOrdered(s[0], t, descending);
    }
  }

  datatype Highlight = Highlight(age: int, year: int, score: real, ganZhi: string)

  function HighlightOf(y: YearKLine): Highlight {
    Highlight(y.age, y.year, y.score, y.ganZhi)
  }

  /** `.slice(0, 6).map(...)`. */
  function TopSix(r: seq<YearKLine>): seq<Highlight> {
    var n := if |r| < 6 then |r| else 6;
    seq(n, i requires 0 <= i < n => HighlightOf(r[i]))
  }

  /** The first six records of the stable sort are records of the list, in sort order, and
      none of them sorts after a record left out. */
  lemma SortedHead(ys: seq<YearKLine>, descending: bool)
    requires AgesIncreasing(ys) && |ys| >= 6
    ensures var r := SortByScore(ys, descending);
      && |r| == |ys| && |TopSix(r)| == 6
      && (forall i :: 0 <= i < 6 ==> r[i] in ys && TopSix(r)[i] == HighlightOf(r[i]))
      && (forall i, j :: 0 <= i < j < |r| ==> Precedes(r[i], r[j], descending))
      && (forall i, j :: 0 <= i < 6 <= j < |r| ==> Key(r[i], descending) <= Key(r[j], descending))
  {
    SortOrdered(ys, descending);
    var r := SortByScore(ys, descending);
    assert |r| == |ys| by { assert |multiset(r)| == |multiset(ys)|; }
    forall i | 0 <= i < 6 ensures r[i] in ys {
      assert r[i] in multiset(r);
    }
  }

  /** `peaks`: six years of the list, none scoring below a year left out, in descending score
      with ties by age. */
  lemma Peaks(ys: seq<YearKLine>)
    requires AgesIncreasing(ys) && |ys| >= 6
    ensures var r := SortByScore(ys, true);
      && |TopSix(r)| == 6
      && (forall i :: 0 <= i < 6 ==> r[i] in ys && TopSix(r)[i] == HighlightOf(r[i]))
      && (forall i, j :: 0 <= i < 6 <= j < |r| ==> r[i].score >= r[j].score)
      && (forall i, j :: 0 <= i < j < 6 ==>
            r[i].score > r[j].score || (r[i].score == r[j].score && r[i].age < r[j].age))
  {
    SortedHead(ys, true);
  }

  /** `troughs`: six years of the list, none scoring above a year left out, in ascending score
      with ties by age. */
  lemma Troughs(ys: seq<YearKLine>)
    requires AgesIncreasing(ys) && |ys| >= 6
    ensures var r := SortByScore(ys, false);
      && |TopSix(r)| == 6
      && (forall i :: 0 <= i < 6 ==> r[i] in ys && TopSix(r)[i] == HighlightOf(r[i]))
      && (forall i, j :: 0 <= i < 6 <= j < |r| ==> r[i].score <= r[j].score)
      && (forall i, j :: 0 <= i < j < 6 ==>
            r[i].score < r[j].score || (r[i].score == r[j].score && r[i].age < r[j].age))
  {
    SortedHead(ys, false);
  }

  // ---------------------------------------------------------------- insight

  datatype OverallTrend = FrontHigh | MiddleHigh | LateHigh | Wave

  /** 前高 / 中高 / 后高 name the third of life with the strictly largest mean; 波动 when no
      third is strictly largest. */
  function TrendOf(first: real, mid: real, last: real): (t: OverallTrend)
    ensures t == FrontHigh <==> first > mid && first > last
    ensures t == MiddleHigh <==> mid > first && mid > last
    ensures t == LateHigh <==> last > first && last > mid
  {
    if first > mid && first > last then FrontHigh
    else if mid > first && mid > last then MiddleHigh
    else if last > first && last > mid then LateHigh
    else Wave
  }

  datatype Insight = Insight(
    overallTrend: OverallTrend, peaks: seq<Highlight>, troughs: seq<Highlight>,
    tenGodFocus: seq<string>, totalScore: real, summary: string)

  datatype KLineResult = KLineResult(years: seq<YearKLine>, daYunStages: seq<Stage>, insight: Insight)

  function TotalScore(ys: seq<YearKLine>): real
    requires |ys| > 0
  {
    Clamp01(Round(Sum(ys) / |ys| as real) as real)
  }

  /** The total score is a whole number in [0, 100] and the rounded mean of all closes. */
  lemma TotalScoreFacts(ys: seq<YearKLine>)
    requires |ys| > 0 && ScoresInRange(ys)
    ensures var t := TotalScore(ys);
      0.0 <= t <= 100.0 && t == Round(Sum(ys) / |ys| as real) as real
  {
    SumBounds(ys);
    DivBounds(Sum(ys), |ys| as real);
  }

  function InsightOf(p: PaipanResult, ys: seq<YearKLine>): Insight
    requires |ys| == 100
  {
    var totalScore := TotalScore(ys);
    Insight(
      TrendOf(Sum(ys[..34]) / 34.0, Sum(ys[34..67]) / 33.0, Sum(ys[67..]) / 33.0),
      TopSix(SortByScore(ys, true)), TopSix(SortByScore(ys, false)),
      NonEmpty([p.fourPillars.year.ganTenGod, p.fourPillars.month.ganTenGod,
        p.fourPillars.day.ganTenGod, p.fourPillars.hour.ganTenGod]),
      totalScore,
      if totalScore >= 75.0 then "整体偏强，波段与趋势并存"
      else if totalScore >= 60.0 then "整体平稳，关键在于节奏" else "整体偏弱，需要以稳为先")
  }

  // ---------------------------------------------------------------- generateKLine

  /** `new Date(s.replace(" ", "T")).getFullYear()` on a `YYYY-MM-DD hh:mm:ss` timestamp. */
  function TimestampYear(s: string): Option<int> {
    if |s| >= 5 && AllDigits(s[..4]) && s[4] == '-' then Some(ParseNat(s[..4])) else None
  }

  /** The timestamps the chart builder prints read back as their year. */
  lemma TimestampYearOfFormat(t: DateTime)
    requires ValidDateTime(t) && 1000 <= t.date.year <= 9999
    ensures TimestampYear(FormatYmdHms(t)) == Some(t.date.year)
  {
    FormatYmdHmsFields(t);
  }

  /** The solar year of age 1: from the first decade when it has a (non-zero) start year,
      otherwise from the corrected birth timestamp. */
  function FirstSolarYear(p: PaipanResult): Option<int> {
    if |p.daYun| > 0 && p.daYun[0].startYear != 0 then
      Some(p.daYun[0].startYear - (p.daYun[0].startAge - 1))
    else TimestampYear(p.solar.correctedYmdHms)
  }

  function Pillars(p: PaipanResult): seq<PillarDetail> {
    [p.fourPillars.year, p.fourPillars.month, p.fourPillars.day, p.fourPillars.hour]
  }

  /** What the chart contributes to every year. */
  ghost function ChartOf(p: PaipanResult, firstSolarYear: int): Chart {
    Chart(BaseScore(p.overall.dayMasterStrength), p.overall.favorableElements,
      p.overall.unfavorableElements,
      NonEmpty([p.fourPillars.year.zhi, p.fourPillars.month.zhi, p.fourPillars.day.zhi, p.fourPillars.hour.zhi]),
      PatternOf(PillarElements(Pillars(p))), firstSolarYear, p.fourPillars.day.zhi, p.daYun)
  }

  /** The candles of ages 1 to `n`. */
  function YearsUpTo(c: Chart, n: nat): (ys: seq<YearKLine>)
    requires |c.daYun| > 0
    ensures |ys| == n
    decreases n, 1
  {
    if n == 0 then [] else YearsUpTo(c, n - 1) + [CandleAt(c, n)]
  }

  /** The candle of age `n`: the first opens at the base score, every later one at the
      previous close. */
  function CandleAt(c: Chart, n: nat): YearKLine
    requires |c.daYun| > 0 && n > 0
    decreases n, 0
  {
    YearCandle(c, n, if n == 1 then Clamp01(c.base) else YearsUpTo(c, n - 1)[n - 2].close)
  }

  /** What the year list promises: year `i` (from 0) is age `i + 1` of calendar year
      `first + i` with that year's gan-zhi, every candle is well formed, the first opens at the
      clamped base score and every later one at the previous close. */
  ghost predicate IsYearList(ys: seq<YearKLine>, first: int, base: real) {
    && (forall i :: 0 <= i < |ys| ==>
          && ys[i].age == i + 1 && ys[i].year == first + i
          && ys[i].ganZhi == YearGanZhi(first + i) && WellFormedCandle(ys[i]))
    && (|ys| > 0 ==> ys[0].open == Clamp01(base))
    && (forall i, j :: 0 <= i && j == i + 1 && j < |ys| ==> ys[j].open == ys[i].close)
  }

  /** `y` can come next after the year list `ys`: a well-formed candle of the next age and
      calendar year, opening at the last close. */
  ghost predicate FollowsList(ys: seq<YearKLine>, y: YearKLine, first: int, base: real) {
    && WellFormedCandle(y)
    && y.age == |ys| + 1 && y.year == first + |ys| && y.ganZhi == YearGanZhi(first + |ys|)
    && y.open == if |ys| == 0 then Clamp01(base) else ys[|ys| - 1].close
  }

  /** Appending the next well-formed candle, opening at the previous close, extends a year
      list. */
  lemma YearListSnoc(ys: seq<YearKLine>, y: YearKLine, first: int, base: real)
    requires IsYearList(ys, first, base) && FollowsList(ys, y, first, base)
    ensures IsYearList(ys + [y], first, base)
  {
    var zs := ys + [y];
    forall i | 0 <= i < |ys| ensures zs[i] == ys[i] { }
  }

  /** The candles of `YearsUpTo` form a year list. */
  lemma {:induction false} YearsUpToFacts(c: Chart, n: nat)
    requires |c.daYun| > 0
    ensures IsYearList(YearsUpTo(c, n), c.firstSolarYear, c.base)
  {
    if n > 0 {
      YearsUpToFacts(c, n - 1);
      YearsUpToStep(c, n);
    }
  }

  lemma YearsUpToStep(c: Chart, n: nat)
    requires |c.daYun| > 0 && n > 0 && IsYearList(YearsUpTo(c, n - 1), c.firstSolarYear, c.base)
    ensures IsYearList(YearsUpTo(c, n), c.firstSolarYear, c.base)
  {
    LastCandleFollows(c, n);
    YearsUpToSplit(c, n);
    YearListSnoc(YearsUpTo(c, n - 1), YearsUpTo(c, n)[n - 1], c.firstSolarYear, c.base);
  }

  /** The candles up to `n` are those up to `n - 1` and one more. */
  lemma YearsUpToSplit(c: Chart, n: nat)
    requires |c.daYun| > 0 && n > 0
    ensures YearsUpTo(c, n) == YearsUpTo(c, n - 1) + [YearsUpTo(c, n)[n - 1]]
  {
  }

  /** The last candle up to age `n` can follow the candles before it. */
  ghost predicate LastFollows(c: Chart, n: nat)
    requires |c.daYun| > 0 && n > 0
  {
    FollowsList(YearsUpTo(c, n - 1), YearsUpTo(c, n)[n - 1], c.firstSolarYear, c.base)
  }

  lemma LastCandleFollows(c: Chart, n: nat)
    requires |c.daYun| > 0 && n > 0 && IsYearList(YearsUpTo(c, n - 1), c.firstSolarYear, c.base)
    ensures LastFollows(c, n)
  {
    var prev := YearsUpTo(c, n - 1);
    NextOpenInRange(prev, c.firstSolarYear, c.base);
    LastCandleShape(c, n, if n == 1 then Clamp01(c.base) else prev[n - 2].close);
  }

  /** `open` is the open of age `n`: the base score for the first age, the previous close for
      every later one. */
  ghost predicate OpensAt(c: Chart, n: nat, open: real)
    requires |c.daYun| > 0 && n > 0
  {
    open == if n == 1 then Clamp01(c.base) else YearsUpTo(c, n - 1)[n - 2].close
  }

  /** The candle of age `n`, opening inside [0, 100] at the last close, can follow the candles
      before it. */
  lemma LastCandleShape(c: Chart, n: nat, open: real)
    requires |c.daYun| > 0 && n > 0 && 0.0 <= open <= 100.0 && OpensAt(c, n, open)
    ensures LastFollows(c, n)
  {
    YearsUpToLast(c, n);
    CandleFollows(c, n, YearsUpTo(c, n - 1), open);
  }

  /** The last candle up to age `n` is the candle of age `n`, opening at the close before. */
  lemma YearsUpToLast(c: Chart, n: nat)
    requires |c.daYun| > 0 && n > 0
    ensures YearsUpTo(c, n)[n - 1] ==
      YearCandle(c, n, if n == 1 then Clamp01(c.base) else YearsUpTo(c, n - 1)[n - 2].close)
  {
    YearsUpToSnoc(c, n);
  }

  /** The candle of age `n`, opening inside [0, 100] at the last close of `prev`, can follow
      `prev`. */
  lemma CandleFollows(c: Chart, n: nat, prev: seq<YearKLine>, open: real)
    requires |c.daYun| > 0 && n > 0 && |prev| == n - 1 && 0.0 <= open <= 100.0
    requires open == if n == 1 then Clamp01(c.base) else prev[n - 2].close
    ensures FollowsList(prev, YearCandle(c, n, open), c.firstSolarYear, c.base)
  {
    CandleShape(c, n, open);
  }

  /** The next candle of a year list opens inside [0, 100]. */
  lemma NextOpenInRange(ys: seq<YearKLine>, first: int, base: real)
    requires IsYearList(ys, first, base)
    ensures var open := if |ys| == 0 then Clamp01(base) else ys[|ys| - 1].close;
      0.0 <= open <= 100.0
  {
  }

  /** Hence the closes lie in [0, 100] and the ages increase. */
  lemma YearsUpToOrdered(c: Chart, n: nat)
    requires |c.daYun| > 0
    ensures ScoresInRange(YearsUpTo(c, n)) && AgesIncreasing(YearsUpTo(c, n))
  {
    YearsUpToFacts(c, n);
    YearListOrdered(YearsUpTo(c, n), c.firstSolarYear, c.base);
  }

  lemma YearListOrdered(ys: seq<YearKLine>, first: int, base: real)
    requires IsYearList(ys, first, base)
    ensures ScoresInRange(ys) && AgesIncreasing(ys)
  {
  }

  /** `YearsUpTo` one age further appends the candle opening at the last close. */
  lemma {:induction false} YearsUpToSnoc(c: Chart, n: nat)
    requires |c.daYun| > 0 && n > 0
    ensures YearsUpTo(c, n) == YearsUpTo(c, n - 1) +
      [YearCandle(c, n, if n == 1 then Clamp01(c.base) else YearsUpTo(c, n - 1)[n - 2].close)]
  {
    assert YearsUpTo(c, n) == YearsUpTo(c, n - 1) + [CandleAt(c, n)];
  }

  /** `ys` holds the candles of ages 1 to `n`. */
  ghost predicate IsYearsUpTo(c: Chart, ys: seq<YearKLine>, n: nat)
    requires |c.daYun| > 0
  {
    ys == YearsUpTo(c, n)
  }

  /** One turn of the loop of `generateKLine`: the candle of `age`, opening at the previous
      close, joins the list, and its close is the next open. */
  method PushYear(c: Chart, years: seq<YearKLine>, age: int, open: real)
    returns (years': seq<YearKLine>, close: real)
    requires |c.daYun| > 0 && 1 <= age && |years| == age - 1 && IsYearsUpTo(c, years, age - 1)
    requires open == if age == 1 then Clamp01(c.base) else years[age - 2].close
    ensures |years'| == age && IsYearsUpTo(c, years', age) && close == years'[age - 1].close
  {
    var y := YearStep(c, age, open);
    YearsUpToSnoc(c, age);
    years' := years + [y];
    close := y.close;
  }

  /** The loop of `generateKLine` over ages 1 to 100. */
  method YearSeries(c: Chart) returns (years: seq<YearKLine>)
    requires |c.daYun| > 0
    ensures years == YearsUpTo(c, 100)
  {
    years := YearLoop(c, 100);
  }

  /** The loop of `generateKLine` over ages 1 to `last`. */
  method YearLoop(c: Chart, last: nat) returns (years: seq<YearKLine>)
    requires |c.daYun| > 0
    ensures years == YearsUpTo(c, last)
  {
    years := [];
    var prevClose := Clamp01(c.base);
    var age := 1;
    while age <= last
      invariant 1 <= age <= last + 1 && |years| == age - 1 && IsYearsUpTo(c, years, age - 1)
      invariant prevClose == if age == 1 then Clamp01(c.base) else years[age - 2].close
    {
      years, prevClose := PushYear(c, years, age, prevClose);
      age := age + 1;
    }
  }

  /** `generateKLine`. Without decades the source fails on `dy.ganZhi`; without a readable
      first year it computes with `NaN`; both are failures here. */
  method GenerateKLine(p: PaipanResult) returns (r: Result<KLineResult, string>)
    ensures r.Success? <==> |p.daYun| > 0 && FirstSolarYear(p).Some?
    ensures r.Success? ==>
      var c := ChartOf(p, FirstSolarYear(p).value);
      var ys := r.value.years;
      && ys == YearsUpTo(c, 100)
      && r.value.daYunStages == Stages(p.daYun, ys)
      && r.value.insight == InsightOf(p, ys)
  {
    if |p.daYun| == 0 {
      return Failure("no decade covers the age");
    }
    var first := FirstSolarYear(p);
    if first.None? {
      return Failure("invalid first solar year");
    }
    var base := BaseScore(p.overall.dayMasterStrength);
    var natalZhis := NonEmpty([p.fourPillars.year.zhi, p.fourPillars.month.zhi,
      p.fourPillars.day.zhi, p.fourPillars.hour.zhi]);
    var patternScore := EstimatePatternAdjust(Pillars(p));
    var c := Chart(base, p.overall.favorableElements, p.overall.unfavorableElements, natalZhis,
      patternScore, first.value, p.fourPillars.day.zhi, p.daYun);
    assert c == ChartOf(p, first.value);
    var years := YearSeries(c);
    r := Success(KLineResult(years, Stages(p.daYun, years), InsightOf(p, years)));
  }
}
