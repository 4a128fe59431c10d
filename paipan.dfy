/** Chart assembly (packages/core/src/paipan.ts): what the chart builder does with the answers
    of the lunar calendar library. The library itself is not modelled: its eight-character
    object is a record of optional answers, `None` standing for a method the object lacks. */
module Paipan {
  import opened Strings
  import opened Calendar
  import opened GanZhi
  import opened Birth

  /** A value the library hands back where the source expects a list: an array (each element
      already passed through `String`), a string, or anything else. */
  datatype JsValue = JsArray(items: seq<string>) | JsString(text: string) | JsOther

  /** `safeArray`. */
  function SafeArray(v: JsValue): (r: seq<string>)
    ensures v.JsArray? ==> r == v.items
    ensures v.JsString? && !IsBlank(v.text) ==>
      IsSplitList(r) && Join(r, " ") == Collapse(v.text) && Concat(r) == NonWhitespace(v.text)
    ensures v.JsOther? || (v.JsString? && IsBlank(v.text)) ==> r == []
  {
    match v
    case JsArray(items) => items
    case JsString(s) => if !IsBlank(s) then SplitWhitespace(s) else []
    case JsOther => []
  }

  datatype PillarKey = YearPillar | MonthPillar | DayPillar | HourPillar

  /** The answers of the eight-character object about one pillar. */
  datatype PillarOracle = PillarOracle(
    gan: Option<string>, zhi: Option<string>,
    ganTenGod: Option<string>, zhiTenGods: Option<JsValue>, hiddenStems: Option<JsValue>,
    starLuck: Option<string>, selfSeat: Option<string>, kongWang: Option<string>,
    naYin: Option<string>)

  datatype PillarDetail = PillarDetail(
    pillar: PillarKey, gan: string, zhi: string, ganTenGod: string, zhiTenGod: string,
    hiddenStems: seq<string>, hiddenStemTenGods: seq<string>, starLuck: string,
    selfSeat: string, kongWang: string, naYin: string, shenSha: seq<string>)

  /** The 神煞 tags of a branch: its clash partner and its 煞 direction. */
  function ShenSha(zhi: string): (r: seq<string>)
    ensures zhi in ZhiChong ==> r == ["冲" + ZhiChong[zhi], "煞" + ZhiSha[zhi]]
    ensures zhi !in ZhiChong ==> r == []
  {
    BranchTablesKeys();
    if zhi == "" then []
    else
      (if zhi in ZhiChong then ["冲" + ZhiChong[zhi]] else [])
      + (if zhi in ZhiSha then ["煞" + ZhiSha[zhi]] else [])
  }

  /** The clash tag names the branch the K-line engine counts as clashing with this one, and
      that branch's own tag points back. */
  lemma ShenShaClashTag(zhi: string)
    requires ShenSha(zhi) != []
    ensures ShenSha(zhi)[0][..1] == "冲"
    ensures var c := ShenSha(zhi)[0][1..];
      zhi + c in ClashPairs() && c in ZhiChong && ShenSha(c)[0] == "冲" + zhi
  {
    ZhiChongInClashPairs(zhi);
    ZhiChongInvolution(zhi);
    assert ShenSha(zhi)[0] == "冲" + ZhiChong[zhi];
    assert ("冲" + ZhiChong[zhi])[1..] == ZhiChong[zhi];
  }

  /** The pure part of `buildPillarDetail`: missing answers become empty strings and lists. */
  function BuildPillarDetail(o: PillarOracle, key: PillarKey): (r: PillarDetail)
    ensures r.pillar == key && r.gan == o.gan.GetOr("") && r.zhi == o.zhi.GetOr("")
    ensures r.ganTenGod == o.ganTenGod.GetOr("")
    ensures r.hiddenStems == (if o.hiddenStems.Some? then SafeArray(o.hiddenStems.value) else [])
    ensures r.starLuck == o.starLuck.GetOr("") && r.kongWang == o.kongWang.GetOr("")
    ensures r.naYin == o.naYin.GetOr("")
    ensures r.zhiTenGod == if |r.hiddenStemTenGods| > 0 then r.hiddenStemTenGods[0] else r.ganTenGod
    ensures r.hiddenStemTenGods == (if o.zhiTenGods.Some? then SafeArray(o.zhiTenGods.value) else [])
    ensures r.selfSeat == if o.selfSeat.GetOr("") != "" then o.selfSeat.value else r.zhiTenGod
    ensures r.shenSha == ShenSha(r.zhi)
  {
    var gan := o.gan.GetOr("");
    var zhi := o.zhi.GetOr("");
    var ganTenGod := o.ganTenGod.GetOr("");
    var zhiTenGods := if o.zhiTenGods.Some? then SafeArray(o.zhiTenGods.value) else [];
    var zhiTenGod := if |zhiTenGods| > 0 then zhiTenGods[0] else ganTenGod;
    var hiddenStems := if o.hiddenStems.Some? then SafeArray(o.hiddenStems.value) else [];
    var selfSeat := o.selfSeat.GetOr("");
    PillarDetail(
      key, gan, zhi, ganTenGod, zhiTenGod, hiddenStems, zhiTenGods,
      o.starLuck.GetOr(""), if selfSeat != "" then selfSeat else zhiTenGod,
      o.kongWang.GetOr(""), o.naYin.GetOr(""), ShenSha(zhi))
  }

  datatype Strength = Strong | Medium | Weak

  function StrengthText(s: Strength): string {
    match s
    case Strong => "强"
    case Medium => "中"
    case Weak => "弱"
  }

  /** The month branch's seasonal element is the day master's own element. */
  predicate SeasonMatches(dayGan: string, monthZhi: string) {
    monthZhi in ZhiToElement && ZhiToElement[monthZhi] == StemElementOr(dayGan)
  }

  /** A stem counts when it is known and has element `e`; unknown stems never count. */
  predicate HiddenMatches(g: string, e: Element) {
    g in GanToElement && GanToElement[g] == e
  }

  predicate SomeHiddenMatches(dayGan: string, hiddenStems: seq<string>) {
    exists k :: 0 <= k < |hiddenStems| && HiddenMatches(hiddenStems[k], StemElementOr(dayGan))
  }

  /** The elements that support `e`: the one generating it and `e` itself. */
  function Support(e: Element): (r: seq<Element>)
    ensures |r| == 2 && Generates(r[0]) == e && r[1] == e
  {
    [GeneratedBy(e), e]
  }

  predicate SeasonSupports(dayGan: string, monthZhi: string) {
    monthZhi in ZhiToElement && ZhiToElement[monthZhi] in Support(StemElementOr(dayGan))
  }

  /** The additive score of `evaluateDayMasterStrength`. */
  function StrengthScore(dayGan: string, monthZhi: string, hiddenStems: seq<string>): int {
    (if SeasonMatches(dayGan, monthZhi) then 2 else 0)
    + (if SomeHiddenMatches(dayGan, hiddenStems) then 2 else 0)
    + (if SeasonSupports(dayGan, monthZhi) then 1 else 0)
  }

  function ClassifyScore(score: int): Strength {
    if score >= 4 then Strong else if score >= 2 then Medium else Weak
  }

  /** A season matching the day master also supports it, so the score never takes the values
      4 or 6. */
  lemma StrengthScoreValues(dayGan: string, monthZhi: string, hiddenStems: seq<string>)
    ensures StrengthScore(dayGan, monthZhi, hiddenStems) in {0, 1, 2, 3, 5}
  {
    if SeasonMatches(dayGan, monthZhi) {
      assert ZhiToElement[monthZhi] == Support(StemElementOr(dayGan))[1];
    }
  }

  /** `evaluateDayMasterStrength`: 强 exactly when the season matches the day master and some
      hidden stem shares its element, 中 when one of the two holds, 弱 when neither does. */
  method EvaluateDayMasterStrength(dayGan: string, monthZhi: string, hiddenStems: seq<string>)
    returns (strength: Strength)
    ensures strength == ClassifyScore(StrengthScore(dayGan, monthZhi, hiddenStems))
    ensures strength == Strong <==>
      SeasonMatches(dayGan, monthZhi) && SomeHiddenMatches(dayGan, hiddenStems)
    ensures strength == Medium <==>
      SeasonMatches(dayGan, monthZhi) != SomeHiddenMatches(dayGan, hiddenStems)
    ensures strength == Weak <==>
      !SeasonMatches(dayGan, monthZhi) && !SomeHiddenMatches(dayGan, hiddenStems)
  {
    var dmEl := StemElementOr(dayGan);
    var score := 0;
    if monthZhi in ZhiToElement && ZhiToElement[monthZhi] == dmEl {
      score := score + 2;
    }
    var found := false;
    var i := 0;
    while i < |hiddenStems| && !found
      invariant 0 <= i <= |hiddenStems|
      invariant found <==> exists k :: 0 <= k < i && HiddenMatches(hiddenStems[k], dmEl)
    {
      if hiddenStems[i] in GanToElement && GanToElement[hiddenStems[i]] == dmEl {
        found := true;
      }
      i := i + 1;
    }
    if found {
      score := score + 2;
    }
    if monthZhi in ZhiToElement && ZhiToElement[monthZhi] in Support(dmEl) {
      score := score + 1;
    }
    StrengthScoreValues(dayGan, monthZhi, hiddenStems);
    if score >= 4 {
      strength := Strong;
    } else if score >= 2 {
      strength := Medium;
    } else {
      strength := Weak;
    }
  }

  datatype Favor = Favor(favorable: seq<Element>, unfavorable: seq<Element>)

  predicate NoDuplicates(s: seq<Element>) {
    forall i, j :: 0 <= i < j < |s| ==> s[i] != s[j]
  }

  predicate Disjoint(a: seq<Element>, b: seq<Element>) {
    forall i, j :: 0 <= i < |a| && 0 <= j < |b| ==> a[i] != b[j]
  }

  /** `pickFavorableElements`: a strong day master favours what it generates and what it
      restrains; a weak one favours itself and what generates it; a medium one favours itself
      and its output and disfavours what restrains it. */
  function PickFavorableElements(strength: Strength, d: Element): (r: Favor)
    ensures NoDuplicates(r.favorable) && NoDuplicates(r.unfavorable)
    ensures Disjoint(r.favorable, r.unfavorable)
    ensures |r.favorable| == 2
    ensures |r.unfavorable| == if strength == Medium then 1 else 2
    ensures strength == Weak <==> d in r.favorable && GeneratedBy(d) in r.favorable
    ensures strength == Strong <==> d in r.unfavorable
  {
    match strength
    case Strong => Favor([Generates(d), Restrains(d)], [d, GeneratedBy(d)])
    case Weak => Favor([d, GeneratedBy(d)], [Generates(d), RestrainedBy(d)])
    case Medium => Favor([d, Generates(d)], [RestrainedBy(d)])
  }

  datatype LuckDirection = Forward | Backward

  function DirectionText(d: LuckDirection): string {
    if d == Forward then "顺" else "逆"
  }

  /** One decade as the library reports it; missing answers fall back in `getDaYunList`. */
  datatype OracleDaYun = OracleDaYun(
    startYear: Option<int>, endYear: Option<int>, startAge: Option<int>, endAge: Option<int>,
    ganZhi: Option<string>)

  /** The library's luck object for one gender. */
  datatype OracleYun = OracleYun(
    isForward: Option<bool>, startAge: Option<int>, daYun: Option<seq<OracleDaYun>>)

  /** The eight-character object: four pillars, the luck object for each gender (`getYun(1)`
      and `getYun(0)`) and the month's gan-zhi. */
  datatype EightCharOracle = EightCharOracle(
    year: PillarOracle, month: PillarOracle, day: PillarOracle, hour: PillarOracle,
    yunMale: Option<OracleYun>, yunFemale: Option<OracleYun>, monthGanZhi: Option<string>)

  function YunOf(ec: EightCharOracle, g: Gender): Option<OracleYun> {
    if g == Male then ec.yunMale else ec.yunFemale
  }

  const YangStems: set<string> := {"甲", "丙", "戊", "庚", "壬"}

  /** `getLuckDirection`: the library's answer when it has one; otherwise forward exactly for
      a yang year stem and a man or a yin year stem and a woman. */
  function GetLuckDirection(ec: EightCharOracle, g: Gender): (r: LuckDirection)
    ensures YunOf(ec, g).Some? && YunOf(ec, g).value.isForward.Some? ==>
      (r == Forward <==> YunOf(ec, g).value.isForward.value)
    ensures !(YunOf(ec, g).Some? && YunOf(ec, g).value.isForward.Some?) ==>
      (r == Forward <==>
        (ec.year.gan.GetOr("") in YangStems && g == Male)
        || (ec.year.gan.GetOr("") !in YangStems && g == Female))
  {
    if YunOf(ec, g).Some? && YunOf(ec, g).value.isForward.Some? then
      (if YunOf(ec, g).value.isForward.value then Forward else Backward)
    else
      var yg := ec.year.gan.GetOr("");
      var isYang := yg in YangStems;
      if (isYang && g == Male) || (!isYang && g == Female) then Forward else Backward
  }

  /** `getStartLuckAge`: the library's start age, or 1. */
  function GetStartLuckAge(ec: EightCharOracle, g: Gender): (r: int)
    ensures YunOf(ec, g).None? || YunOf(ec, g).value.startAge.None? ==> r == 1
    ensures YunOf(ec, g).Some? && YunOf(ec, g).value.startAge.Some? ==>
      r == YunOf(ec, g).value.startAge.value
  {
    if YunOf(ec, g).Some? && YunOf(ec, g).value.startAge.Some? then
      YunOf(ec, g).value.startAge.value
    else 1
  }

  datatype DaYun = DaYun(startYear: int, endYear: int, startAge: int, endAge: int, ganZhi: string)

  /** One library decade with the source's defaults for missing answers. */
  function OracleDecade(dy: OracleDaYun, solarYear: int, startAge: int): (r: DaYun)
    ensures r.startAge == dy.startAge.GetOr(startAge)
    ensures dy.endAge.None? ==> r.endAge == r.startAge + 9
    ensures dy.startYear.None? ==> r.startYear == solarYear + r.startAge - 1
    ensures dy.endYear.None? ==> r.endYear == r.startYear + 9
    ensures dy.ganZhi.None? ==> r.ganZhi == ""
    ensures dy.endAge.Some? ==> r.endAge == dy.endAge.value
    ensures dy.startYear.Some? ==> r.startYear == dy.startYear.value
    ensures dy.endYear.Some? ==> r.endYear == dy.endYear.value
    ensures dy.ganZhi.Some? ==> r.ganZhi == dy.ganZhi.value
  {
    var sAge := dy.startAge.GetOr(startAge);
    var eAge := dy.endAge.GetOr(sAge + 9);
    var sYear := dy.startYear.GetOr(solarYear + sAge - 1);
    var eYear := dy.endYear.GetOr(sYear + 9);
    DaYun(sYear, eYear, sAge, eAge, dy.ganZhi.GetOr(""))
  }

  lemma StemsDistinct()
    ensures |Stems()| == 10 && forall i, j :: 0 <= i < j < 10 ==> Stems()[i] != Stems()[j]
  {
  }

  lemma BranchesDistinct()
    ensures |Branches()| == 12 && forall i, j :: 0 <= i < j < 12 ==> Branches()[i] != Branches()[j]
  {
  }

  /** The `next` step of the fallback generator. Stem and branch are looked up with `indexOf`,
      so an unknown one counts as position -1. */
  function NextGanZhi(gz: string, step: int): (r: string)
    requires step == 1 || step == -1
    ensures |r| == 2
  {
    var g := if |gz| >= 1 then gz[..1] else "";
    var z := if |gz| >= 1 then gz[1..] else "";
    var gi := IndexOf(Stems(), g);
    var zi := IndexOf(Branches(), z);
    [Stems()[(gi + step + 10) % 10], Branches()[(zi + step + 12) % 12]]
  }

  /** The gan-zhi with stem position `a` and branch position `b`, both taken cyclically. */
  function GanZhiAt(a: int, b: int): string {
    [Stems()[a % 10], Branches()[b % 12]]
  }

  lemma IndexOfStem(i: int)
    requires 0 <= i < 10
    ensures IndexOf(Stems(), [Stems()[i]]) == i
  {
    StemsDistinct();
    IndexOfFacts(Stems(), [Stems()[i]]);
    assert StartsWithAt(Stems(), [Stems()[i]], i);
    var r := IndexOf(Stems(), [Stems()[i]]);
    assert Stems()[r..r + 1] == [Stems()[i]];
    assert Stems()[r] == Stems()[i];
  }

  lemma IndexOfBranch(i: int)
    requires 0 <= i < 12
    ensures IndexOf(Branches(), [Branches()[i]]) == i
  {
    BranchesDistinct();
    IndexOfFacts(Branches(), [Branches()[i]]);
    assert StartsWithAt(Branches(), [Branches()[i]], i);
    var r := IndexOf(Branches(), [Branches()[i]]);
    assert Branches()[r..r + 1] == [Branches()[i]];
    assert Branches()[r] == Branches()[i];
  }

  /** Stepping a reduced position by one, with the source's `+ 10` and `+ 12` guards against a
      negative operand, is stepping the position itself. */
  lemma ModStep(a: int, step: int)
    requires step == 1 || step == -1
    ensures (a % 10 + step + 10) % 10 == (a + step) % 10
    ensures (a % 12 + step + 12) % 12 == (a + step) % 12
  {
    ShiftMod10(a + step, 1 - a / 10);
    ShiftMod12(a + step, 1 - a / 12);
  }

  lemma ShiftMod10(x: int, k: int)
    ensures (x + 10 * k) % 10 == x % 10
  {
    assert x == 10 * (x / 10) + x % 10;
    assert x + 10 * k == 10 * (x / 10 + k) + x % 10;
  }

  lemma ShiftMod12(x: int, k: int)
    ensures (x + 12 * k) % 12 == x % 12
  {
    assert x == 12 * (x / 12) + x % 12;
    assert x + 12 * k == 12 * (x / 12 + k) + x % 12;
  }

  /** On a well-formed gan-zhi, `next` moves the stem and the branch one place in the cycle. */
  lemma NextGanZhiAt(a: int, b: int, step: int)
    requires step == 1 || step == -1
    ensures NextGanZhi(GanZhiAt(a, b), step) == GanZhiAt(a + step, b + step)
  {
    var gz := GanZhiAt(a, b);
    assert gz[..1] == [Stems()[a % 10]] && gz[1..] == [Branches()[b % 12]];
    IndexOfStem(a % 10);
    IndexOfBranch(b % 12);
    ModStep(a, step);
    ModStep(b, step);
  }

  /** The position of a stem and of a branch in their cycles, when `gz` is a well-formed
      gan-zhi. */
  predicate IsGanZhi(gz: string, a: int, b: int) {
    0 <= a < 10 && 0 <= b < 12 && gz == GanZhiAt(a, b)
  }

  function StepOf(d: LuckDirection): int {
    if d == Forward then 1 else -1
  }

  /** The gan-zhi of each decade of a list. */
  function GanZhis(list: seq<DaYun>): (r: seq<string>)
    ensures |r| == |list| && forall i :: 0 <= i < |list| ==> r[i] == list[i].ganZhi
  {
    if list == [] then [] else GanZhis(list[..|list| - 1]) + [list[|list| - 1].ganZhi]
  }

  /** What the fallback generator of `getDaYunList` produces: eleven decades of ten years from
      the start age, the first carrying the month gan-zhi (甲子 when it is missing) and each next
      one stepped with `next` in the luck direction. */
  ghost predicate IsFallbackList(list: seq<DaYun>, solarYear: int, startAge: int,
    direction: LuckDirection, monthGz: string)
  {
    && |list| == 11
    && (forall i :: 0 <= i < 11 ==>
      && list[i].startAge == startAge + i * 10 && list[i].endAge == list[i].startAge + 9
      && list[i].startYear == solarYear + list[i].startAge - 1
      && list[i].endYear == list[i].startYear + 9)
    && list[0].ganZhi == (if monthGz != "" then monthGz else "甲子")
    && SteppedFrom(GanZhis(list), StepOf(direction))
  }

  /** The first decades of the fallback list, built from the first gan-zhi `base`: the ages and
      years of each, and each gan-zhi stepped from the one before. */
  ghost predicate FallbackPrefix(list: seq<DaYun>, solarYear: int, startAge: int, base: string, step: int)
    requires step == 1 || step == -1
  {
    && (forall k :: 0 <= k < |list| ==>
        && list[k].startAge == startAge + k * 10 && list[k].endAge == list[k].startAge + 9
        && list[k].startYear == solarYear + list[k].startAge - 1
        && list[k].endYear == list[k].startYear + 9
        && list[k].ganZhi != "")
    && (|list| > 0 ==> list[0].ganZhi == base)
    && (forall k :: 1 <= k < |list| ==> list[k].ganZhi == NextGanZhi(list[k - 1].ganZhi, step))
  }

  /** The decade the fallback generator appends after `list`. */
  function NextFallback(list: seq<DaYun>, solarYear: int, startAge: int, base: string, step: int): DaYun
    requires step == 1 || step == -1
  {
    var sAge := startAge + |list| * 10;
    var sYear := solarYear + sAge - 1;
    var gz := if list == [] then base
      else NextGanZhi(if list[|list| - 1].ganZhi != "" then list[|list| - 1].ganZhi else base, step);
    DaYun(sYear, sYear + 9, sAge, sAge + 9, gz)
  }

  lemma FallbackPush(list: seq<DaYun>, solarYear: int, startAge: int, base: string, step: int)
    requires (step == 1 || step == -1) && base != ""
    requires FallbackPrefix(list, solarYear, startAge, base, step)
    ensures FallbackPrefix(list + [NextFallback(list, solarYear, startAge, base, step)],
      solarYear, startAge, base, step)
  {
    var d := NextFallback(list, solarYear, startAge, base, step);
    var l := list + [d];
    forall k | 0 <= k < |l|
      ensures l[k].startAge == startAge + k * 10 && l[k].endAge == l[k].startAge + 9
      ensures l[k].startYear == solarYear + l[k].startAge - 1 && l[k].endYear == l[k].startYear + 9
      ensures l[k].ganZhi != ""
    {
      if k < |list| {
        assert l[k] == list[k];
      } else {
        assert l[k] == d;
      }
    }
    forall k | 1 <= k < |l|
      ensures l[k].ganZhi == NextGanZhi(l[k - 1].ganZhi, step)
    {
      assert l[k - 1] == list[k - 1];
      if k < |list| {
        assert l[k] == list[k];
      } else {
        assert l[k] == d && list[k - 1].ganZhi != "";
      }
    }
  }

  lemma FallbackDone(list: seq<DaYun>, solarYear: int, startAge: int, direction: LuckDirection, monthGz: string)
    requires |list| == 11
    requires FallbackPrefix(list, solarYear, startAge, if monthGz != "" then monthGz else "甲子", StepOf(direction))
    ensures IsFallbackList(list, solarYear, startAge, direction, monthGz)
  {
  }

  /** The fallback decade list of `getDaYunList`. */
  method FallbackDaYun(solarYear: int, startAge: int, direction: LuckDirection, monthGz: string)
    returns (list: seq<DaYun>)
    ensures IsFallbackList(list, solarYear, startAge, direction, monthGz)
  {
    var base := if monthGz != "" then monthGz else "甲子";
    var step := StepOf(direction);
    list := [];
    var i := 0;
    while i < 11
      invariant 0 <= i <= 11 && |list| == i
      invariant FallbackPrefix(list, solarYear, startAge, base, step)
    {
      var d := FallbackStep(list, solarYear, startAge, base, step);
      FallbackPush(list, solarYear, startAge, base, step);
      list := list + [d];
      i := i + 1;
    }
    FallbackDone(list, solarYear, startAge, direction, monthGz);
  }

  /** The loop body of the fallback generator: the decade after `list`. */
  method FallbackStep(list: seq<DaYun>, solarYear: int, startAge: int, base: string, step: int)
    returns (d: DaYun)
    requires step == 1 || step == -1
    ensures d == NextFallback(list, solarYear, startAge, base, step)
  {
    var i := |list|;
    var sAge := startAge + i * 10;
    var sYear := solarYear + sAge - 1;
    var gz;
    if i == 0 {
      gz := base;
    } else {
      var prev := if list[i - 1].ganZhi != "" then list[i - 1].ganZhi else base;
      gz := NextGanZhi(prev, step);
    }
    d := DaYun(sYear, sYear + 9, sAge, sAge + 9, gz);
  }

  /** Position `a` moved `i` places forward (`s == 1`) or backward (`s == -1`). */
  function Walk(a: int, s: int, i: nat): int {
    if s == 1 then a + i else a - i
  }

  /** Decades generated from a first gan-zhi, each stepped from the one before. */
  ghost predicate SteppedFrom(gs: seq<string>, s: int)
    requires s == 1 || s == -1
  {
    forall k :: 1 <= k < |gs| ==> gs[k] == NextGanZhi(gs[k - 1], s)
  }

  /** Each decade of a stepped list sits one place further round both cycles than the one
      before it, whenever that one is a gan-zhi. */
  lemma SteppedWalks(gs: seq<string>, s: int)
    requires s == 1 || s == -1
    requires SteppedFrom(gs, s)
    ensures forall k, x, y :: 1 <= k < |gs| && gs[k - 1] == GanZhiAt(x, y) ==>
      gs[k] == GanZhiAt(x + s, y + s)
  {
    forall k, x, y | 1 <= k < |gs| && gs[k - 1] == GanZhiAt(x, y)
      ensures gs[k] == GanZhiAt(x + s, y + s)
    {
      NextGanZhiAt(x, y, s);
    }
  }

  /** Started from a well-formed gan-zhi, the generated decades walk the sixty-cycle: decade `i`
      has stem position `a ± i` mod 10 and branch position `b ± i` mod 12. */
  lemma {:induction false} FallbackCycle(gs: seq<string>, s: int, a: int, b: int, i: nat)
    requires s == 1 || s == -1
    requires forall k, x, y :: 1 <= k < |gs| && gs[k - 1] == GanZhiAt(x, y) ==>
      gs[k] == GanZhiAt(x + s, y + s)
    requires |gs| > 0 && gs[0] == GanZhiAt(a, b) && i < |gs|
    ensures gs[i] == GanZhiAt(Walk(a, s, i), Walk(b, s, i))
  {
    if i > 0 {
      var j := i - 1;
      FallbackCycle(gs, s, a, b, j);
      assert Walk(a, s, j) + s == Walk(a, s, i) && Walk(b, s, j) + s == Walk(b, s, i);
    }
  }

  /** A stepped list that starts at a well-formed gan-zhi walks both cycles in the luck
      direction, one place per decade. */
  lemma FallbackWalksCycle(gs: seq<string>, s: int, a: int, b: int)
    requires s == 1 || s == -1
    requires SteppedFrom(gs, s) && |gs| > 0 && gs[0] == GanZhiAt(a, b)
    ensures forall i :: 0 <= i < |gs| ==> gs[i] == GanZhiAt(Walk(a, s, i), Walk(b, s, i))
  {
    SteppedWalks(gs, s);
    forall i | 0 <= i < |gs| {
      FallbackCycle(gs, s, a, b, i);
    }
  }

  /** The default base 甲子 is the start of the cycle. */
  lemma JiaZiIsStart()
    ensures GanZhiAt(0, 0) == "甲子"
  {
  }

  /** Consecutive fallback decades meet without gap or overlap, and together they cover the
      ages from the start age to 109 years after it. */
  lemma FallbackContiguous(list: seq<DaYun>, solarYear: int, startAge: int,
    direction: LuckDirection, monthGz: string)
    requires IsFallbackList(list, solarYear, startAge, direction, monthGz)
    ensures forall i :: 0 <= i < 10 ==>
      list[i + 1].startAge == list[i].endAge + 1 && list[i + 1].startYear == list[i].endYear + 1
    ensures list[0].startAge == startAge && list[10].endAge == startAge + 109
  {
  }

  /** When the base is a well-formed gan-zhi, decade `i` of the fallback list is the base moved
      `i` places round the sixty-cycle in the luck direction. */
  lemma FallbackListWalks(list: seq<DaYun>, solarYear: int, startAge: int,
    direction: LuckDirection, monthGz: string, a: int, b: int)
    requires IsFallbackList(list, solarYear, startAge, direction, monthGz)
    requires list[0].ganZhi == GanZhiAt(a, b)
    ensures forall i :: 0 <= i < 11 ==>
      list[i].ganZhi == GanZhiAt(Walk(a, StepOf(direction), i), Walk(b, StepOf(direction), i))
  {
    FallbackWalksCycle(GanZhis(list), StepOf(direction), a, b);
  }

  /** With no base from the library the fallback list is 甲子, 乙丑, 丙寅, ... going forward. */
  lemma FallbackFromJiaZi(list: seq<DaYun>, solarYear: int, startAge: int)
    requires IsFallbackList(list, solarYear, startAge, Forward, "")
    ensures forall i :: 0 <= i < 11 ==> list[i].ganZhi == [Stems()[i % 10], Branches()[i % 12]]
  {
    JiaZiIsStart();
    FallbackListWalks(list, solarYear, startAge, Forward, "", 0, 0);
  }

  /** What `getDaYunList` returns: the library's decades with their defaults when it offers a
      list, and the fallback list otherwise. */
  ghost predicate IsDaYunList(list: seq<DaYun>, solarYear: int, ec: EightCharOracle, g: Gender) {
    var yun := YunOf(ec, g);
    if yun.Some? && yun.value.daYun.Some? then
      var src := yun.value.daYun.value;
      |list| == |src| && forall i :: 0 <= i < |src| ==>
        list[i] == OracleDecade(src[i], solarYear, GetStartLuckAge(ec, g))
    else
      IsFallbackList(list, solarYear, GetStartLuckAge(ec, g), GetLuckDirection(ec, g),
        ec.monthGanZhi.GetOr(""))
  }

  /** `getDaYunList`. */
  method GetDaYunList(solarYear: int, ec: EightCharOracle, g: Gender) returns (list: seq<DaYun>)
    ensures IsDaYunList(list, solarYear, ec, g)
  {
    var yun := YunOf(ec, g);
    if yun.Some? && yun.value.daYun.Some? {
      var src := yun.value.daYun.value;
      var startAge := GetStartLuckAge(ec, g);
      list := [];
      var i := 0;
      while i < |src|
        invariant 0 <= i <= |src| && |list| == i
        invariant forall k :: 0 <= k < i ==> list[k] == OracleDecade(src[k], solarYear, startAge)
      {
        list := list + [OracleDecade(src[i], solarYear, startAge)];
        i := i + 1;
      }
    } else {
      list := FallbackDaYun(solarYear, GetStartLuckAge(ec, g), GetLuckDirection(ec, g),
        ec.monthGanZhi.GetOr(""));
    }
  }

  /** What the calendar library answers for one birth: the eight-character object, the solar
      year of the converted date and the lunar date (`None` where it lacks a getter). */
  datatype ChartOracle = ChartOracle(
    eightChar: EightCharOracle, solarYear: int,
    lunarYear: Option<int>, lunarMonth: Option<int>, lunarDay: Option<int>, lunarIsLeap: bool)

  /** The question put to the library: the input's calendar date with the clock fields of the
      true solar time. The date is not carried when the correction crosses midnight. */
  datatype OracleQuery = OracleQuery(
    calendar: CalendarType, year: int, month: int, day: int,
    hour: int, minute: int, second: int, isLeapMonth: bool)

  datatype SolarInfo = SolarInfo(ymdHms: string, correctedYmdHms: string, longitudeDeltaMinutes: real)
  datatype LunarInfo = LunarInfo(ymd: string, isLeapMonth: bool)
  datatype FourPillars = FourPillars(
    year: PillarDetail, month: PillarDetail, day: PillarDetail, hour: PillarDetail,
    dayMasterGan: string, dayMasterElement: Element)
  datatype Overall = Overall(
    dayMasterStrength: Strength, favorableElements: seq<Element>,
    unfavorableElements: seq<Element>, startLuckAge: int, luckDirection: LuckDirection)
  datatype PaipanResult = PaipanResult(
    input: BirthInput, solar: SolarInfo, lunar: LunarInfo, fourPillars: FourPillars,
    overall: Overall, daYun: seq<DaYun>)

  /** The true solar time of a birth: its clock time corrected by longitude. */
  function TrueSolar(input: BirthInput): SolarCorrection {
    var t := NormalizeBirthTime(input.time);
    CorrectToTrueSolarTime(input.date.year, input.date.month, input.date.day, t.hour, t.minute,
      input.location.longitude)
  }

  function QueryOf(input: BirthInput): (q: OracleQuery)
    ensures q.year == input.date.year && q.month == input.date.month && q.day == input.date.day
    ensures q.hour == Hours(TrueSolar(input).corrected)
      && q.minute == Minutes(TrueSolar(input).corrected)
      && q.second == Seconds(TrueSolar(input).corrected)
  {
    var c := TrueSolar(input).corrected;
    OracleQuery(input.calendar, input.date.year, input.date.month, input.date.day,
      Hours(c), Minutes(c), Seconds(c), input.date.isLeapMonth.GetOr(false))
  }

  /** `String(n).padStart(2, "0")` for any integer. */
  function PadInt2(n: int): string {
    PadStart(IntToString(n), 2, '0')
  }

  /** `${lunarYear}-${MM}-${DD}` with the library's lunar date, the month without its leap sign,
      and the input's fields where the library gives none. */
  function LunarYmd(o: ChartOracle, input: BirthInput): string {
    var y := o.lunarYear.GetOr(input.date.year);
    var m := o.lunarMonth.GetOr(input.date.month);
    var d := o.lunarDay.GetOr(input.date.day);
    IntToString(y) + "-" + Pad2(if m < 0 then -m else m) + "-" + PadInt2(d)
  }

  /** `paipan`, given the library's answer `o` to `QueryOf(input)`. */
  method Paipan(input: BirthInput, o: ChartOracle) returns (r: PaipanResult)
    ensures r.input == input
    ensures r.fourPillars.year == BuildPillarDetail(o.eightChar.year, YearPillar)
      && r.fourPillars.month == BuildPillarDetail(o.eightChar.month, MonthPillar)
      && r.fourPillars.day == BuildPillarDetail(o.eightChar.day, DayPillar)
      && r.fourPillars.hour == BuildPillarDetail(o.eightChar.hour, HourPillar)
    ensures r.fourPillars.dayMasterGan == o.eightChar.day.gan.GetOr("")
    ensures r.fourPillars.dayMasterElement == StemElementOr(r.fourPillars.dayMasterGan)
    ensures var hidden := r.fourPillars.year.hiddenStems + r.fourPillars.month.hiddenStems
        + r.fourPillars.day.hiddenStems + r.fourPillars.hour.hiddenStems;
      && r.overall.dayMasterStrength
        == ClassifyScore(StrengthScore(r.fourPillars.dayMasterGan, r.fourPillars.month.zhi, hidden))
      && (r.overall.dayMasterStrength == Strong <==>
        SeasonMatches(r.fourPillars.dayMasterGan, r.fourPillars.month.zhi)
        && SomeHiddenMatches(r.fourPillars.dayMasterGan, hidden))
      && (r.overall.dayMasterStrength == Weak <==>
        !SeasonMatches(r.fourPillars.dayMasterGan, r.fourPillars.month.zhi)
        && !SomeHiddenMatches(r.fourPillars.dayMasterGan, hidden))
    ensures var f := PickFavorableElements(r.overall.dayMasterStrength, r.fourPillars.dayMasterElement);
      r.overall.favorableElements == f.favorable && r.overall.unfavorableElements == f.unfavorable
    ensures r.overall.startLuckAge == GetStartLuckAge(o.eightChar, input.gender)
    ensures r.overall.luckDirection == GetLuckDirection(o.eightChar, input.gender)
    ensures r.solar.ymdHms == FormatYmdHms(TrueSolar(input).local)
    ensures r.solar.correctedYmdHms == FormatYmdHms(TrueSolar(input).corrected)
    ensures r.solar.longitudeDeltaMinutes == DeltaMinutes(input.location.longitude)
    ensures r.lunar == LunarInfo(LunarYmd(o, input), o.lunarIsLeap)
    ensures IsDaYunList(r.daYun, o.solarYear, o.eightChar, input.gender)
  {
    var trueSolar := TrueSolar(input);
    var ec := o.eightChar;
    var year := BuildPillarDetail(ec.year, YearPillar);
    var month := BuildPillarDetail(ec.month, MonthPillar);
    var day := BuildPillarDetail(ec.day, DayPillar);
    var hourP := BuildPillarDetail(ec.hour, HourPillar);
    var dayMasterGan := day.gan;
    var dayMasterEl := StemElementOr(dayMasterGan);
    var strength := EvaluateDayMasterStrength(dayMasterGan, month.zhi,
      year.hiddenStems + month.hiddenStems + day.hiddenStems + hourP.hiddenStems);
    var fav := PickFavorableElements(strength, dayMasterEl);
    var startLuckAge := GetStartLuckAge(ec, input.gender);
    var direction := GetLuckDirection(ec, input.gender);
    var daYun := GetDaYunList(o.solarYear, ec, input.gender);
    r := PaipanResult(
      input,
      SolarInfo(FormatYmdHms(trueSolar.local), FormatYmdHms(trueSolar.corrected),
        trueSolar.deltaMinutes),
      LunarInfo(LunarYmd(o, input), o.lunarIsLeap),
      FourPillars(year, month, day, hourP, dayMasterGan, dayMasterEl),
      Overall(strength, fav.favorable, fav.unfavorable, startLuckAge, direction),
      daYun);
    assert r.fourPillars == FourPillars(year, month, day, hourP, dayMasterGan, dayMasterEl);
    assert r.overall.dayMasterStrength == strength;
  }
}
