/** The fixed tables of the ten heavenly stems (天干) and twelve earthly branches (地支) that
    the chart builder and the K-line engine share: stem and branch elements, the six clash (冲)
    and six combination (六合) branch pairs, each branch's clash partner and 煞 direction, and
    the five-element generation (生) and restraint (克) cycles. Stems and branches stay
    strings, as the calendar library hands them over. */
module GanZhi {
  import opened Strings

  datatype Element = Wood | Fire | Earth | Metal | Water

  /** The character the source uses for each element. */
  function ElementName(e: Element): string {
    match e
    case Wood => "木"
    case Fire => "火"
    case Earth => "土"
    case Metal => "金"
    case Water => "水"
  }

  /** The stems in cycle order. */
  function Stems(): string { "甲乙丙丁戊己庚辛壬癸" }

  /** The branches in cycle order. */
  function Branches(): string { "子丑寅卯辰巳午未申酉戌亥" }

  const GanToElement: map<string, Element> := map[
    "甲" := Wood, "乙" := Wood, "丙" := Fire, "丁" := Fire, "戊" := Earth,
    "己" := Earth, "庚" := Metal, "辛" := Metal, "壬" := Water, "癸" := Water]

  const ZhiToElement: map<string, Element> := map[
    "子" := Water, "丑" := Earth, "寅" := Wood, "卯" := Wood, "辰" := Earth, "巳" := Fire,
    "午" := Fire, "未" := Earth, "申" := Metal, "酉" := Metal, "戌" := Earth, "亥" := Water]

  /** `GanToElement[g] ?? "土"`: unknown stems count as earth. Written as a match on the
      single character so that the verifier compares characters rather than strings;
      `StemElementOrTable` connects it with the table. */
  function StemElementOr(g: string): Element {
    if |g| != 1 then Earth
    else match g[0]
      case '甲' => Wood case '乙' => Wood case '丙' => Fire case '丁' => Fire case '戊' => Earth
      case '己' => Earth case '庚' => Metal case '辛' => Metal case '壬' => Water case '癸' => Water
      case _ => Earth
  }

  /** `ZhiToElement[z] ?? "土"`, by the same character match. */
  function BranchElementOr(z: string): Element {
    if |z| != 1 then Earth
    else match z[0]
      case '子' => Water case '丑' => Earth case '寅' => Wood case '卯' => Wood case '辰' => Earth
      case '巳' => Fire case '午' => Fire case '未' => Earth case '申' => Metal case '酉' => Metal
      case '戌' => Earth case '亥' => Water
      case _ => Earth
  }

  /** The stem look-up is the table's entry, and earth off the table. */
  lemma StemElementOrTable(g: string)
    ensures g in GanToElement ==> StemElementOr(g) == GanToElement[g]
    ensures g !in GanToElement ==> StemElementOr(g) == Earth
  {
    if |g| == 1 {
      assert g == [g[0]];
    }
  }

  /** The branch look-up is the table's entry, and earth off the table. */
  lemma BranchElementOrTable(z: string)
    ensures z in ZhiToElement ==> BranchElementOr(z) == ZhiToElement[z]
    ensures z !in ZhiToElement ==> BranchElementOr(z) == Earth
  {
    if |z| == 1 {
      assert z == [z[0]];
    }
  }

  /** The twelve ordered pairs (both directions) of the six clashing branch pairs. */
  function ClashPairs(): set<string> {
    {"子午", "午子", "丑未", "未丑", "寅申", "申寅", "卯酉", "酉卯", "辰戌", "戌辰", "巳亥", "亥巳"}
  }

  /** The twelve ordered pairs of the six combining (六合) branch pairs. */
  function SixHePairs(): set<string> {
    {"子丑", "丑子", "寅亥", "亥寅", "卯戌", "戌卯", "辰酉", "酉辰", "巳申", "申巳", "午未", "未午"}
  }

  /** `countBranchClash(a, b)`: the source looks up the concatenation `${a}${b}`. */
  function CountBranchClash(a: string, b: string): (n: nat)
    ensures n <= 1 && (n == 1 <==> a + b in ClashPairs())
  {
    if a + b in ClashPairs() then 1 else 0
  }

  /** `countBranchSixHe(a, b)`. */
  function CountBranchSixHe(a: string, b: string): (n: nat)
    ensures n <= 1 && (n == 1 <==> a + b in SixHePairs())
  {
    if a + b in SixHePairs() then 1 else 0
  }

  function Reverse2(p: string): string
    requires |p| == 2
  {
    [p[1], p[0]]
  }

  /** Each pair table holds two-branch strings and is closed under swapping the branches. */
  lemma ClashPairsSymmetric()
    ensures forall p :: p in ClashPairs() ==> |p| == 2 && Reverse2(p) in ClashPairs()
  {
  }

  lemma SixHePairsSymmetric()
    ensures forall p :: p in SixHePairs() ==> |p| == 2 && Reverse2(p) in SixHePairs()
  {
  }

  /** No pair of branches both clashes and combines. */
  lemma PairTablesDisjoint()
    ensures ClashPairs() !! SixHePairs()
  {
  }

  /** The clash partner of each branch (paipan.ts `ZhiChong`). */
  const ZhiChong: map<string, string> := map[
    "子" := "午", "丑" := "未", "寅" := "申", "卯" := "酉", "辰" := "戌", "巳" := "亥",
    "午" := "子", "未" := "丑", "申" := "寅", "酉" := "卯", "戌" := "辰", "亥" := "巳"]

  /** The 煞 direction of each branch (paipan.ts `ZhiSha`). */
  const ZhiSha: map<string, string> := map[
    "子" := "南", "丑" := "东", "寅" := "北", "卯" := "西", "辰" := "南", "巳" := "东",
    "午" := "北", "未" := "西", "申" := "南", "酉" := "东", "戌" := "北", "亥" := "西"]

  /** The one-character strings of the twelve branches. */
  function BranchNames(): set<string> {
    set i | 0 <= i < 12 :: [Branches()[i]]
  }

  /** ZhiChong and ZhiSha are defined on exactly the twelve branches. */
  lemma BranchTablesKeys()
    ensures ZhiChong.Keys == ZhiSha.Keys == ZhiToElement.Keys
  {
  }

  /** ZhiChong is an involution without fixed points. */
  lemma ZhiChongInvolution(b: string)
    requires b in ZhiChong
    ensures ZhiChong[b] in ZhiChong && ZhiChong[ZhiChong[b]] == b && ZhiChong[b] != b
  {
  }

  /** ZhiChong agrees with the clash pair table the K-line engine uses. */
  lemma ZhiChongInClashPairs(b: string)
    requires b in ZhiChong
    ensures b + ZhiChong[b] in ClashPairs()
  {
    assert "子" + "午" == "子午";
    assert "丑" + "未" == "丑未";
    assert "寅" + "申" == "寅申";
    assert "卯" + "酉" == "卯酉";
    assert "辰" + "戌" == "辰戌";
    assert "巳" + "亥" == "巳亥";
    assert "午" + "子" == "午子";
    assert "未" + "丑" == "未丑";
    assert "申" + "寅" == "申寅";
    assert "酉" + "卯" == "酉卯";
    assert "戌" + "辰" == "戌辰";
    assert "亥" + "巳" == "亥巳";
  }

  /** Every clash pair starts with a branch and ends with its ZhiChong partner. */
  lemma ClashPairsAreZhiChong()
    ensures forall p :: p in ClashPairs() ==> exists b :: b in ZhiChong && p == b + ZhiChong[b]
  {
    assert "子午" == "子" + ZhiChong["子"];
    assert "午子" == "午" + ZhiChong["午"];
    assert "丑未" == "丑" + ZhiChong["丑"];
    assert "未丑" == "未" + ZhiChong["未"];
    assert "寅申" == "寅" + ZhiChong["寅"];
    assert "申寅" == "申" + ZhiChong["申"];
    assert "卯酉" == "卯" + ZhiChong["卯"];
    assert "酉卯" == "酉" + ZhiChong["酉"];
    assert "辰戌" == "辰" + ZhiChong["辰"];
    assert "戌辰" == "戌" + ZhiChong["戌"];
    assert "巳亥" == "巳" + ZhiChong["巳"];
    assert "亥巳" == "亥" + ZhiChong["亥"];
  }

  /** 生: the element each element generates, 木→火→土→金→水→木. */
  function Generates(e: Element): Element {
    match e
    case Wood => Fire
    case Fire => Earth
    case Earth => Metal
    case Metal => Water
    case Water => Wood
  }

  /** The element that generates `e` (the source's `beSheng`). */
  function GeneratedBy(e: Element): (r: Element)
    ensures Generates(r) == e
  {
    match e
    case Wood => Water
    case Fire => Wood
    case Earth => Fire
    case Metal => Earth
    case Water => Metal
  }

  /** 克: the element each element restrains (the source's `ke`): 木克土, 火克金, 土克水, 金克木, 水克火. */
  function Restrains(e: Element): (r: Element)
    ensures r == Generates(Generates(e))
  {
    match e
    case Wood => Earth
    case Fire => Metal
    case Earth => Water
    case Metal => Wood
    case Water => Fire
  }

  /** The element that restrains `e` (the source's `beKe`). */
  function RestrainedBy(e: Element): (r: Element)
    ensures Restrains(r) == e
  {
    match e
    case Wood => Metal
    case Fire => Water
    case Earth => Wood
    case Metal => Fire
    case Water => Earth
  }

  function Iterate(e: Element, k: nat): Element {
    if k == 0 then e else Generates(Iterate(e, k - 1))
  }

  /** Going round the generation cycle returns after exactly five steps; the four helper
      tables are the cycle's powers 1 (生), 4 (被生), 2 (克) and 3 (被克). */
  lemma GenerationCycle(e: Element)
    ensures Iterate(e, 5) == e
    ensures forall j, k :: 0 <= j < k < 5 ==> Iterate(e, j) != Iterate(e, k)
    ensures Generates(e) == Iterate(e, 1) && Restrains(e) == Iterate(e, 2)
    ensures RestrainedBy(e) == Iterate(e, 3) && GeneratedBy(e) == Iterate(e, 4)
  {
    assert Iterate(e, 5) == Generates(Generates(Generates(Generates(Generates(e)))));
    assert Iterate(e, 4) == Generates(Generates(Generates(Generates(e))));
    assert Iterate(e, 3) == Generates(Generates(Generates(e)));
  }
}
