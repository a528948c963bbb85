/** The four modern "mouths" (四呼) derived from a Middle Chinese syllable's
    grade (等), mouth (呼), initial (声纽), rhyme (韵) and rhyme group (摄):
    a two-by-two table on 等 and 呼, then an ordered list of overrides keyed
    on the group of the initial. */
module SiHu {

  /** The initial groups, in the order the group table lists them. */
  datatype Group = Bang | Duan | Jing | Zhi | Zhuang | Zhang | Ri | Jian | Xiao | Ying | Unknown

  /** `list.includes(x)` on a list of one-character strings. */
  predicate Includes(list: seq<char>, x: string) {
    |x| == 1 && x[0] in list
  }

  /** The initial groups and their initials, in table order. */
  const ShengNiuGroups: seq<(Group, seq<char>)> := [
    (Bang, ['帮', '滂', '並', '明', '非', '敷', '奉', '微']),
    (Duan, ['端', '透', '定', '泥', '来']),
    (Jing, ['精', '清', '從', '心', '邪']),
    (Zhi, ['知', '徹', '澄', '娘']),
    (Zhuang, ['莊', '初', '崇', '生']),
    (Zhang, ['章', '昌', '船', '書', '禅']),
    (Ri, ['日']),
    (Jian, ['見', '溪', '群', '疑']),
    (Xiao, ['曉', '匣']),
    (Ying, ['影'])]

  /** The rhyme categories some rules ask about. */
  const YunbuCategories: map<string, seq<char>> := map[
    "ge" := ['歌'],
    "duo" := ['铎'],
    "jiang" := ['江'],
    "yang" := ['陽'],
    "zhi" := ['支', '脂', '之', '微'],
    "xie" := ['齊', '皆', '佳', '祭', '廢'],
    "jue" := ['覺', '薛', '月', '屑', '葉'],
    "ru_sheng" := ['屋', '沃', '燭', '覺']]

  const KaiKou := "開口呼"
  const QiChi := "齊齒呼"
  const HeKou := "合口呼"
  const CuoKou := "撮口呼"

  /** One of the four 四呼. */
  predicate IsSiHu(s: string) {
    s == KaiKou || s == QiChi || s == HeKou || s == CuoKou
  }

  /** 知系: the 知, 莊 and 章 groups and 日. */
  predicate ZhiXi(g: Group) {
    g == Zhi || g == Zhuang || g == Zhang || g == Ri
  }

  /** 見系: the 見 and 曉 groups and 影. */
  predicate JianXi(g: Group) {
    g == Jian || g == Xiao || g == Ying
  }

  // ----- getShengNiuGroup -----

  /** The name of the first group in `groups` whose list includes `niu`,
      or Unknown when none does. */
  function FirstGroup(groups: seq<(Group, seq<char>)>, niu: string): (g: Group)
    requires forall i :: 0 <= i < |groups| ==> groups[i].0 != Unknown
    ensures g != Unknown ==> exists i :: 0 <= i < |groups| && groups[i].0 == g && Includes(groups[i].1, niu)
    ensures g == Unknown <==> forall i :: 0 <= i < |groups| ==> !Includes(groups[i].1, niu)
  {
    if groups == [] then Unknown
    else if Includes(groups[0].1, niu) then groups[0].0
    else FirstGroup(groups[1..], niu)
  }

  /** A group whose list includes `niu`, preceded by none that does, is the
      one `FirstGroup` answers. */
  lemma {:induction false} FirstGroupIsFirst(groups: seq<(Group, seq<char>)>, niu: string, i: nat)
    requires forall j :: 0 <= j < |groups| ==> groups[j].0 != Unknown
    requires i < |groups| && Includes(groups[i].1, niu)
    requires forall j :: 0 <= j < i ==> !Includes(groups[j].1, niu)
    ensures FirstGroup(groups, niu) == groups[i].0
  {
    if i > 0 {
      assert !Includes(groups[0].1, niu);
      FirstGroupIsFirst(groups[1..], niu, i - 1);
    }
  }

  /** `getShengNiuGroup`. */
  function ShengNiuGroup(niu: string): (g: Group)
    ensures g == Unknown <==> forall i :: 0 <= i < |ShengNiuGroups| ==> !Includes(ShengNiuGroups[i].1, niu)
  {
    GroupNamesKnown();
    FirstGroup(ShengNiuGroups, niu)
  }

  /** No group in the table is called Unknown. */
  lemma GroupNamesKnown()
    ensures forall i :: 0 <= i < |ShengNiuGroups| ==> ShengNiuGroups[i].0 != Unknown
  {
    forall i | 0 <= i < |ShengNiuGroups|
      ensures ShengNiuGroups[i].0 != Unknown
    {
      assert i in {0, 1, 2, 3, 4, 5, 6, 7, 8, 9};
    }
  }

  /** No initial is listed in two groups. */
  lemma GroupsDisjoint()
    ensures forall i, j, c :: 0 <= i < j < |ShengNiuGroups| && c in ShengNiuGroups[i].1 ==> c !in ShengNiuGroups[j].1
  {
  }

  /** An initial listed in a group belongs to that group and to no other. */
  lemma GroupIsUnique(niu: string, i: nat)
    requires i < |ShengNiuGroups| && Includes(ShengNiuGroups[i].1, niu)
    ensures ShengNiuGroup(niu) == ShengNiuGroups[i].0
  {
    GroupNamesKnown();
    GroupsDisjoint();
    FirstGroupIsFirst(ShengNiuGroups, niu, i);
  }

  // ----- isYunbuInCategory -----

  /** `isYunbuInCategory`: an unknown category holds no rhyme. */
  function IsYunbuInCategory(yun: string, category: string): (r: bool)
    ensures category !in YunbuCategories ==> !r
  {
    category in YunbuCategories && Includes(YunbuCategories[category], yun)
  }

  /** The two categories the rules consult hold one rhyme each. */
  lemma JiangAndYang(yun: string)
    ensures IsYunbuInCategory(yun, "jiang") <==> yun == "江"
    ensures IsYunbuInCategory(yun, "yang") <==> yun == "陽"
  {
    assert YunbuCategories["jiang"] == ['江'];
    assert YunbuCategories["yang"] == ['陽'];
    if |yun| == 1 {
      assert yun == [yun[0]];
    }
  }

  // ----- calculateSiHuBasic -----

  /** `calculateSiHuBasic`: the table on 呼 and 等, with 開口呼 for any
      other input. */
  function CalculateSiHuBasic(deng: string, hu: string): (r: string)
    ensures IsSiHu(r)
  {
    if hu == "開" then
      if deng == "一" || deng == "二" then KaiKou
      else if deng == "三" || deng == "四" then QiChi
      else KaiKou
    else if hu == "合" then
      if deng == "一" || deng == "二" then HeKou
      else if deng == "三" || deng == "四" then CuoKou
      else KaiKou
    else KaiKou
  }

  /** On a known 呼 and 等, the table is two independent choices: 合 gives
      a rounded 四呼 (合口呼 or 撮口呼), and the third or fourth grade a
      palatal one (齊齒呼 or 撮口呼). */
  lemma BasicFeatures(deng: string, hu: string)
    requires hu == "開" || hu == "合"
    requires deng == "一" || deng == "二" || deng == "三" || deng == "四"
    ensures var r := CalculateSiHuBasic(deng, hu);
      (r == HeKou || r == CuoKou) == (hu == "合") &&
      (r == QiChi || r == CuoKou) == (deng == "三" || deng == "四")
  {
  }

  /** Any other 呼 or 等 gives 開口呼. */
  lemma BasicDefault(deng: string, hu: string)
    requires !(hu == "開" || hu == "合") || !(deng == "一" || deng == "二" || deng == "三" || deng == "四")
    ensures CalculateSiHuBasic(deng, hu) == KaiKou
  {
  }

  // ----- applySpecialRules -----

  /** `applySpecialRules`: the first of rules 2 to 8 that applies decides
      the 四呼; when none applies `siHu` is returned as given. */
  function ApplySpecialRules(siHu: string, deng: string, hu: string, niu: string, yun: string, she: string): (r: string)
    ensures r == siHu || IsSiHu(r)
  {
    var g := ShengNiuGroup(niu);
    if hu == "開" && deng == "二" && JianXi(g) then QiChi
    else if hu == "開" && g == Zhuang && deng == "二" && IsYunbuInCategory(yun, "jiang") then HeKou
    else if hu == "開" && g == Zhang && deng == "三" && IsYunbuInCategory(yun, "yang") then HeKou
    else if hu == "開" && deng == "三" && ZhiXi(g) then KaiKou
    else if hu == "開" && deng == "三" && (she == "止" || she == "蟹") then
      if ZhiXi(g) then KaiKou else QiChi
    else if hu == "合" && deng == "一" && g == Bang then HeKou
    else if hu == "合" && deng == "三" && ZhiXi(g) then HeKou
    else if hu == "合" && deng == "三" && JianXi(g) then CuoKou
    else siHu
  }

  /** Some rule applies to the syllable. */
  predicate SomeRuleApplies(deng: string, hu: string, g: Group, yun: string, she: string) {
    (hu == "開" && deng == "二" && (JianXi(g) || (g == Zhuang && yun == "江"))) ||
    (hu == "開" && deng == "三" && (ZhiXi(g) || she == "止" || she == "蟹")) ||
    (hu == "合" && deng == "一" && g == Bang) ||
    (hu == "合" && deng == "三" && (ZhiXi(g) || JianXi(g)))
  }

  /** When no rule applies, the 四呼 passed in comes back unchanged; when
      one does, the answer does not depend on it. */
  lemma NoRuleKeepsSiHu(siHu: string, other: string, deng: string, hu: string, niu: string, yun: string, she: string)
    ensures !SomeRuleApplies(deng, hu, ShengNiuGroup(niu), yun, she) ==>
      ApplySpecialRules(siHu, deng, hu, niu, yun, she) == siHu
    ensures SomeRuleApplies(deng, hu, ShengNiuGroup(niu), yun, she) ==>
      ApplySpecialRules(siHu, deng, hu, niu, yun, she) == ApplySpecialRules(other, deng, hu, niu, yun, she)
  {
    JiangAndYang(yun);
  }

  /** Rule 2: an open second-grade syllable with a 見系 initial reads
      齊齒呼, whatever its rhyme. */
  lemma OpenSecondGradeVelar(siHu: string, deng: string, hu: string, niu: string, yun: string, she: string)
    requires hu == "開" && deng == "二" && JianXi(ShengNiuGroup(niu))
    ensures ApplySpecialRules(siHu, deng, hu, niu, yun, she) == QiChi
  {
  }

  /** Rule 3: 江 after a 莊 initial in the second grade and 陽 after a 章
      initial in the third read 合口呼; the 陽 case is tested before rule 4,
      which would give 開口呼. */
  lemma OpenRetroflexRounded(siHu: string, deng: string, hu: string, niu: string, yun: string, she: string)
    requires hu == "開"
    requires (ShengNiuGroup(niu) == Zhuang && deng == "二" && yun == "江") ||
             (ShengNiuGroup(niu) == Zhang && deng == "三" && yun == "陽")
    ensures ApplySpecialRules(siHu, deng, hu, niu, yun, she) == HeKou
  {
    JiangAndYang(yun);
  }

  /** Rule 4: an open third-grade syllable with a 知系 initial reads 開口呼
      unless rule 3 applies, whatever its 摄; so the 知系 branch inside
      rule 5 is never reached. */
  lemma OpenThirdGradeRetroflex(siHu: string, deng: string, hu: string, niu: string, yun: string, she: string)
    requires hu == "開" && deng == "三" && ZhiXi(ShengNiuGroup(niu))
    requires !(ShengNiuGroup(niu) == Zhang && yun == "陽")
    ensures ApplySpecialRules(siHu, deng, hu, niu, yun, she) == KaiKou
  {
    JiangAndYang(yun);
  }

  /** Rule 5: an open third-grade syllable of the 止 or 蟹 group with an
      initial outside 知系 reads 齊齒呼. */
  lemma OpenThirdGradeZhiXie(siHu: string, deng: string, hu: string, niu: string, yun: string, she: string)
    requires hu == "開" && deng == "三" && (she == "止" || she == "蟹") && !ZhiXi(ShengNiuGroup(niu))
    ensures ApplySpecialRules(siHu, deng, hu, niu, yun, she) == QiChi
  {
  }

  /** Rules 6 to 8: closed first grade with a 帮系 initial reads 合口呼,
      closed third grade with a 知系 initial 合口呼, and with a 見系 initial
      撮口呼. */
  lemma ClosedRules(siHu: string, deng: string, hu: string, niu: string, yun: string, she: string)
    requires hu == "合"
    ensures deng == "一" && ShengNiuGroup(niu) == Bang ==> ApplySpecialRules(siHu, deng, hu, niu, yun, she) == HeKou
    ensures deng == "三" && ZhiXi(ShengNiuGroup(niu)) ==> ApplySpecialRules(siHu, deng, hu, niu, yun, she) == HeKou
    ensures deng == "三" && JianXi(ShengNiuGroup(niu)) ==> ApplySpecialRules(siHu, deng, hu, niu, yun, she) == CuoKou
  {
  }

  // ----- calculateSiHu -----

  /** `calculateSiHu`: the table's answer corrected by the rules; always one
      of the four 四呼. */
  function CalculateSiHu(deng: string, hu: string, niu: string, yun: string, she: string): (r: string)
    ensures IsSiHu(r)
  {
    ApplySpecialRules(CalculateSiHuBasic(deng, hu), deng, hu, niu, yun, she)
  }

  /** The rules that change the table's answer: 2, 3, 4 and 7. */
  predicate ChangingRuleApplies(deng: string, hu: string, g: Group, yun: string) {
    (hu == "開" && deng == "二" && (JianXi(g) || (g == Zhuang && yun == "江"))) ||
    (hu == "開" && deng == "三" && ZhiXi(g)) ||
    (hu == "合" && deng == "三" && ZhiXi(g))
  }

  /** The overrides depart from the two-by-two table exactly when rule 2,
      3, 4 or 7 applies: rules 5, 6 and 8 only repeat the table's answer. */
  lemma DepartsFromTable(deng: string, hu: string, niu: string, yun: string, she: string)
    ensures CalculateSiHu(deng, hu, niu, yun, she) != CalculateSiHuBasic(deng, hu) <==>
      ChangingRuleApplies(deng, hu, ShengNiuGroup(niu), yun)
  {
    JiangAndYang(yun);
  }
}
