/** The Kwang-un pinyin derivation of script/kwang-un-pinyin.js: a small
    category language (`is`), a first-match selector (`when`), and the
    derivation of initial, final and tone from a syllable's 纽, 呼, 等, 韵
    and 声. */
module KwangUnPinyin {
  import opened Strings

  /** The fields of a syllable record the script reads: 纽 (initial),
      呼 (開 or 合), 等 (一 to 四), 韵 (rhyme, possibly suffixed A or B)
      and 声 (平, 上, 去 or 入). */
  datatype Syllable = Syllable(niu: string, hu: string, deng: string, yun: string, sheng: string)

  /** 前元音韵: the front-vowel rhymes, which are never of class C. */
  const FrontVowelRhymes: seq<string> := [
    "支", "脂", "之", "微", "魚", "虞", "模", "齊", "祭", "廢",
    "真", "臻", "殷", "文", "仙", "元", "先", "幽", "蕭", "宵",
    "侵", "鹽", "嚴", "添"]

  /** The initials of the 銳音 case. */
  const SharpInitials: seq<string> := [
    "端", "透", "定", "泥", "來", "精", "清", "從", "心", "邪",
    "章", "昌", "常", "書", "船", "日", "以"]

  /** The initials of the 莊組 case. */
  const RetroflexInitials: seq<string> := ["莊", "初", "崇", "生", "俟"]

  // ----- the category language -----

  /** `韵.replace(/[AB]$/, '')`: the rhyme without its class suffix. */
  function StripClass(yun: string): (r: string)
    ensures (EndsWith(yun, "A") || EndsWith(yun, "B")) ==> r == yun[..|yun| - 1]
    ensures !(EndsWith(yun, "A") || EndsWith(yun, "B")) ==> r == yun
  {
    if EndsWith(yun, "A") || EndsWith(yun, "B") then yun[..|yun| - 1] else yun
  }

  /** Class C as the script defines it: third grade, neither A nor B, and a
      rhyme (without suffix) outside the front-vowel list.  The script asks
      `is(data, '三等')`, `is(data, 'A類')` and `is(data, 'B類')` here;
      `CaseLookups` shows those equal the tests written out below. */
  predicate IsClassC(d: Syllable) {
    d.deng == "三" && !(EndsWith(d.yun, "A") || EndsWith(d.yun, "B")) &&
    StripClass(d.yun) !in FrontVowelRhymes
  }

  /** The cases of the `switch` in `is`. */
  datatype Case =
    | OpenMouth | ClosedMouth | Grade1 | Grade2 | Grade3 | Grade4
    | LevelTone | RisingTone | DepartingTone | EnteringTone
    | ClassA | ClassB | ClassC | Sharp | Retroflex

  /** The case labels of the `switch`, each with the case it selects. */
  const CaseOf: map<string, Case> := map[
    "開口" := OpenMouth, "合口" := ClosedMouth,
    "一等" := Grade1, "二等" := Grade2, "三等" := Grade3, "四等" := Grade4,
    "平聲" := LevelTone, "上聲" := RisingTone, "去聲" := DepartingTone, "入聲" := EnteringTone,
    "A類" := ClassA, "A类" := ClassA, "B類" := ClassB, "B类" := ClassB, "C類" := ClassC, "C类" := ClassC,
    "銳音" := Sharp, "莊組" := Retroflex]

  /** The test each case makes on the record. */
  predicate Holds(d: Syllable, c: Case) {
    match c
    case OpenMouth => d.hu == "開"
    case ClosedMouth => d.hu == "合"
    case Grade1 => d.deng == "一"
    case Grade2 => d.deng == "二"
    case Grade3 => d.deng == "三"
    case Grade4 => d.deng == "四"
    case LevelTone => d.sheng == "平"
    case RisingTone => d.sheng == "上"
    case DepartingTone => d.sheng == "去"
    case EnteringTone => d.sheng == "入"
    case ClassA => EndsWith(d.yun, "A")
    case ClassB => EndsWith(d.yun, "B")
    case ClassC => IsClassC(d)
    case Sharp => d.niu in SharpInitials
    case Retroflex => d.niu in RetroflexInitials
  }

  /** The `switch` of `is`: a case label is tested on the record; any
      other name falls to `default` and is false. */
  predicate CaseHolds(d: Syllable, cat: string) {
    cat in CaseOf && Holds(d, CaseOf[cat])
  }

  /** `is(data, category)`: the category is split at whitespace runs and
      every part must hold; the recursion follows `SplitWs`, the first part
      and then the rest after the run (`IsEveryPart` relates the two). */
  predicate Is(d: Syllable, category: string)
    decreases |category|, 2, 0
  {
    var i := JsSpaceFrom(category, 0);
    if i == |category| then IsPart(d, category)
    else IsPart(d, category[..i]) && Is(d, category[JsSpaceRunEnd(category, i)..])
  }

  /** One part: a part containing 非 is the negation of the part with its
      first 非 removed; otherwise a part containing 或 holds when one of its
      alternatives does; otherwise it is looked up in the case table.
      `includes` of a one-character string is membership of the character
      (`SingleCharSubstring`).  A part holds no whitespace, so the script's
      `trim()` of the rest after `replace('非', '')` and of each alternative
      changes nothing (`NegatedRestIsReplace`, `AlternativesAsSplit`). */
  predicate IsPart(d: Syllable, cat: string)
    decreases |cat|, 1, 0
  {
    if '非' in cat then
      !Is(d, RemoveFirst(cat, '非'))
    else if '或' in cat then
      AnyAlternative(d, SplitChar(cat, '或'), |cat|)
    else CaseHolds(d, cat)
  }

  /** `cat` without its first `c`. */
  function RemoveFirst(cat: string, c: char): (r: string)
    requires c in cat
    ensures |r| == |cat| - 1
  {
    var i := IndexOfChar(cat, c);
    cat[..i] + cat[i + 1..]
  }

  /** For a part without whitespace, removing the first 非 is the
      script's `cat.replace('非', '').trim()`. */
  lemma NegatedRestIsReplace(cat: string)
    requires NoJsSpace(cat) && '非' in cat
    ensures RemoveFirst(cat, '非') == Trim(ReplaceFirst(cat, "非", ""))
  {
    var i := IndexOfChar(cat, '非');
    assert cat == cat[..i] + "非" + cat[i + 1..];
    ReplaceAfter(cat[..i], "非", cat[i + 1..], "");
    var r := RemoveFirst(cat, '非');
    assert NoJsSpace(r) by {
      assert forall k :: 0 <= k < i ==> r[k] == cat[k];
      assert forall k :: i <= k < |r| ==> r[k] == cat[k + 1];
    }
    assert cat[..i] + "" + cat[i + 1..] == r;
    TrimNoSpace(r);
  }

  /** `alts.some(sc => is(data, sc))` over the pieces of a part split at
      或, each shorter than `bound`, the length of the part
      (`AnyAlternativeIsSome` relates it to the script's trimming form). */
  predicate AnyAlternative(d: Syllable, alts: seq<string>, bound: nat)
    requires forall p :: p in alts ==> |p| < bound
    decreases bound, 0, |alts|
  {
    alts != [] && (Is(d, alts[0]) || AnyAlternative(d, alts[1..], bound))
  }

  /** `cat => ...`, the test `every` applies to each part. */
  function PartTest(d: Syllable): string -> bool {
    s => IsPart(d, s)
  }

  /** `sc => is(data, sc)`. */
  function CategoryTest(d: Syllable): string -> bool {
    s => Is(d, s)
  }

  /** `Is` is `EveryWsPart` over `IsPart`. */
  lemma {:induction false} IsEveryWsPart(d: Syllable, c: string)
    decreases |c|
    ensures Is(d, c) == EveryWsPart(PartTest(d), c)
  {
    var i := JsSpaceFrom(c, 0);
    if i < |c| {
      IsEveryWsPart(d, c[JsSpaceRunEnd(c, i)..]);
    }
  }

  /** `is` holds iff every part of `category.split(/\s+/)` does. */
  lemma IsEveryPart(d: Syllable, c: string)
    ensures Is(d, c) == Every(PartTest(d), SplitWs(c))
  {
    IsEveryWsPart(d, c);
    EveryWsPartIsEvery(PartTest(d), c);
  }

  /** `AnyAlternative` is `Any` over `Is`. */
  lemma {:induction false} AnyAlternativeIsAny(d: Syllable, alts: seq<string>, bound: nat)
    requires forall p :: p in alts ==> |p| < bound
    decreases |alts|
    ensures AnyAlternative(d, alts, bound) == Any(CategoryTest(d), alts)
  {
    if alts != [] {
      AnyAlternativeIsAny(d, alts[1..], bound);
    }
  }

  /** A part with 或 and no whitespace holds iff one of its trimmed
      alternatives does: `cat.split('或').some(sc => is(data, sc.trim()))`. */
  lemma AlternativesAsSplit(d: Syllable, cat: string)
    requires NoJsSpace(cat) && '非' !in cat && '或' in cat
    ensures IsPart(d, cat) == Any(Trimmed(CategoryTest(d)), SplitChar(cat, '或'))
  {
    var alts := SplitChar(cat, '或');
    SplitCharNoSpace(cat, '或');
    AnyAlternativeIsAny(d, alts, |cat|);
    AnyTrimmed(CategoryTest(d), alts);
  }

  /** A word with no whitespace, no 非 and no 或. */
  predicate Plain(w: string) {
    NoJsSpace(w) && '非' !in w && '或' !in w
  }

  /** A category without whitespace is a single part. */
  lemma SinglePart(d: Syllable, w: string)
    requires NoJsSpace(w)
    ensures Is(d, w) == IsPart(d, w)
  {
  }

  /** A plain word is looked up in the case table. */
  lemma PlainCategory(d: Syllable, w: string)
    requires Plain(w)
    ensures Is(d, w) == CaseHolds(d, w)
  {
  }

  /** A plain name the case table does not list is false. */
  lemma UnknownCategoryIsFalse(d: Syllable, w: string)
    requires Plain(w) && w !in CaseOf
    ensures !Is(d, w)
  {
    PlainCategory(d, w);
  }

  /** Whitespace separates a conjunction: `a b` holds iff the part `a` and
      the rest `b` both hold. */
  lemma Conjunction(d: Syllable, a: string, b: string)
    requires NoJsSpace(a) && (b == [] || !IsJsSpace(b[0]))
    ensures Is(d, a + " " + b) == (IsPart(d, a) && Is(d, b))
  {
    var c := a + " " + b;
    JsSpaceFromField(c, a);
    assert JsSpaceRunEnd(c, |a| + 1) == |a| + 1;
    assert c[..|a|] == a && c[|a| + 1..] == b;
  }

  /** `非w` is the negation of `w`. */
  lemma Negation(d: Syllable, w: string)
    requires Plain(w)
    ensures Is(d, "非" + w) == !Is(d, w)
  {
    var cat := "非" + w;
    assert NoJsSpace(cat) by {
      assert forall k :: 1 <= k < |cat| ==> cat[k] == w[k - 1];
    }
    assert IndexOfChar(cat, '非') == 0;
    assert RemoveFirst(cat, '非') == w;
    SinglePart(d, cat);
    TrimNoSpace(w);
  }

  /** A bare 非 holds for every record, since it negates the empty
      category, which is no case name. */
  lemma BareNegationHolds(d: Syllable)
    ensures Is(d, "非")
  {
    Negation(d, "");
    assert "非" + "" == "非";
    UnknownCategoryIsFalse(d, "");
  }

  /** `a或b` holds iff `a` or `b` does. */
  lemma Alternative(d: Syllable, a: string, b: string)
    requires Plain(a) && Plain(b)
    ensures Is(d, a + "或" + b) == (Is(d, a) || Is(d, b))
  {
    var cat := a + "或" + b;
    assert NoJsSpace(cat) && '非' !in cat && '或' in cat by {
      assert forall k :: 0 <= k < |a| ==> cat[k] == a[k];
      assert cat[|a|] == '或';
      assert forall k :: |a| < k < |cat| ==> cat[k] == b[k - |a| - 1];
    }
    SplitCharTwo(a, '或', b);
    SinglePart(d, cat);
    AnyAlternativeIsAny(d, [a, b], |cat|);
    AnyPair(CategoryTest(d), a, b);
  }

  /** Every case label is a plain word. */
  lemma CaseLabelsPlain()
    ensures forall w :: w in CaseOf ==> Plain(w)
  {
  }

  /** A case label, written as a category, makes its case's test. */
  lemma CaseLabel(d: Syllable, w: string)
    requires w in CaseOf
    ensures Is(d, w) == Holds(d, CaseOf[w])
  {
    CaseLabelsPlain();
    PlainCategory(d, w);
  }

  /** 開口 and 合口 test 呼. */
  lemma MouthCases(d: Syllable)
    ensures Is(d, "開口") == (d.hu == "開") && Is(d, "合口") == (d.hu == "合")
  {
    CaseLabel(d, "開口");
    CaseLabel(d, "合口");
  }

  /** 三等 and 四等 test 等. */
  lemma GradeCases(d: Syllable)
    ensures Is(d, "三等") == (d.deng == "三") && Is(d, "四等") == (d.deng == "四")
  {
    CaseLabel(d, "三等");
    CaseLabel(d, "四等");
  }

  /** 入聲 tests 声. */
  lemma EnteringCase(d: Syllable)
    ensures Is(d, "入聲") == (d.sheng == "入")
  {
    CaseLabel(d, "入聲");
  }

  /** A, B and C classes: A and B read the rhyme's suffix, C is a third
      grade rhyme with neither suffix outside the front-vowel list; no
      record is in two classes. */
  lemma RhymeClasses(d: Syllable)
    ensures Is(d, "A類") == EndsWith(d.yun, "A")
    ensures Is(d, "B類") == EndsWith(d.yun, "B")
    ensures Is(d, "C類") ==
      (d.deng == "三" && !EndsWith(d.yun, "A") && !EndsWith(d.yun, "B") && d.yun !in FrontVowelRhymes)
    ensures !(Is(d, "A類") && Is(d, "B類")) && !(Is(d, "A類") && Is(d, "C類")) && !(Is(d, "B類") && Is(d, "C類"))
  {
    CaseLabel(d, "A類");
    CaseLabel(d, "B類");
    CaseLabel(d, "C類");
  }

  /** The calls `is(data, '三等')`, `is(data, 'A類')` and `is(data, 'B類')`
      inside the C class test the fields `IsClassC` tests. */
  lemma CaseLookups(d: Syllable)
    ensures Is(d, "三等") == (d.deng == "三")
    ensures (Is(d, "A類") || Is(d, "B類")) == (EndsWith(d.yun, "A") || EndsWith(d.yun, "B"))
  {
    GradeCases(d);
    RhymeClasses(d);
  }

  /** `非 合口` is a conjunction of the bare 非, which always holds, and
      合口: it means 合口, not its negation. */
  lemma NotHeKouMeansHeKou(d: Syllable)
    ensures Is(d, "非 合口") == (d.hu == "合")
  {
    assert "非 合口" == "非" + " " + "合口";
    Conjunction(d, "非", "合口");
    BareNegationHolds(d);
    SinglePart(d, "非");
    MouthCases(d);
  }

  /** `銳音 非 莊組` asks for a 銳音 initial that is also 莊組; the two
      lists share no initial, so it never holds. */
  lemma SharpAndRetroflexNever(d: Syllable)
    ensures !Is(d, "銳音 非 莊組")
  {
    assert "銳音 非 莊組" == "銳音" + " " + ("非" + " " + "莊組");
    Conjunction(d, "銳音", "非" + " " + "莊組");
    Conjunction(d, "非", "莊組");
    CaseLabel(d, "銳音");
    CaseLabel(d, "莊組");
    SharpNotRetroflex(d.niu);
  }

  /** No initial is both 銳音 and 莊組. */
  lemma SharpNotRetroflex(niu: string)
    ensures !(niu in SharpInitials && niu in RetroflexInitials)
  {
  }

  // ----- when -----

  /** The value of the first condition that holds, or "". */
  function FirstMatch(d: Syllable, conds: seq<(string, string)>): (r: string)
    ensures r == "" || exists i :: 0 <= i < |conds| && Is(d, conds[i].0) && conds[i].1 == r
  {
    if conds == [] then ""
    else if Is(d, conds[0].0) then conds[0].1
    else
      var r := FirstMatch(d, conds[1..]);
      assert r != "" ==> exists i :: 0 < i < |conds| && Is(d, conds[i].0) && conds[i].1 == r by {
        if r != "" {
          var j :| 0 <= j < |conds[1..]| && Is(d, conds[1..][j].0) && conds[1..][j].1 == r;
          assert conds[j + 1] == conds[1..][j];
        }
      }
      r
  }

  /** `when(data, conditions)`: a first-match loop with early return. */
  method When(d: Syllable, conds: seq<(string, string)>) returns (v: string)
    ensures v == FirstMatch(d, conds)
  {
    var i := 0;
    while i < |conds|
      invariant 0 <= i <= |conds|
      invariant FirstMatch(d, conds[i..]) == FirstMatch(d, conds)
    {
      if Is(d, conds[i].0) {
        return conds[i].1;
      }
      assert conds[i..][1..] == conds[i + 1..];
      i := i + 1;
    }
    return "";
  }

  /** `when` yields the value paired with the first condition that holds. */
  lemma {:induction false} FirstMatchIsFirst(d: Syllable, conds: seq<(string, string)>, i: nat)
    requires i < |conds| && Is(d, conds[i].0)
    requires forall j :: 0 <= j < i ==> !Is(d, conds[j].0)
    ensures FirstMatch(d, conds) == conds[i].1
  {
    if i > 0 {
      FirstMatchIsFirst(d, conds[1..], i - 1);
    }
  }

  /** `when` yields "" when no condition holds. */
  lemma {:induction false} FirstMatchNone(d: Syllable, conds: seq<(string, string)>)
    requires forall j :: 0 <= j < |conds| ==> !Is(d, conds[j].0)
    ensures FirstMatch(d, conds) == ""
  {
    if conds != [] {
      FirstMatchNone(d, conds[1..]);
    }
  }

  // ----- the rhyme table -----

  const OpenRhymes: seq<(string, string)> := [
    ("脂韻", "i"), ("之韻", "y"), ("尤侯韻", "u"),
    ("支韻", "e"), ("佳韻", "ee"), ("魚韻", "eo"), ("虞模韻", "o"),
    ("麻韻", "ae"), ("歌韻", "a")]

  const VelarRhymes: seq<(string, string)> := [
    ("蒸韻 A類", "ing"), ("蒸韻", "yng"), ("東韻", "ung"),
    ("青韻", "eng"), ("耕韻", "eeng"), ("登韻", "eong"), ("冬鍾韻", "ong"), ("江韻", "oeung"),
    ("庚清韻", "aeng"), ("陽唐韻", "ang")]

  const GlideRhymes: seq<(string, string)> := [
    ("微韻", "uj"),
    ("齊祭韻", "ej"), ("皆韻", "eej"), ("灰咍廢韻", "oj"),
    ("夬韻", "aej"), ("泰韻", "aj")]

  const DentalRhymes: seq<(string, string)> := [
    ("真臻韻", "in"), ("殷文韻", "un"),
    ("先仙韻", "en"), ("山韻", "een"), ("元魂痕韻", "on"),
    ("刪韻", "aen"), ("寒韻", "an")]

  const LabialGlideRhymes: seq<(string, string)> := [
    ("幽韻", "iw"),
    ("蕭宵韻", "ew"),
    ("肴韻", "aew"), ("豪韻", "aw")]

  const LabialRhymes: seq<(string, string)> := [
    ("侵韻", "im"),
    ("鹽添韻", "em"), ("咸韻", "eem"), ("覃嚴凡韻", "om"),
    ("銜韻", "aem"), ("談韻", "am")]

  /** The conditions `get韻母` hands to `when`. */
  const RhymeTable: seq<(string, string)> :=
    OpenRhymes + VelarRhymes + GlideRhymes + DentalRhymes + LabialGlideRhymes + LabialRhymes

  /** A CJK unified ideograph other than 非 and 或. */
  predicate Ideograph(c: char) {
    0x4E00 <= c as int <= 0x9FFF && c != '非' && c != '或'
  }

  predicate Ideographs(w: string) {
    w == [] || (Ideograph(w[0]) && Ideographs(w[1..]))
  }

  /** A rhyme condition name: ideographs ending in 韻. */
  predicate RhymeName(w: string) {
    |w| > 0 && w[|w| - 1] == '韻' && Ideographs(w)
  }

  /** Every condition name of `g` from index `i` on is a rhyme name. */
  predicate RhymeNamesFrom(g: seq<(string, string)>, i: nat)
    requires i <= |g|
    decreases |g| - i
  {
    i == |g| || (RhymeName(g[i].0) && RhymeNamesFrom(g, i + 1))
  }

  lemma {:induction false} IdeographsPlain(w: string)
    requires Ideographs(w)
    ensures Plain(w)
  {
    if w != [] {
      IdeographsPlain(w[1..]);
      assert forall k :: 1 <= k < |w| ==> w[k] == w[1..][k - 1];
    }
  }

  /** No case name ends in 韻, so a rhyme name never holds. */
  lemma RhymeNameNeverHolds(d: Syllable, w: string)
    requires RhymeName(w)
    ensures !Is(d, w)
  {
    IdeographsPlain(w);
    UnknownCategoryIsFalse(d, w);
  }

  /** Each condition name of `g` from index `i` on is a rhyme name. */
  lemma {:induction false} RhymeNamesFromAll(g: seq<(string, string)>, i: nat)
    requires i <= |g| && RhymeNamesFrom(g, i)
    decreases |g| - i
    ensures forall j :: i <= j < |g| ==> RhymeName(g[j].0)
  {
    if i < |g| {
      RhymeNamesFromAll(g, i + 1);
    }
  }

  /** "蒸韻 A類" needs 蒸韻, which never holds. */
  lemma ZhengAClassNeverHolds(d: Syllable)
    ensures !Is(d, "蒸韻 A類")
  {
    assert "蒸韻 A類" == "蒸韻" + " " + "A類";
    Conjunction(d, "蒸韻", "A類");
    SinglePart(d, "蒸韻");
    RhymeNameNeverHolds(d, "蒸韻");
  }

  /** The condition names of `g`, except the one at index `x`, are rhyme
      names. */
  predicate NamesExcept(g: seq<(string, string)>, x: int) {
    forall j :: 0 <= j < |g| && j != x ==> RhymeName(g[j].0)
  }

  lemma NamesAppend(g: seq<(string, string)>, h: seq<(string, string)>, x: int)
    requires NamesExcept(g, x) && x < |g| && NamesExcept(h, -1)
    ensures NamesExcept(g + h, x)
  {
    assert forall j :: |g| <= j < |g + h| ==> (g + h)[j] == h[j - |g|];
  }

  lemma NamesJoin(g: seq<(string, string)>, h: seq<(string, string)>)
    requires NamesExcept(g, -1) && 0 < |h| && NamesExcept(h, 0)
    ensures NamesExcept(g + h, |g|)
  {
    assert forall j :: |g| <= j < |g + h| ==> (g + h)[j] == h[j - |g|];
  }

  lemma OpenRhymeNames() ensures NamesExcept(OpenRhymes, -1) && |OpenRhymes| == 9 { RhymeNamesFromAll(OpenRhymes, 0); }

  lemma VelarRhymeNames() ensures NamesExcept(VelarRhymes, 0) && VelarRhymes[0].0 == "蒸韻 A類" { RhymeNamesFromAll(VelarRhymes, 1); }

  lemma GlideRhymeNames() ensures NamesExcept(GlideRhymes, -1) { RhymeNamesFromAll(GlideRhymes, 0); }

  lemma DentalRhymeNames() ensures NamesExcept(DentalRhymes, -1) { RhymeNamesFromAll(DentalRhymes, 0); }

  lemma LabialGlideRhymeNames() ensures NamesExcept(LabialGlideRhymes, -1) { RhymeNamesFromAll(LabialGlideRhymes, 0); }

  lemma LabialRhymeNames() ensures NamesExcept(LabialRhymes, -1) { RhymeNamesFromAll(LabialRhymes, 0); }

  /** Every condition of the rhyme table but "蒸韻 A類" (at index 9) is a
      rhyme name. */
  lemma RhymeTableNames()
    ensures RhymeTable[9].0 == "蒸韻 A類" && NamesExcept(RhymeTable, 9)
  {
    OpenRhymeNames();
    VelarRhymeNames();
    GlideRhymeNames();
    DentalRhymeNames();
    LabialGlideRhymeNames();
    LabialRhymeNames();
    var t := OpenRhymes + VelarRhymes;
    NamesJoin(OpenRhymes, VelarRhymes);
    NamesAppend(t, GlideRhymes, 9);
    NamesAppend(t + GlideRhymes, DentalRhymes, 9);
    NamesAppend(t + GlideRhymes + DentalRhymes, LabialGlideRhymes, 9);
    NamesAppend(t + GlideRhymes + DentalRhymes + LabialGlideRhymes, LabialRhymes, 9);
    assert RhymeTable[9] == VelarRhymes[0];
  }

  /** None of the condition names handed to `when` is a case of `is`, so
      the table always yields "" and the single-rhyme map decides. */
  lemma RhymeTableNeverMatches(d: Syllable)
    ensures FirstMatch(d, RhymeTable) == ""
  {
    RhymeTableNames();
    forall j | 0 <= j < |RhymeTable|
      ensures !Is(d, RhymeTable[j].0)
    {
      if j == 9 {
        ZhengAClassNeverHolds(d);
      } else {
        RhymeNameNeverHolds(d, RhymeTable[j].0);
      }
    }
    FirstMatchNone(d, RhymeTable);
  }

  /** 单韵母映射: the final of each rhyme, by its rhyme without suffix. */
  const SingleFinals: map<char, string> := map[
    '脂' := "i", '之' := "y", '尤' := "u", '侯' := "u",
    '支' := "e", '佳' := "ee", '魚' := "eo", '虞' := "o", '模' := "o",
    '麻' := "ae", '歌' := "a",
    '蒸' := "yng", '東' := "ung",
    '青' := "eng", '耕' := "eeng", '登' := "eong", '冬' := "ong", '鍾' := "ong", '江' := "oeung",
    '庚' := "aeng", '清' := "aeng", '陽' := "ang", '唐' := "ang",
    '微' := "uj",
    '齊' := "ej", '祭' := "ej", '皆' := "eej", '灰' := "oj", '咍' := "oj", '廢' := "oj",
    '夬' := "aej", '泰' := "aj",
    '真' := "in", '臻' := "in", '殷' := "un", '文' := "un",
    '先' := "en", '仙' := "en", '山' := "een", '元' := "on", '魂' := "on", '痕' := "on",
    '刪' := "aen", '寒' := "an",
    '幽' := "iw",
    '蕭' := "ew", '宵' := "ew",
    '肴' := "aew", '豪' := "aw",
    '侵' := "im",
    '鹽' := "em", '添' := "em", '咸' := "eem", '覃' := "om", '嚴' := "om", '凡' := "om",
    '銜' := "aem", '談' := "am"]

  /** `m[k] || ''` on an object whose keys are single characters: the
      mapped string, or "" for any other key. */
  function Lookup(m: map<char, string>, k: string): (r: string)
    ensures |k| == 1 && k[0] in m ==> r == m[k[0]]
    ensures !(|k| == 1 && k[0] in m) ==> r == ""
  {
    if |k| == 1 && k[0] in m then m[k[0]] else ""
  }

  // ----- initial and tone -----

  /** 声母映射. */
  const InitialMap: map<char, string> := map[
    '幫' := "p", '滂' := "ph", '並' := "b", '明' := "m",
    '端' := "t", '透' := "th", '定' := "d", '泥' := "n", '來' := "l",
    '知' := "tr", '徹' := "trh", '澄' := "dr", '孃' := "nr",
    '見' := "k", '溪' := "kh", '羣' := "g", '疑' := "ng", '云' := "",
    '影' := "q", '曉' := "h", '匣' := "gh",
    '精' := "ts", '清' := "tsh", '從' := "dz", '心' := "s", '邪' := "z",
    '莊' := "tsr", '初' := "tsrh", '崇' := "dzr", '生' := "sr", '俟' := "zr",
    '章' := "tj", '昌' := "tjh", '常' := "dj", '書' := "sj", '船' := "zj", '日' := "nj", '以' := "j"]

  /** `get聲母`. */
  function Initial(d: Syllable): (r: string)
    ensures r == "" <==> (d.niu == "云" || !(|d.niu| == 1 && d.niu[0] in InitialMap))
  {
    Lookup(InitialMap, d.niu)
  }

  /** `get聲調`: q for 上, h for 去, nothing otherwise. */
  function Tone(d: Syllable): (r: string)
    ensures r == "q" <==> d.sheng == "上"
    ensures r == "h" <==> d.sheng == "去"
    ensures r == "" <==> (d.sheng != "上" && d.sheng != "去")
  {
    if d.sheng == "上" then "q" else if d.sheng == "去" then "h" else ""
  }

  // ----- the final, step by step -----

  /** `/^[uo]/`. */
  predicate RoundStart(f: string) {
    StartsWith(f, "u") || StartsWith(f, "o")
  }

  /** `/^[uo]|^a(?!e)/`. */
  predicate BackStart(f: string) {
    RoundStart(f) || (StartsWith(f, "a") && !StartsWith(f, "ae"))
  }

  /** `/^i|^e(?!o)|^ae/`. */
  predicate FrontStart(f: string) {
    StartsWith(f, "i") || (StartsWith(f, "e") && !StartsWith(f, "eo")) || StartsWith(f, "ae")
  }

  /** `/^[yu]/`. */
  predicate HighStart(f: string) {
    StartsWith(f, "y") || StartsWith(f, "u")
  }

  /** The final before any marking: the `when` table, and when it yields
      "" the single-rhyme map on the rhyme without suffix. */
  function BaseFinal(d: Syllable): (r: string)
    ensures r == Lookup(SingleFinals, StripClass(d.yun))
  {
    RhymeTableNeverMatches(d);
    var w := FirstMatch(d, RhymeTable);
    if w == "" then Lookup(SingleFinals, StripClass(d.yun)) else w
  }

  /** 不圆唇元音: an open-mouth final not ending in m loses its rounding. */
  function Unrounded(d: Syllable, f: string): (r: string)
    ensures r == f || (StartsWith(f, "u") && r == "y" + f[1..]) || (StartsWith(f, "o") && r == "eo" + f[1..])
    ensures EndsWith(f, "m") ==> r == f
  {
    if Is(d, "開口") && !EndsWith(f, "m") then ReplacePrefix(ReplacePrefix(f, "u", "y"), "o", "eo") else f
  }

  /** 等类标记: the grade prefixes. */
  function Graded(d: Syllable, f: string): (r: string)
    ensures r == f || r == "i" + f || r == "u" + f || r == "o" + f || StartsWith(r, "y")
    ensures r == "i" + f ==> !StartsWith(f, "i")
    ensures r == "u" + f ==> !StartsWith(f, "u")
    ensures r == "o" + f ==> HighStart(f)
  {
    GradeMark(Is(d, "三等") || (Is(d, "四等") && StartsWith(f, "ae")),
              Is(d, "A類") || (Is(d, "銳音 非 莊組") && FrontStart(f)),
              if BackStart(f) then Is(d, "開口") else Is(d, "非 合口"),
              f)
  }

  /** The mark the grade step adds, once its three tests are decided: a
      third grade (or fourth with ae) rhyme takes i in class A (or with a
      sharp initial and a front final), else y where the mouth test holds,
      else u; any other grade marks a final starting y or u with o. */
  function GradeMark(third: bool, classA: bool, yMark: bool, f: string): (r: string)
    ensures r == f || r == "i" + f || r == "u" + f || r == "o" + f || StartsWith(r, "y")
    ensures r == "i" + f ==> !StartsWith(f, "i")
    ensures r == "u" + f ==> !StartsWith(f, "u")
    ensures r == "o" + f ==> HighStart(f)
  {
    if third then
      if classA then
        Marked('i', f);
        if StartsWith(f, "i") then f else "i" + f
      else if yMark then
        var g := if StartsWith(f, "y") then f else "y" + f;
        Marked('y', f);
        YMarkKept(g);
        var r := ReplaceFirst(g, "yeo", "yo");
        FirstLetter(r, 'y');
        r
      else
        Marked('u', f);
        if StartsWith(f, "u") then f else "u" + f
    else
      Marked('o', f);
      if HighStart(f) then "o" + f else f
  }

  /** A final with a mark letter in front: longer by one, and starting
      with that letter and no other. */
  lemma Marked(c: char, f: string)
    ensures |[c] + f| == |f| + 1 && ([c] + f)[0] == c && StartsWith([c] + f, [c])
  {
  }

  lemma FirstLetter(r: string, c: char)
    requires StartsWith(r, [c])
    ensures |r| > 0 && r[0] == c
  {
  }

  /** 合口标记. */
  function Rounded(d: Syllable, f: string): (r: string)
    ensures r == f || (r == "w" + f && !RoundStart(f))
    ensures d.hu != "合" ==> r == f
  {
    MouthCases(d);
    if Is(d, "合口") && !RoundStart(f) then "w" + f else f
  }

  /** 入声处理: the first ng, then the first n, then the first m become
      the stops k, t and p. */
  function Checked(d: Syllable, f: string): (r: string)
    ensures |r| <= |f|
    ensures d.sheng != "入" ==> r == f
  {
    EnteringCase(d);
    if Is(d, "入聲") then ReplaceFirst(ReplaceFirst(ReplaceFirst(f, "ng", "k"), "n", "t"), "m", "p") else f
  }

  /** The y mark survives the yeo-to-yo rewrite: an occurrence at the
      start leaves yo, a later one leaves the first letter alone. */
  lemma YMarkKept(g: string)
    requires StartsWith(g, "y")
    ensures StartsWith(ReplaceFirst(g, "yeo", "yo"), "y")
  {
    match Find(g, "yeo")
    case None =>
    case Some(i) =>
      var r := ReplaceFirst(g, "yeo", "yo");
      assert r == g[..i] + "yo" + g[i + 3..];
      if i == 0 {
        assert r[0] == 'y';
      } else {
        assert r[0] == g[0];
      }
  }

  /** The final `get韻母` computes. */
  function FinalOf(d: Syllable): string {
    Checked(d, Rounded(d, Graded(d, Unrounded(d, BaseFinal(d)))))
  }

  // ----- what each step promises -----

  /** 不圆唇元音: an open-mouth final not ending in m trades a leading u
      for y or a leading o for eo; every other final is left alone. */
  lemma UnroundedSpec(d: Syllable, f: string)
    ensures d.hu == "開" && !EndsWith(f, "m") && StartsWith(f, "u") ==> Unrounded(d, f) == "y" + f[1..]
    ensures d.hu == "開" && !EndsWith(f, "m") && StartsWith(f, "o") ==> Unrounded(d, f) == "eo" + f[1..]
    ensures d.hu != "開" || EndsWith(f, "m") || !(StartsWith(f, "u") || StartsWith(f, "o")) ==>
      Unrounded(d, f) == f
  {
    MouthCases(d);
  }

  /** A third-grade rhyme of class A is marked with one leading i: the mark
      is added unless the final already starts with i. */
  lemma ClassAMark(d: Syllable, f: string)
    requires d.deng == "三" && EndsWith(d.yun, "A")
    ensures Graded(d, f) == (if StartsWith(f, "i") then f else "i" + f)
    ensures StartsWith(Graded(d, f), "i")
  {
    GradeCases(d);
    RhymeClasses(d);
  }

  /** A third-grade rhyme outside class A and outside 合口 (so an open-mouth
      one in particular) whose final does not start with u, o or a (other
      than ae) takes the u mark, not y: the y branch asks `非 合口`, which
      holds only for 合口. */
  lemma FrontFinalTakesU(d: Syllable, f: string)
    requires d.deng == "三" && !EndsWith(d.yun, "A") && d.hu != "合" && !BackStart(f)
    ensures Graded(d, f) == (if StartsWith(f, "u") then f else "u" + f)
  {
    GradeCases(d);
    RhymeClasses(d);
    MouthCases(d);
    SharpAndRetroflexNever(d);
    NotHeKouMeansHeKou(d);
  }

  /** A closed-mouth third-grade rhyme outside class A whose final does not
      start with u, o or a (other than ae) takes the y mark, since `非 合口`
      holds for 合口; then its first yeo becomes yo. */
  lemma ClosedFrontTakesY(d: Syllable, f: string)
    requires d.deng == "三" && !EndsWith(d.yun, "A") && d.hu == "合" && !BackStart(f)
    ensures Graded(d, f) == ReplaceFirst(if StartsWith(f, "y") then f else "y" + f, "yeo", "yo")
  {
    GradeCases(d);
    RhymeClasses(d);
    SharpAndRetroflexNever(d);
    NotHeKouMeansHeKou(d);
  }

  /** A closed-mouth third-grade rhyme outside class A whose final starts
      with eo is marked yo: y is added and yeo becomes yo. */
  lemma YeoBecomesYo(d: Syllable, s: string)
    requires d.deng == "三" && !EndsWith(d.yun, "A") && d.hu == "合"
    ensures Graded(d, "eo" + s) == "yo" + s
  {
    EoShape(s);
    ClosedFrontTakesY(d, "eo" + s);
  }

  lemma EoShape(s: string)
    ensures !BackStart("eo" + s) && !StartsWith("eo" + s, "y")
    ensures ReplaceFirst("y" + ("eo" + s), "yeo", "yo") == "yo" + s
  {
    var f := "eo" + s;
    assert f[..1] == "e";
    assert "y" + f == "" + "yeo" + s;
    ReplaceAfter("", "yeo", s, "yo");
    assert "" + "yo" + s == "yo" + s;
  }

  /** A third-grade rhyme outside class A whose final starts with u, o or a
      (other than ae) takes y under 開口 (with yeo then becoming yo) and u
      otherwise, each mark added only when the final does not already start
      with it. */
  lemma BackFinalsThirdGrade(d: Syllable, f: string)
    requires d.deng == "三" && !EndsWith(d.yun, "A") && BackStart(f)
    ensures Graded(d, f) ==
      if d.hu == "開" then ReplaceFirst(if StartsWith(f, "y") then f else "y" + f, "yeo", "yo")
      else if StartsWith(f, "u") then f else "u" + f
  {
    GradeCases(d);
    RhymeClasses(d);
    MouthCases(d);
    SharpAndRetroflexNever(d);
  }

  /** A fourth-grade final starting with ae is marked as in the third grade:
      i in class A, else y for 合口 (the `非 合口` branch) and u for any
      other mouth. */
  lemma FourthGradeAe(d: Syllable, f: string)
    requires d.deng == "四" && StartsWith(f, "ae")
    ensures EndsWith(d.yun, "A") ==> Graded(d, f) == "i" + f
    ensures !EndsWith(d.yun, "A") && d.hu == "合" ==> Graded(d, f) == ReplaceFirst("y" + f, "yeo", "yo")
    ensures !EndsWith(d.yun, "A") && d.hu != "合" ==> Graded(d, f) == "u" + f
  {
    GradeCases(d);
    RhymeClasses(d);
    SharpAndRetroflexNever(d);
    NotHeKouMeansHeKou(d);
    AeShape(f);
  }

  lemma AeShape(f: string)
    requires StartsWith(f, "ae")
    ensures !StartsWith(f, "i") && !StartsWith(f, "y") && !StartsWith(f, "u") && !BackStart(f)
  {
    assert f[..2] == "ae";
    assert f[..1] == "a";
  }

  /** Outside the third grade (and the fourth grade before ae), only a final
      starting with y or u is marked, with o. */
  lemma OtherGradesMarkHighVowels(d: Syllable, f: string)
    requires d.deng != "三" && !(d.deng == "四" && StartsWith(f, "ae"))
    ensures Graded(d, f) == (if HighStart(f) then "o" + f else f)
  {
    GradeCases(d);
  }

  /** 合口标记: only 合口 adds a w, and then the final starts with w, u or
      o; every other final is unchanged. */
  lemma RoundedMarksHeKou(d: Syllable, f: string)
    ensures d.hu == "合" ==> StartsWith(Rounded(d, f), "w") || RoundStart(Rounded(d, f))
    ensures d.hu == "合" && !RoundStart(f) ==> Rounded(d, f) == "w" + f
    ensures d.hu != "合" || RoundStart(f) ==> Rounded(d, f) == f
  {
    MouthCases(d);
  }

  /** 入声处理: in an entering-tone syllable the nasal coda ng, n or m of a
      final whose body has neither n nor m becomes the stop k, t or p;
      other tones keep the final. */
  lemma CheckedCodas(d: Syllable, s: string)
    requires 'n' !in s && 'm' !in s
    ensures d.sheng == "入" ==>
      Checked(d, s + "ng") == s + "k" && Checked(d, s + "n") == s + "t" && Checked(d, s + "m") == s + "p"
    ensures d.sheng != "入" ==> Checked(d, s + "ng") == s + "ng"
  {
    EnteringCase(d);
    if d.sheng == "入" {
      CheckedVelar(s);
      CheckedDental(s);
      CheckedLabial(s);
    }
  }

  lemma CheckedVelar(s: string)
    requires 'n' !in s && 'm' !in s
    ensures ReplaceFirst(ReplaceFirst(ReplaceFirst(s + "ng", "ng", "k"), "n", "t"), "m", "p") == s + "k"
  {
    assert s + "ng" == s + "ng" + "";
    ReplaceAfter(s, "ng", "", "k");
    assert s + "k" + "" == s + "k";
    ReplaceAbsent(s + "k", "n", "t");
    ReplaceAbsent(s + "k", "m", "p");
  }

  lemma CheckedDental(s: string)
    requires 'n' !in s && 'm' !in s
    ensures ReplaceFirst(ReplaceFirst(ReplaceFirst(s + "n", "ng", "k"), "n", "t"), "m", "p") == s + "t"
  {
    ReplaceAbsentTail(s, 'n', "ng", "k");
    assert s + "n" == s + "n" + "";
    ReplaceAfter(s, "n", "", "t");
    assert s + "t" + "" == s + "t";
    ReplaceAbsent(s + "t", "m", "p");
  }

  lemma CheckedLabial(s: string)
    requires 'n' !in s && 'm' !in s
    ensures ReplaceFirst(ReplaceFirst(ReplaceFirst(s + "m", "ng", "k"), "n", "t"), "m", "p") == s + "p"
  {
    ReplaceAbsent(s + "m", "ng", "k");
    ReplaceAbsent(s + "m", "n", "t");
    assert s + "m" == s + "m" + "";
    ReplaceAfter(s, "m", "", "p");
    assert s + "p" + "" == s + "p";
  }

  /** 心 (開口, third grade, 侵 rhyme, level tone) reads suim: the table
      yields nothing, 侵 gives im, which keeps its vowel before m; as the
      `銳音 非 莊組` test never holds, the sharp initial does not earn the i
      mark and the open front final takes u; the level tone adds nothing. */
  lemma XinExample(d: Syllable)
    requires d == Syllable("心", "開", "三", "侵", "平")
    ensures BaseFinal(d) == "im" && FinalOf(d) == "uim"
    ensures Initial(d) + FinalOf(d) + Tone(d) == "suim"
  {
    XinBase(d);
    XinMarks(d);
    XinInitial(d);
    Spelled(Initial(d), FinalOf(d), Tone(d));
  }

  lemma Spelled(i: string, f: string, t: string)
    requires i == "s" && f == "uim" && t == ""
    ensures i + f + t == "suim"
  {
  }

  lemma XinBase(d: Syllable)
    requires d.yun == "侵"
    ensures BaseFinal(d) == "im"
  {
    RhymeTableNeverMatches(d);
    assert StripClass(d.yun) == "侵";
    assert |"侵"| == 1 && "侵"[0] == '侵';
    assert '侵' in SingleFinals && SingleFinals['侵'] == "im";
  }

  lemma XinMarks(d: Syllable)
    requires d.hu == "開" && d.deng == "三" && d.yun == "侵" && d.sheng == "平" && BaseFinal(d) == "im"
    ensures FinalOf(d) == "uim"
  {
    ImShape();
    UnroundedSpec(d, "im");
    assert Unrounded(d, BaseFinal(d)) == "im";
    FrontFinalTakesU(d, "im");
    assert Graded(d, "im") == "uim";
    RoundedMarksHeKou(d, "uim");
    assert Rounded(d, "uim") == "uim";
    EnteringCase(d);
  }

  lemma ImShape()
    ensures EndsWith("im", "m") && !BackStart("im") && !StartsWith("im", "u")
  {
    assert "im"[1..] == "m";
    assert "im"[..1] == "i";
  }

  lemma XinInitial(d: Syllable)
    requires d.niu == "心" && d.sheng == "平"
    ensures Initial(d) == "s" && Tone(d) == ""
  {
    assert |"心"| == 1 && "心"[0] == '心';
  }

  /** `get韻母`: the local final rewritten step by step. */
  method GetFinal(d: Syllable) returns (f: string)
    ensures f == FinalOf(d)
  {
    var base := StripClass(d.yun);
    f := When(d, RhymeTable);
    if f == "" {
      f := Lookup(SingleFinals, base);
    }
    assert f == BaseFinal(d);
    ghost var before := f;
    if Is(d, "開口") && !EndsWith(f, "m") {
      f := ReplacePrefix(ReplacePrefix(f, "u", "y"), "o", "eo");
    }
    assert f == Unrounded(d, before);
    before := f;
    if Is(d, "三等") || (Is(d, "四等") && StartsWith(f, "ae")) {
      if Is(d, "A類") || (Is(d, "銳音 非 莊組") && FrontStart(f)) {
        if !StartsWith(f, "i") {
          f := "i" + f;
        }
      } else if (if BackStart(f) then Is(d, "開口") else Is(d, "非 合口")) {
        if !StartsWith(f, "y") {
          f := "y" + f;
        }
        f := ReplaceFirst(f, "yeo", "yo");
      } else if !StartsWith(f, "u") {
        f := "u" + f;
      }
    } else if HighStart(f) {
      f := "o" + f;
    }
    assert f == Graded(d, before);
    before := f;
    if Is(d, "合口") && !RoundStart(f) {
      f := "w" + f;
    }
    assert f == Rounded(d, before);
    if Is(d, "入聲") {
      f := ReplaceFirst(ReplaceFirst(ReplaceFirst(f, "ng", "k"), "n", "t"), "m", "p");
    }
  }

  /** `getKwangUnPinyin`: initial, final and tone, concatenated. */
  method GetKwangUnPinyin(d: Syllable) returns (p: string)
    ensures p == Initial(d) + FinalOf(d) + Tone(d)
  {
    var fin := GetFinal(d);
    p := Initial(d) + fin + Tone(d);
  }
}
