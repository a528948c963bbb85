/** The rule-language tokenizer of interp/lex.py.

    The lexer tries, at the cursor, the token rules in the order the PLY
    master pattern lists them: `t_NEWLINE` (`\n+`), `t_SPACE` (`\s+`),
    `t_KANJI` (a maximal word run), then the one-character string rules.
    A word run is retyped by `Classify`; a character no rule matches goes to
    `t_error`, which skips exactly that one character. */
module Lexer {
  import opened Strings

  /** The string whose substrings `t_KANJI` types as VOCAL. */
  const Initials: string := "幫滂並明來端透定泥知徹澄娘精清從心邪莊初崇生俟章昌常書船日見溪群疑以影曉匣云"

  /** The ten words `t_KANJI` retypes to themselves (note EIF, and no ENDIF
      or NOT). */
  const Keywords: seq<string> := ["IF", "THEN", "ELSE", "EIF", "ELIF", "IN", "AND", "OR", "EQ", "DEF"]

  /** `[ɐ-ʯØθȿ]`: the characters that make a word run IPA. */
  predicate IsIpaChar(c: char) {
    (0x250 <= c as int <= 0x2AF) || c as int == 0xD8 || c as int == 0x3B8 || c as int == 0x23F
  }

  predicate IsCjkChar(c: char) {
    (0x4E00 <= c as int <= 0x9FFF) || (0x3400 <= c as int <= 0x4DBF) || (0xF900 <= c as int <= 0xFAFF)
  }

  predicate IsAsciiAlnum(c: char) {
    ('a' <= c <= 'z') || ('A' <= c <= 'Z') || ('0' <= c <= '9')
  }

  /** The character class of `t_KANJI`. */
  predicate IsWordChar(c: char) {
    IsAsciiAlnum(c) || IsCjkChar(c) || IsIpaChar(c)
  }

  /** Python's `\s` on `str` patterns: the characters `str.isspace` accepts. */
  predicate IsPySpace(c: char) {
    var n := c as int;
    (0x09 <= n <= 0x0D) || (0x1C <= n <= 0x20) || n == 0x85 || n == 0xA0 || n == 0x1680 ||
    (0x2000 <= n <= 0x200A) || n == 0x2028 || n == 0x2029 || n == 0x202F || n == 0x205F || n == 0x3000
  }

  /** The token type of the one-character string rules, or "" for a
      character none of them matches. */
  function PunctType(c: char): string {
    if c == '(' then "LPAREN"
    else if c == ')' then "RPAREN"
    else if c == '"' then "QUOTE"
    else if c == '[' then "LBRACKET"
    else if c == ']' then "RBRACKET"
    else if c == '=' then "ASSIGN"
    else if c == ',' then "COMMA"
    else ""
  }

  /** A character some token rule can start with; every other character is
      handed to `t_error`. */
  predicate IsLegal(c: char) {
    c == '\n' || IsPySpace(c) || IsWordChar(c) || PunctType(c) != ""
  }

  predicate HasIpaChar(w: string) {
    exists i :: 0 <= i < |w| && IsIpaChar(w[i])
  }

  /** `t_KANJI`'s retyping of a word run: VOCAL for any substring of
      `Initials`, then a keyword typed as itself, then IPA, then NEWID. */
  function Classify(w: string): (r: string)
    ensures r == "VOCAL" || r == "IPA" || r == "NEWID" || (r in Keywords && r == w)
  {
    if IsSubstring(w, Initials) then "VOCAL"
    else if w in Keywords then w
    else if HasIpaChar(w) then "IPA"
    else "NEWID"
  }

  datatype RunKind = NewlineRun | SpaceRun | WordRun

  predicate InRun(c: char, k: RunKind) {
    match k
    case NewlineRun => c == '\n'
    case SpaceRun => IsPySpace(c)
    case WordRun => IsWordChar(c)
  }

  /** End of the maximal run of `k` characters starting at `i`. */
  function RunEnd(data: string, i: nat, k: RunKind): (j: nat)
    requires i <= |data|
    decreases |data| - i
    ensures i <= j <= |data|
    ensures forall m :: i <= m < j ==> InRun(data[m], k)
    ensures j == |data| || !InRun(data[j], k)
  {
    if i < |data| && InRun(data[i], k) then RunEnd(data, i + 1, k) else i
  }

  /** A PLY token: its type, its text, the line it starts on and its offset. */
  datatype LexToken = LexToken(kind: string, value: string, lineno: nat, lexpos: nat)

  datatype Match = Matched(tok: LexToken, end: nat, lineno: nat) | Illegal

  /** The type a token that starts with `c` gets: NEWLINE for a run of
      newlines, SPACE for a run that starts with other whitespace, the
      `Classify` of a word run, and the rule's own type for a one-character
      token. */
  predicate KindFor(c: char, t: LexToken) {
    (t.kind == "NEWLINE" <==> c == '\n') &&
    (IsPySpace(c) && c != '\n' ==> t.kind == "SPACE") &&
    (IsWordChar(c) ==> t.kind == Classify(t.value)) &&
    (!IsPySpace(c) && !IsWordChar(c) ==> t.kind == PunctType(c) && t.value == [c])
  }

  /** A token has the type its first character calls for. */
  predicate KindFits(t: LexToken) {
    |t.value| > 0 && KindFor(t.value[0], t)
  }

  /** Neither a keyword nor a one-character rule is typed NEWLINE. */
  lemma OnlyNewlineRunsAreNewline(c: char)
    ensures "NEWLINE" !in Keywords && PunctType(c) != "NEWLINE"
  {
  }

  /** One attempt of the master pattern at `pos`. */
  function MatchAt(data: string, pos: nat, lineno: nat): (m: Match)
    requires pos < |data|
    ensures m.Illegal? <==> !IsLegal(data[pos])
    ensures m.Matched? ==> pos < m.end <= |data| && m.tok.lexpos == pos && m.tok.lineno == lineno
    ensures m.Matched? ==> m.tok.value == data[pos..m.end]
  {
    var c := data[pos];
    if c == '\n' then
      var e := RunEnd(data, pos, NewlineRun);
      Matched(LexToken("NEWLINE", data[pos..e], lineno, pos), e, lineno + (e - pos))
    else if IsPySpace(c) then
      var e := RunEnd(data, pos, SpaceRun);
      Matched(LexToken("SPACE", data[pos..e], lineno, pos), e, lineno)
    else if IsWordChar(c) then
      var e := RunEnd(data, pos, WordRun);
      Matched(LexToken(Classify(data[pos..e]), data[pos..e], lineno, pos), e, lineno)
    else if PunctType(c) != "" then
      Matched(LexToken(PunctType(c), [c], lineno, pos), pos + 1, lineno)
    else Illegal
  }

  /** A token gets the type its first character calls for, and only a
      NEWLINE token moves the line counter, by its length. */
  lemma MatchAtKind(data: string, pos: nat, lineno: nat)
    requires pos < |data|
    ensures var m := MatchAt(data, pos, lineno);
      m.Matched? ==>
        KindFor(data[pos], m.tok) && m.lineno == lineno + (if m.tok.kind == "NEWLINE" then |m.tok.value| else 0)
  {
    OnlyNewlineRunsAreNewline(data[pos]);
  }

  /** What one call of `lexer.token()` returns and where it leaves the
      cursor and the line counter. */
  datatype Scan = Scan(tok: Option<LexToken>, pos: nat, lineno: nat)

  function NextToken(data: string, pos: nat, lineno: nat): (s: Scan)
    requires pos <= |data|
    decreases |data| - pos
    ensures pos <= s.pos <= |data|
    ensures s.tok.None? ==> s.pos == |data| && s.lineno == lineno
    ensures s.tok.Some? ==> pos <= s.tok.value.lexpos < s.pos && s.tok.value.lineno == lineno
    ensures s.tok.Some? ==> s.tok.value.value == data[s.tok.value.lexpos..s.pos]
  {
    if pos == |data| then Scan(None, pos, lineno)
    else
      match MatchAt(data, pos, lineno)
      case Illegal => NextToken(data, pos + 1, lineno)
      case Matched(t, e, l) => Scan(Some(t), e, l)
  }

  /** Every token `lexer.token()` yields from `pos` until it returns None. */
  function Tokens(data: string, pos: nat, lineno: nat): (ts: seq<LexToken>)
    requires pos <= |data|
    decreases |data| - pos
    ensures forall k :: 0 <= k < |ts| ==>
      pos <= ts[k].lexpos < ts[k].lexpos + |ts[k].value| <= |data| &&
      ts[k].value == data[ts[k].lexpos..ts[k].lexpos + |ts[k].value|]
  {
    var s := NextToken(data, pos, lineno);
    if s.tok.None? then [] else [s.tok.value] + Tokens(data, s.pos, s.lineno)
  }

  /** What one call of `lexer.token()` returns and where it leaves the
      cursor: the next scan, except that when no token is left the cursor
      goes one past where the scan stopped (and one further on every later
      call). */
  function TokenCall(data: string, pos: nat, lineno: nat): (s: Scan)
    ensures s.tok.None? <==> pos > |data| || NextToken(data, pos, lineno).tok.None?
    ensures s.tok.None? ==> s.pos == (if pos <= |data| then |data| else pos) + 1 && s.lineno == lineno
    ensures s.tok.Some? ==> s == NextToken(data, pos, lineno)
  {
    if pos > |data| then Scan(None, pos + 1, lineno)
    else
      var s := NextToken(data, pos, lineno);
      if s.tok.None? then s.(pos := s.pos + 1) else s
  }

  /** The PLY lexer object: its input, its cursor and its line counter. */
  class Lexer {
    var lexdata: string
    var lexpos: nat
    var lineno: nat

    constructor ()
      ensures lexdata == "" && lexpos == 0 && lineno == 1
    {
      lexdata, lexpos, lineno := "", 0, 1;
    }

    /** `lexer.input(s)`: restarts the cursor; the line counter is kept. */
    method Input(s: string)
      modifies this
      ensures lexdata == s && lexpos == 0 && lineno == old(lineno)
    {
      lexdata, lexpos := s, 0;
    }

    /** `lexer.token()`: the next token, skipping illegal characters one at a
        time, or None at the end of the input, where the cursor is left one
        past the end (and moves one further on every later call). */
    method Token() returns (t: Option<LexToken>)
      modifies this
      ensures lexdata == old(lexdata)
      ensures Scan(t, lexpos, lineno) == TokenCall(lexdata, old(lexpos), old(lineno))
    {
      while lexpos < |lexdata|
        invariant lexdata == old(lexdata) && lineno == old(lineno)
        invariant TokenCall(lexdata, lexpos, lineno) == TokenCall(lexdata, old(lexpos), old(lineno))
        decreases |lexdata| - lexpos
      {
        var c := lexdata[lexpos];
        if c == '\n' {
          var e := RunEnd(lexdata, lexpos, NewlineRun);
          t := Some(LexToken("NEWLINE", lexdata[lexpos..e], lineno, lexpos));
          lexpos := e;
          lineno := lineno + |t.value.value|;
          return;
        } else if IsPySpace(c) {
          var e := RunEnd(lexdata, lexpos, SpaceRun);
          t := Some(LexToken("SPACE", lexdata[lexpos..e], lineno, lexpos));
          lexpos := e;
          return;
        } else if IsWordChar(c) {
          var e := RunEnd(lexdata, lexpos, WordRun);
          var tok := LexToken("KANJI", lexdata[lexpos..e], lineno, lexpos);
          tok := tok.(kind := Classify(tok.value));
          t := Some(tok);
          lexpos := e;
          return;
        } else if PunctType(c) != "" {
          t := Some(LexToken(PunctType(c), [c], lineno, lexpos));
          lexpos := lexpos + 1;
          return;
        }
        // t_error: report and skip this one character
        lexpos := lexpos + 1;
      }
      t := None;
      lexpos := lexpos + 1;
    }
  }

  /** Runs `lexer.token()` on a fresh lexer until it returns None, as the
      tokenizer test does. */
  method Tokenize(data: string) returns (toks: seq<LexToken>)
    ensures toks == Tokens(data, 0, 1)
  {
    var lx := new Lexer();
    lx.Input(data);
    toks := [];
    while true
      invariant lx.lexpos <= |data| && lx.lexdata == data
      invariant toks + Tokens(data, lx.lexpos, lx.lineno) == Tokens(data, 0, 1)
      decreases |data| - lx.lexpos
    {
      var t := lx.Token();
      if t.None? {
        return;
      }
      toks := toks + [t.value];
    }
  }

  // ----- classification -----

  lemma InitialsAreCjk()
    ensures forall k :: 0 <= k < |Initials| ==> IsCjkChar(Initials[k])
  {
  }

  /** A run whose first character is not a CJK ideograph is never VOCAL. */
  lemma NotSubstringOfInitials(w: string)
    requires |w| > 0 && !IsCjkChar(w[0])
    ensures !IsSubstring(w, Initials)
  {
    InitialsAreCjk();
  }

  /** Every single initial glyph is typed VOCAL. */
  lemma SingleInitialIsVocal(i: nat)
    requires i < |Initials|
    ensures Classify([Initials[i]]) == "VOCAL"
  {
    SubstringAt([Initials[i]], Initials, i);
  }

  /** Any contiguous stretch of the initials string is VOCAL, not only a
      single glyph. */
  lemma InitialsStretchIsVocal(i: nat, j: nat)
    requires i < j <= |Initials|
    ensures Classify(Initials[i..j]) == "VOCAL"
  {
    SubstringAt(Initials[i..j], Initials, i);
  }

  /** A keyword of the list is typed as itself, its text unchanged. */
  lemma KeywordTypedAsItself(w: string)
    requires w in Keywords
    ensures Classify(w) == w
  {
    NotSubstringOfInitials(w);
  }

  /** The keywords are spelled in ASCII letters. */
  lemma KeywordsAreAscii(w: string)
    requires w in Keywords
    ensures forall k :: 0 <= k < |w| ==> IsAsciiAlnum(w[k])
  {
  }

  /** A run holding an IPA character is no stretch of the initials string. */
  lemma IpaRunNotVocal(w: string, i: nat)
    requires i < |w| && IsIpaChar(w[i])
    ensures !IsSubstring(w, Initials)
  {
    InitialsAreCjk();
    forall p: nat | OccursAt(Initials, w, p)
      ensures IsCjkChar(w[i])
    {
      assert Initials[p..p + |w|][i] == w[i];
    }
  }

  /** A run that is no VOCAL and no keyword but holds an IPA character is
      IPA; since IPA characters are neither initials nor ASCII, every run
      holding one is IPA. */
  lemma IpaRunIsIpa(w: string, i: nat)
    requires i < |w| && IsIpaChar(w[i])
    ensures Classify(w) == "IPA"
  {
    IpaRunNotVocal(w, i);
    if w in Keywords {
      KeywordsAreAscii(w);
    }
  }

  /** A run of ASCII letters and digits is a keyword or NEWID: digit runs
      like "10" and mixed runs like "a123" are NEWID. */
  lemma AsciiRunIsKeywordOrNewId(w: string)
    requires |w| > 0 && forall k :: 0 <= k < |w| ==> IsAsciiAlnum(w[k])
    ensures Classify(w) == if w in Keywords then w else "NEWID"
  {
    NotSubstringOfInitials(w);
  }

  /** '曉' stands at one place only in the initials string, the last but one. */
  lemma XiaoOnlyAt35(p: nat)
    requires p < |Initials| && Initials[p] == '曉'
    ensures p == 35
  {
  }

  /** "曉" alone is an initial, so it is VOCAL. */
  lemma XiaoIsVocal()
    ensures Classify("曉") == "VOCAL"
  {
    SingleInitialIsVocal(35);
    assert [Initials[35]] == "曉";
  }

  /** "曉" is followed by "匣", not "明", in the initials string. */
  lemma XiaoMingNowhere(p: nat)
    ensures !OccursAt(Initials, "曉明", p)
  {
    if p + 2 <= |Initials| && Initials[p] == '曉' {
      XiaoOnlyAt35(p);
      assert Initials[p..p + 2][1] == Initials[36] != '明';
    }
  }

  /** Two initials that are not neighbours in the initials string form a
      NEWID run: "曉明" is NEWID although "曉" and "明" are each VOCAL. */
  lemma CompoundOfInitialsIsNewId()
    ensures Classify("曉明") == "NEWID"
  {
    XiaoMingNotVocal();
    XiaoMingNotKeyword();
    assert !IsIpaChar("曉明"[0]) && !IsIpaChar("曉明"[1]);
  }

  lemma XiaoMingNotVocal()
    ensures !IsSubstring("曉明", Initials)
  {
    var r := Find(Initials, "曉明");
    if r.Some? {
      XiaoMingNowhere(r.value);
    }
  }

  lemma XiaoMingNotKeyword()
    ensures "曉明" !in Keywords
  {
    assert !IsAsciiAlnum("曉明"[0]);
    if "曉明" in Keywords {
      KeywordsAreAscii("曉明");
    }
  }

  // ----- scanning -----

  /** The texts of the tokens, concatenated. */
  function Concat(ts: seq<LexToken>): string {
    if ts == [] then "" else ts[0].value + Concat(ts[1..])
  }

  /** The input with every character `t_error` would skip removed. */
  function FilterLegal(s: string): string {
    Filter(s, IsLegal)
  }

  /** What a successful match covers: legal characters only, and a word
      token stops where the word characters stop. */
  lemma MatchAtFacts(data: string, pos: nat, lineno: nat)
    requires pos < |data| && MatchAt(data, pos, lineno).Matched?
    ensures var m := MatchAt(data, pos, lineno);
      (forall k :: pos <= k < m.end ==> IsLegal(data[k])) &&
      (IsWordChar(data[pos]) ==> (forall k :: pos <= k < m.end ==> IsWordChar(data[k])) &&
                                 (m.end == |data| || !IsWordChar(data[m.end]))) &&
      (!IsWordChar(data[pos]) ==> !IsWordChar(data[m.end - 1]))
  {
    var c := data[pos];
    if c == '\n' {
      RunFacts(data, pos, NewlineRun);
    } else if IsPySpace(c) {
      RunFacts(data, pos, SpaceRun);
    } else if IsWordChar(c) {
      RunFacts(data, pos, WordRun);
    }
  }

  /** A run of newlines or spaces holds legal non-word characters only; a
      word run holds word characters up to its end. */
  lemma RunFacts(data: string, pos: nat, k: RunKind)
    requires pos < |data| && InRun(data[pos], k)
    ensures var e := RunEnd(data, pos, k);
      (forall m :: pos <= m < e ==> IsLegal(data[m])) &&
      (k == WordRun ==> forall m :: pos <= m < e ==> IsWordChar(data[m])) &&
      (k != WordRun ==> !IsWordChar(data[e - 1]))
  {
    var e := RunEnd(data, pos, k);
    assert InRun(data[e - 1], k);
  }

  /** `lexer.token()` skips only illegal characters before the token it
      returns, and only illegal characters before it reports the end. */
  lemma {:induction false} NextTokenFacts(data: string, pos: nat, lineno: nat)
    requires pos <= |data|
    decreases |data| - pos
    ensures var s := NextToken(data, pos, lineno);
      var start := if s.tok.Some? then s.tok.value.lexpos else |data|;
      (forall k :: pos <= k < start ==> !IsLegal(data[k])) &&
      (s.tok.Some? ==> MatchAt(data, start, lineno) == Matched(s.tok.value, s.pos, s.lineno))
  {
    if pos < |data| && MatchAt(data, pos, lineno).Illegal? {
      NextTokenFacts(data, pos + 1, lineno);
    }
  }

  /** Tokens never overlap and never drop a legal character: their texts,
      in order, spell the input with exactly the illegal characters removed.
      In particular whitespace runs come back as tokens. */
  lemma {:induction false} TokensCoverLegalInput(data: string, pos: nat, lineno: nat)
    requires pos <= |data|
    decreases |data| - pos
    ensures Concat(Tokens(data, pos, lineno)) == FilterLegal(data[pos..])
  {
    var s := NextToken(data, pos, lineno);
    NextTokenFacts(data, pos, lineno);
    if s.tok.None? {
      FilterAll(data[pos..], IsLegal, false);
    } else {
      var t := s.tok.value;
      MatchAtFacts(data, t.lexpos, lineno);
      FilterStep(data, pos, t.lexpos, s.pos, IsLegal);
      TokensCoverLegalInput(data, s.pos, s.lineno);
      var ts := Tokens(data, pos, lineno);
      assert ts == [t] + Tokens(data, s.pos, s.lineno);
      assert ts[1..] == Tokens(data, s.pos, s.lineno);
    }
  }

  /** The cursor does not sit strictly inside a run of word characters. */
  predicate NotMidWord(data: string, pos: nat)
    requires pos <= |data|
  {
    pos == 0 || pos == |data| || !IsWordChar(data[pos - 1]) || !IsWordChar(data[pos])
  }

  /** `t` is a whole word run of `data`: word characters only, with no word
      character just before or just after it. */
  predicate IsMaximalWordRun(data: string, t: LexToken) {
    var e := t.lexpos + |t.value|;
    e <= |data| && t.value == data[t.lexpos..e] &&
    (forall i :: t.lexpos <= i < e ==> IsWordChar(data[i])) &&
    (t.lexpos == 0 || !IsWordChar(data[t.lexpos - 1])) &&
    (e == |data| || !IsWordChar(data[e]))
  }

  /** The boundary argument for one token, stated without the scanner. */
  lemma WordRunStep(data: string, pos: nat, t: LexToken, end: nat)
    requires pos <= t.lexpos < end <= |data| && NotMidWord(data, pos)
    requires t.value == data[t.lexpos..end]
    requires forall k :: pos <= k < t.lexpos ==> !IsWordChar(data[k])
    requires IsWordChar(data[t.lexpos]) ==>
      (forall k :: t.lexpos <= k < end ==> IsWordChar(data[k])) && (end == |data| || !IsWordChar(data[end]))
    requires !IsWordChar(data[t.lexpos]) ==> !IsWordChar(data[end - 1])
    ensures NotMidWord(data, end)
    ensures IsWordChar(t.value[0]) ==> IsMaximalWordRun(data, t)
  {
    assert t.value[0] == data[t.lexpos];
  }

  /** One call of `lexer.token()` from a position outside a word run
      returns a whole word run whenever its token starts with a word
      character, and leaves the cursor outside a word run again. */
  lemma NextTokenWordRun(data: string, pos: nat, lineno: nat)
    requires pos <= |data| && NotMidWord(data, pos)
    requires NextToken(data, pos, lineno).tok.Some?
    ensures var s := NextToken(data, pos, lineno);
      NotMidWord(data, s.pos) &&
      (IsWordChar(s.tok.value.value[0]) ==> IsMaximalWordRun(data, s.tok.value))
  {
    var s := NextToken(data, pos, lineno);
    var t := s.tok.value;
    NextTokenFacts(data, pos, lineno);
    MatchAtFacts(data, t.lexpos, lineno);
    WordRunStep(data, pos, t, s.pos);
  }

  /** Word runs are maximal: a token that starts with a word character is a
      whole word run, so consecutive word characters never land in two
      tokens. */
  lemma {:induction false} WordTokensMaximal(data: string, pos: nat, lineno: nat, k: nat)
    requires pos <= |data| && NotMidWord(data, pos)
    requires k < |Tokens(data, pos, lineno)|
    requires IsWordChar(Tokens(data, pos, lineno)[k].value[0])
    decreases |data| - pos
    ensures IsMaximalWordRun(data, Tokens(data, pos, lineno)[k])
  {
    var ts := Tokens(data, pos, lineno);
    var s := NextToken(data, pos, lineno);
    assert ts == [s.tok.value] + Tokens(data, s.pos, s.lineno);
    NextTokenWordRun(data, pos, lineno);
    if k > 0 {
      assert ts[k] == Tokens(data, s.pos, s.lineno)[k - 1];
      WordTokensMaximal(data, s.pos, s.lineno, k - 1);
    }
  }

  /** A run of n newlines is one NEWLINE token and advances the line
      counter by n. */
  lemma NewlineRunCountsLines(data: string, pos: nat, lineno: nat)
    requires pos < |data| && data[pos] == '\n'
    ensures var s := NextToken(data, pos, lineno);
      s.tok == Some(LexToken("NEWLINE", data[pos..s.pos], lineno, pos)) &&
      s.lineno == lineno + (s.pos - pos) &&
      (forall i :: pos <= i < s.pos ==> data[i] == '\n') &&
      (s.pos == |data| || data[s.pos] != '\n')
  {
  }

  /** An illegal character is skipped alone: it yields no token and the
      scan goes on at the next character with the same line. */
  lemma IllegalCharSkipped(data: string, pos: nat, lineno: nat)
    requires pos < |data| && !IsLegal(data[pos])
    ensures NextToken(data, pos, lineno) == NextToken(data, pos + 1, lineno)
    ensures Tokens(data, pos, lineno) == Tokens(data, pos + 1, lineno)
  {
  }

  /** '=' always yields ASSIGN, and each of ( ) [ ] , " its own
      one-character token. */
  lemma PunctuationTokens(data: string, pos: nat, lineno: nat)
    requires pos < |data| && data[pos] in "=()[],\""
    ensures NextToken(data, pos, lineno) ==
      Scan(Some(LexToken(PunctType(data[pos]), [data[pos]], lineno, pos)), pos + 1, lineno)
    ensures data[pos] == '=' ==> PunctType(data[pos]) == "ASSIGN"
  {
    var c := data[pos];
    PunctuationChar(c);
    assert MatchAt(data, pos, lineno) == Matched(LexToken(PunctType(c), [c], lineno, pos), pos + 1, lineno);
  }

  lemma PunctuationChar(c: char)
    requires c in "=()[],\""
    ensures !IsPySpace(c) && !IsWordChar(c) && c != '\n' && PunctType(c) != ""
    ensures c == '=' ==> PunctType(c) == "ASSIGN"
  {
  }

  /** One step of `Tokens`: the token of the next scan, then the rest. */
  lemma TokensStep(data: string, pos: nat, lineno: nat, t: LexToken, end: nat, line: nat)
    requires pos <= |data| && NextToken(data, pos, lineno) == Scan(Some(t), end, line)
    ensures Tokens(data, pos, lineno) == [t] + Tokens(data, end, line)
  {
  }

  /** '=' is one ASSIGN token whatever follows it. */
  lemma AssignToken(data: string, pos: nat, lineno: nat)
    requires pos < |data| && data[pos] == '='
    ensures NextToken(data, pos, lineno) == Scan(Some(LexToken("ASSIGN", "=", lineno, pos)), pos + 1, lineno)
  {
    PunctuationTokens(data, pos, lineno);
  }

  /** There is no two-character equality token: "= ==" is an ASSIGN, a
      SPACE and two more ASSIGN tokens. */
  lemma NoDoubleEqualsToken()
    ensures Tokens("= ==", 0, 1) == [
      LexToken("ASSIGN", "=", 1, 0), LexToken("SPACE", " ", 1, 1),
      LexToken("ASSIGN", "=", 1, 2), LexToken("ASSIGN", "=", 1, 3)]
  {
    var d := "= ==";
    AssignToken(d, 0, 1);
    TokensStep(d, 0, 1, LexToken("ASSIGN", "=", 1, 0), 1, 1);
    assert RunEnd(d, 1, SpaceRun) == 2 by {
      assert !IsPySpace(d[2]);
    }
    assert MatchAt(d, 1, 1) == Matched(LexToken("SPACE", " ", 1, 1), 2, 1);
    TokensStep(d, 1, 1, LexToken("SPACE", " ", 1, 1), 2, 1);
    AssignToken(d, 2, 1);
    TokensStep(d, 2, 1, LexToken("ASSIGN", "=", 1, 2), 3, 1);
    AssignToken(d, 3, 1);
    TokensStep(d, 3, 1, LexToken("ASSIGN", "=", 1, 3), 4, 1);
    assert Tokens(d, 4, 1) == [];
  }

  /** A run that starts with whitespace other than a newline is one SPACE
      token: it takes the longest whitespace run, newlines included, and
      leaves the line counter unchanged. */
  lemma SpaceRunToken(data: string, pos: nat, lineno: nat)
    requires pos < |data| && IsPySpace(data[pos]) && data[pos] != '\n'
    ensures var s := NextToken(data, pos, lineno);
      s.tok == Some(LexToken("SPACE", data[pos..s.pos], lineno, pos)) && s.lineno == lineno &&
      (forall i :: pos <= i < s.pos ==> IsPySpace(data[i])) &&
      (s.pos == |data| || !IsPySpace(data[s.pos]))
  {
  }

  /** A newline right after other whitespace is swallowed by the SPACE run,
      so it does not advance the line counter. */
  lemma SpaceRunSwallowsNewline(data: string, pos: nat, lineno: nat)
    requires pos + 1 < |data| && IsPySpace(data[pos]) && data[pos] != '\n' && data[pos + 1] == '\n'
    ensures var s := NextToken(data, pos, lineno);
      s.tok.Some? && s.tok.value.kind == "SPACE" && pos + 1 < s.pos && s.lineno == lineno
  {
    SpaceRunToken(data, pos, lineno);
  }

  /** The number of lines the NEWLINE tokens of `ts` span. */
  function NewlinesIn(ts: seq<LexToken>): nat {
    if ts == [] then 0
    else (if ts[0].kind == "NEWLINE" then |ts[0].value| else 0) + NewlinesIn(ts[1..])
  }

  /** Every token has the type its first character calls for, and carries
      the starting line plus the lengths of the NEWLINE tokens before it:
      newlines inside SPACE tokens are never counted. */
  lemma {:induction false} TokenKindsAndLines(data: string, pos: nat, lineno: nat, k: nat)
    requires pos <= |data| && k < |Tokens(data, pos, lineno)|
    decreases |data| - pos
    ensures var ts := Tokens(data, pos, lineno);
      KindFits(ts[k]) && ts[k].lineno == lineno + NewlinesIn(ts[..k])
  {
    var ts := Tokens(data, pos, lineno);
    var s := NextToken(data, pos, lineno);
    NextTokenFacts(data, pos, lineno);
    MatchAtKind(data, s.tok.value.lexpos, lineno);
    var rest := Tokens(data, s.pos, s.lineno);
    assert ts == [s.tok.value] + rest;
    if k > 0 {
      TokenKindsAndLines(data, s.pos, s.lineno, k - 1);
      assert ts[k] == rest[k - 1];
      assert ts[..k][1..] == rest[..k - 1];
    }
  }
}
