# Guangyun rule language and phonology scripts, in Dafny

This project models the core of the guangyun repository. It has two parts.

- **Rule language.** A small language for rules about Middle Chinese initials. Its tokenizer is interp/lex.py and its grammar is interp/yacc.py.
- **Phonology scripts.** Two JavaScript scripts derive readings from a syllable's 纽 (initial), 呼 (mouth), 等 (grade), 韵 (rhyme), 声 (tone) and 摄 (rhyme group).
  - script/kwang-un-pinyin.js gives the Kwang-un pinyin spelling.
  - script/si_hu_converter.js gives the modern 四呼 class.

Files:

- `strings.dfy` (module `Strings`): the JavaScript and Python string operations the sources use, stated over `seq<char>`:
  - prefix and suffix tests;
  - substring search;
  - `replace` with a string pattern (first occurrence only);
  - `split(/\s+/)`, `split(c)` and `trim()`.
- `lexer.dfy` (module `Lexer`): the PLY token rules.
  - `MatchAt` tries them at a position in the master pattern's order: `t_NEWLINE`, `t_SPACE`, `t_KANJI`, then the one-character rules.
  - `Classify` retypes a word run.
  - `NextToken` skips illegal characters one at a time, as `t_error` does.
  - The lexer object is a class `Lexer` with its text, cursor and line counter. Its `Token` method is proved to compute `TokenCall`: `NextToken`, and at the end of input None with the cursor one past the end, as PLY leaves it.
  - `Tokenize` drives it to the end of its input.
- `parser.dfy` (module `Parser`): the grammar as a recursive-descent parser.
  - Each parse function returns the value the PLY action builds and the tokens it leaves. The actions are reproduced as written, including the fixed order of tests in `p_expr`.
  - Derivations of the grammar (`Atom`, `Unary`, `Expr`, `Stmt`) are rendered as tokens. The round-trip lemmas prove that parsing a rendered derivation gives the value its actions build and stops right after it. The soundness lemmas prove the converse: every successful parse read the rendering of a derivation. So the parser accepts exactly the renderings of derivations (`ProgramAccepted`).
- `grammar_facts.dfy` (module `GrammarFacts`): what the grammar promises about the values it builds.
  - The shapes of statements, lists and conditionals.
  - Statement order.
  - The grouping of AND/OR.
  - The quirks of `p_expr`.
- `pinyin.dfy` (module `KwangUnPinyin`): the category language `is`, the first-match selector `when` (a loop method), the initial and tone tables, and the final.
  - `get韻母` is an imperative method (`GetFinal`) proved equal to `FinalOf`. `FinalOf` composes one function per rewriting step of the source, and each step has a lemma saying what it does.
- `sihu.dfy` (module `SiHu`): `calculateSiHu` and its parts, as pure functions.

Behaviour of the code that the proofs bring out:

- The lexer tests "is a substring of the initials string" before the keyword list.
  - Any stretch of adjacent initials, such as "幫滂", is VOCAL.
  - Two initials that are not adjacent in that string, such as "曉明", are NEWID.
- Whitespace runs come back as SPACE and NEWLINE tokens. A newline inside a run that started with a space is swallowed by the SPACE token and does not advance the line counter.
- There is no `==` token. The keyword EQ carries the text "EQ", so `a EQ b` builds None. Only an EQ token whose text is "==" would build `["equal", a, b]`.
- `NOT e` builds `["not", "NOT"]`, dropping its operand. `( e )` builds the double-wrapped `[[e]]`.
- In the pinyin script, `is(data, '非 合口')` splits on whitespace into the bare `非` and `合口`.
  - The bare `非` negates the empty category, which is no case, so it always holds. The whole test therefore means 合口.
  - `銳音 非 莊組` means 銳音 and 莊組, which no initial is.
  - So the sharp-initial branch of the grade marking never fires. 心/開/三/侵/平 reads suim (`XinExample`).
- None of the names `get韻母` hands to `when` is a case of `is`: "脂韻" and the rest fall to `default`. `when` always yields "", and the single-rhyme map decides the base final.
- In the 四呼 converter, rule 4 (open third grade, 知系 initial) comes before rule 5. The 知系 branch inside rule 5 is therefore never reached.
  - Rules 5 (outer branch), 6 and 8 only repeat the basic table's answer.
  - The result departs from the basic table exactly when rule 2, 3, 4 or 7 applies.

The model follows the code as written, not the intent suggested by its comments or names:

- The keywords are the ASCII words of interp/lex.py:55, with EIF and no NOT.
- VOCAL is a substring test.
- Whitespace is returned as tokens.

## Model

| member | source | states |
|---|---|---|
| Lexer.Classify | interp/lex.py:51-61 | a word run is typed VOCAL, IPA, NEWID, or one of the ten keywords typed as itself |
| Lexer.NotSubstringOfInitials | interp/lex.py:53 | a run that starts with a non-CJK character is never a substring of the initials string |
| Lexer.SingleInitialIsVocal | interp/lex.py:53-54 | every single initial glyph is VOCAL |
| Lexer.InitialsStretchIsVocal | interp/lex.py:53-54 | every contiguous stretch of the initials string is VOCAL, not only single glyphs |
| Lexer.XiaoIsVocal | interp/lex.py:53-54 | "曉" is VOCAL |
| Lexer.CompoundOfInitialsIsNewId | interp/lex.py:53-60 | "曉明" is NEWID although each glyph alone is VOCAL |
| Lexer.KeywordTypedAsItself | interp/lex.py:55-56 | a listed keyword is typed as itself |
| Lexer.IpaRunNotVocal | interp/lex.py:53-57 | a run holding an IPA character is never VOCAL |
| Lexer.IpaRunIsIpa | interp/lex.py:57-58 | every run holding an IPA character is IPA |
| Lexer.AsciiRunIsKeywordOrNewId | interp/lex.py:55-60 | a run of ASCII letters and digits is a keyword typed as itself or NEWID |
| Lexer.MatchAt | interp/lex.py:33-65 | a match fails exactly on a character no rule starts with; a token starts at the cursor, carries the current line and spells the input slice it covers |
| Lexer.MatchAtKind | interp/lex.py:33-61 | the token's type follows its first character: NEWLINE exactly for a newline run, SPACE for a run that starts with other whitespace, the `t_KANJI` typing of a word run, the rule's own type for punctuation; only NEWLINE advances the line counter, by its length |
| Lexer.RunEnd | interp/lex.py:43-52 | a run stops at the first character outside the run's class or at the end of input, as the greedy `+` of each pattern does |
| Lexer.NextToken | interp/lex.py:63-65 | the scan moves forward, reports the end only at the end of input, and returns a token that spells the input from its offset |
| Lexer.Tokens | interp/lex.py:210-215 | every token lies inside the input and spells the slice at its offset |
| Lexer.TokenKindsAndLines | interp/lex.py:42-65 | every token of the scan has the type its first character selects, and carries the starting line plus the lengths of the NEWLINE tokens before it |
| Lexer.TokenCall | interp/lex.py:63-67 | one call of the lexer's `token()`: at or past the end of input it gives None and moves the cursor one past the end, keeping the line; otherwise it gives the next token with the new cursor and line |
| Lexer.Lexer.constructor | interp/lex.py:67 | a new lexer has no text, cursor 0 and line 1 |
| Lexer.Lexer.Input | interp/lex.py:210 | `input` installs the text, resets the cursor and keeps the line counter |
| Lexer.Lexer.Token | interp/lex.py:42-67 | `token()` returns what `TokenCall` gives for the lexer's text, cursor and line, and leaves cursor and line counter where it says |
| Lexer.Tokenize | interp/lex.py:210-215 | the token loop returns exactly `Tokens(data, 0, 1)` |
| Lexer.TokensCoverLegalInput | interp/lex.py:42-65 | the token texts, concatenated in order, are the input with exactly the illegal characters removed |
| Lexer.WordTokensMaximal | interp/lex.py:51-52 | a token that starts with a word character is a maximal run of word characters |
| Lexer.NewlineRunCountsLines | interp/lex.py:42-45 | a run of n newlines is one NEWLINE token and advances the line counter by n |
| Lexer.IllegalCharSkipped | interp/lex.py:63-65 | an illegal character yields no token and the scan resumes at the next character |
| Lexer.PunctuationTokens | interp/lex.py:33-39 | each of `( ) " = [ ] ,` is its own one-character token |
| Lexer.AssignToken | interp/lex.py:36 | '=' is one ASSIGN token whatever follows |
| Lexer.NoDoubleEqualsToken | interp/lex.py:36 | "= ==" lexes as ASSIGN, SPACE, ASSIGN, ASSIGN |
| Lexer.SpaceRunToken | interp/lex.py:47-49 | a run that starts with whitespace other than a newline is one SPACE token: all whitespace, maximal, on the current line, and the line counter does not move |
| Lexer.SpaceRunSwallowsNewline | interp/lex.py:42-49 | in any input, a newline right after a whitespace character other than a newline is inside that SPACE token, and the line counter does not move |
| Parser.ExprAction | interp/yacc.py:63-78 | a one-child production passes its child through; a three-child production always builds a value; only the two-child NOT production can index a missing child |
| Parser.ParseAtom | interp/yacc.py:80-85 | a successful atom parse consumes at least one token |
| Parser.ParseList | interp/yacc.py:87-93 | a successful list parse consumes at least one token |
| Parser.ParseListTail | interp/yacc.py:95-103 | a successful list-tail parse consumes at least one token |
| Parser.ParseUnary | interp/yacc.py:58-62 | a successful operand parse consumes at least one token |
| Parser.ParseOperand | interp/yacc.py:59-62 | a successful atom or comparison parse consumes at least one token |
| Parser.CompareRest | interp/yacc.py:59-62 | what follows a first atom never gives back more tokens than it was given |
| Parser.ParseExpr | interp/yacc.py:55-68 | a successful expression parse consumes at least one token and stops only where no OR or AND follows |
| Parser.ParseExprTail | interp/yacc.py:55-68 | the OR/AND tier runs until no OR or AND follows |
| Parser.ParseStmt | interp/yacc.py:24-28 | a successful statement parse consumes at least one token |
| Parser.AssignAction | interp/yacc.py:30-33 | an assignment has a value only when its expression has one, and it leaves what the expression left |
| Parser.ParseDefinition | interp/yacc.py:35-38 | a successful definition parse consumes at least one token |
| Parser.AfterCondition | interp/yacc.py:40-42 | the rest of a conditional after its condition consumes at least one token |
| Parser.AfterThen | interp/yacc.py:40-48 | the close of a conditional after its then-block consumes at least one token |
| Parser.ParseStmtsFrom | interp/yacc.py:16-22 | the statement list keeps the values already read as a prefix and stops only where no statement can start |
| Parser.ParseProgram | interp/yacc.py:12-14 | a program's value is a list |
| Parser.AtomRoundTrip | interp/yacc.py:80-93 | a rendered atom parses to its name's text or `["list", items]` and stops right after it |
| Parser.TailRoundTrip | interp/yacc.py:95-103 | a rendered list tail parses to its items in order |
| Parser.UnaryRoundTrip | interp/yacc.py:55-78 | a rendered NOT, parenthesis, comparison or atom parses to the value the `p_expr` action builds |
| Parser.ExprRoundTrip | interp/yacc.py:55-68 | a rendered expression parses to its value and the OR/AND tier goes on with what follows |
| Parser.ExprAloneRoundTrip | interp/yacc.py:55-68 | an expression followed by a token that cannot continue it parses to exactly its value |
| Parser.StmtRoundTrip | interp/yacc.py:24-48 | a rendered assignment, definition or conditional parses to its action's value |
| Parser.StmtsRoundTrip | interp/yacc.py:16-22 | rendered statements are read one by one, each value appended after the earlier ones |
| Parser.ProgramRoundTrip | interp/yacc.py:12-22 | every derivation of `program` parses to the value its actions build |
| Parser.AtomSound | interp/yacc.py:80-93 | every successful atom parse read the rendering of an atom derivation and built that derivation's value |
| Parser.ListSound | interp/yacc.py:87-93 | every successful list parse read the rendering of a list derivation and built its value |
| Parser.TailSound | interp/yacc.py:95-103 | every successful list-tail parse read the rendering of a sequence of atoms and built their values in order |
| Parser.UnarySound | interp/yacc.py:58-78 | every successful operand parse read the rendering of an operand derivation and built its value |
| Parser.ExprSound | interp/yacc.py:55-78 | every successful expression parse read the rendering of an expression derivation and built its value |
| Parser.ExprTailSound | interp/yacc.py:55-68 | every successful OR/AND tier after a left operand read the rendering of the operators and operands that extend it |
| Parser.StmtSound | interp/yacc.py:24-48 | every successful statement parse read the rendering of a statement derivation and built its value |
| Parser.StmtsSound | interp/yacc.py:16-22 | every successful statement-list parse read the rendering of a sequence of statements and appended their values in order |
| Parser.ProgramSound | interp/yacc.py:12-22 | every accepted token sequence is the rendering of a program derivation and parses to the value that derivation builds |
| Parser.ProgramAccepted | interp/yacc.py:12-22 | the parser accepts a token sequence exactly when it is the rendering of a program derivation whose actions all build a value |
| GrammarFacts.EmptyProgram | interp/yacc.py:12-20 | no tokens is the empty program `[]` |
| GrammarFacts.ProgramStartsWithStatement | interp/yacc.py:12-28 | a program whose first token cannot start a statement is a syntax error |
| GrammarFacts.StmtsInOrder | interp/yacc.py:16-22 | statement values come out one per statement, in source order, and fail exactly when one statement's value fails |
| GrammarFacts.ProgramInOrder | interp/yacc.py:12-22 | a program parses to the list of its statements' values in order |
| GrammarFacts.AssignmentValue | interp/yacc.py:30-33 | `x = e` gives `["assign", x, value]` |
| GrammarFacts.DefinitionOfList | interp/yacc.py:35-38 | `DEF n = [items]` gives `["definition", n, ["list", items]]` |
| GrammarFacts.DefinitionOfVocal | interp/yacc.py:35-38 | `DEF n = VOCAL` gives `["definition", n, vocal]` |
| GrammarFacts.EmptyList | interp/yacc.py:88-91 | `[]` gives `["list", []]` |
| GrammarFacts.ListItemsInOrder | interp/yacc.py:87-99 | list items keep their number and order |
| GrammarFacts.CommaNeedsAtom | interp/yacc.py:95-97 | a comma not followed by an atom is a syntax error |
| GrammarFacts.TrailingCommaRejected | interp/yacc.py:87-99 | a list with a comma before its `]` is rejected, for any number of items and whatever follows |
| GrammarFacts.ConditionalValue | interp/yacc.py:40-46 | `IF ( c ) THEN body ENDIF` gives `["if", c, "then", body]` |
| GrammarFacts.ConditionalElseValue | interp/yacc.py:40-44 | with ELSE it gives the six-element `["if", c, "then", body, "else", elseBody]` |
| GrammarFacts.MissingEndifRejected | interp/yacc.py:40-42 | a then-block closed by neither ENDIF nor ELSE is a syntax error |
| GrammarFacts.LogicValueTree | interp/yacc.py:65-68 | OR gives `["or", l, r]` and AND gives `["and", l, r]` |
| GrammarFacts.LogicGroupsLeft | interp/yacc.py:5-7 | AND and OR share one left-associative level: `x op1 y op2 z` is `op2(op1(x, y), z)` |
| GrammarFacts.NotDiscardsOperand | interp/yacc.py:69-70 | `NOT e` gives `["not", "NOT"]`, dropping the operand |
| GrammarFacts.NotOfOperatorNameFails | interp/yacc.py:63-70 | NOT applied to the bare name OR or AND makes the action index a missing child |
| GrammarFacts.ParenWraps | interp/yacc.py:75-76 | `( e )` gives the double-wrapped `[[e]]` |
| GrammarFacts.EqualOnlyForDoubleEquals | interp/yacc.py:71-78 | `a EQ b` gives `["equal", a, b]` exactly when the operator's text is "==", and None otherwise |
| GrammarFacts.EqKeywordGivesNil | interp/yacc.py:71-78 | the EQ keyword, whose text is "EQ", builds None |
| GrammarFacts.InValue | interp/yacc.py:73-74 | `a IN b` gives `["in", a, b]` |
| GrammarFacts.ComparisonWithNotName | interp/yacc.py:69-70 | a comparison whose left name is NOT builds `["not", "NOT"]` |
| GrammarFacts.LeftoverRejected | interp/yacc.py:12-22 | a statement followed by a token that cannot start another leaves the program rejected |
| GrammarFacts.ChainedComparisonRejected | interp/yacc.py:8 | EQ and IN do not chain: `x = a EQ b EQ c` is not a program |
| KwangUnPinyin.IsEveryPart | script/kwang-un-pinyin.js:24-26 | `is` holds exactly when every field of `category.split(/\s+/)` holds |
| KwangUnPinyin.NegatedRestIsReplace | script/kwang-un-pinyin.js:28-30 | on a part with 非 and no whitespace, dropping the first 非 is `cat.replace('非', '').trim()` |
| KwangUnPinyin.AlternativesAsSplit | script/kwang-un-pinyin.js:32-35 | a part with 或 holds exactly when some trimmed field of `cat.split('或')` holds |
| KwangUnPinyin.Conjunction | script/kwang-un-pinyin.js:25-26 | `a b` holds exactly when the part `a` and the rest `b` both hold |
| KwangUnPinyin.Negation | script/kwang-un-pinyin.js:28-31 | `非w` is the negation of a plain `w` |
| KwangUnPinyin.BareNegationHolds | script/kwang-un-pinyin.js:28-31 | a bare 非 holds for every record |
| KwangUnPinyin.Alternative | script/kwang-un-pinyin.js:32-35 | `a或b` holds exactly when `a` or `b` does |
| KwangUnPinyin.PlainCategory | script/kwang-un-pinyin.js:38-80 | a plain word is decided by the `switch` |
| KwangUnPinyin.UnknownCategoryIsFalse | script/kwang-un-pinyin.js:78-79 | a plain word that is no case label is false |
| KwangUnPinyin.CaseLabel | script/kwang-un-pinyin.js:38-80 | a case label makes its case's test |
| KwangUnPinyin.MouthCases | script/kwang-un-pinyin.js:39-42 | 開口 and 合口 test 呼 |
| KwangUnPinyin.GradeCases | script/kwang-un-pinyin.js:47-50 | 三等 and 四等 test 等 |
| KwangUnPinyin.EnteringCase | script/kwang-un-pinyin.js:57-58 | 入聲 tests 声 |
| KwangUnPinyin.RhymeClasses | script/kwang-un-pinyin.js:59-73 | A and B read the rhyme's suffix; C is third grade, neither A nor B, outside the front-vowel list; no record is in two classes |
| KwangUnPinyin.CaseLookups | script/kwang-un-pinyin.js:70-71 | the nested `is` calls of the C class test 等 and the A/B suffix |
| KwangUnPinyin.SharpNotRetroflex | script/kwang-un-pinyin.js:74-77 | no initial is in both the 銳音 and the 莊組 list |
| KwangUnPinyin.NotHeKouMeansHeKou | script/kwang-un-pinyin.js:192 | `非 合口` holds exactly for 合口 |
| KwangUnPinyin.SharpAndRetroflexNever | script/kwang-un-pinyin.js:185 | `銳音 非 莊組` never holds |
| KwangUnPinyin.When | script/kwang-un-pinyin.js:90-97 | the loop returns the value of the first condition that holds, or "" |
| KwangUnPinyin.FirstMatchIsFirst | script/kwang-un-pinyin.js:90-97 | when condition i is the first that holds, `when` yields its value |
| KwangUnPinyin.FirstMatchNone | script/kwang-un-pinyin.js:90-97 | when no condition holds, `when` yields "" |
| KwangUnPinyin.FirstMatch | script/kwang-un-pinyin.js:90-97 | the result is "" or the value of a condition that holds |
| KwangUnPinyin.RhymeTableNeverMatches | script/kwang-un-pinyin.js:127-151 | the rhyme table handed to `when` never matches, for any record |
| KwangUnPinyin.BaseFinal | script/kwang-un-pinyin.js:124-176 | for every record the base final is the single-rhyme map's entry for the rhyme without its A/B suffix, or "" |
| KwangUnPinyin.Initial | script/kwang-un-pinyin.js:104-116 | the initial is empty exactly for 云 and for an unlisted 纽 |
| KwangUnPinyin.Tone | script/kwang-un-pinyin.js:231-237 | q exactly for 上, h exactly for 去, empty otherwise |
| KwangUnPinyin.UnroundedSpec | script/kwang-un-pinyin.js:178-181 | an open-mouth final not ending in m trades a leading u for y or a leading o for eo; every other final is unchanged |
| KwangUnPinyin.Unrounded | script/kwang-un-pinyin.js:178-181 | the final is unchanged, or its leading u became y, or its leading o became eo; a final ending in m never changes |
| KwangUnPinyin.Graded | script/kwang-un-pinyin.js:183-208 | the final is unchanged or gains one mark (i, u or o in front, or a leading y); i and u are never doubled, and o marks only a final starting y or u |
| KwangUnPinyin.ClassAMark | script/kwang-un-pinyin.js:184-189 | a third-grade class-A final gets exactly one leading i |
| KwangUnPinyin.FrontFinalTakesU | script/kwang-un-pinyin.js:190-201 | a third-grade non-A final outside 合口 (開口 included) not starting with u, o or a (but ae) gets the u mark, added only when absent |
| KwangUnPinyin.ClosedFrontTakesY | script/kwang-un-pinyin.js:190-197 | a closed third-grade non-A final not starting u, o or a (but ae) gets the y mark, then yeo becomes yo |
| KwangUnPinyin.BackFinalsThirdGrade | script/kwang-un-pinyin.js:190-201 | a third-grade non-A final starting u, o or a (not ae) takes y when open (then yeo becomes yo) and u otherwise, each added only when absent |
| KwangUnPinyin.FourthGradeAe | script/kwang-un-pinyin.js:184-201 | a fourth-grade final starting ae takes i in class A, y (then yeo becomes yo) when 合口, u otherwise |
| KwangUnPinyin.YeoBecomesYo | script/kwang-un-pinyin.js:192-196 | a closed third-grade non-A final eo… becomes yo… |
| KwangUnPinyin.OtherGradesMarkHighVowels | script/kwang-un-pinyin.js:203-208 | outside the third grade only a final starting y or u is marked, with o |
| KwangUnPinyin.Rounded | script/kwang-un-pinyin.js:210-213 | the final is unchanged or gains a w before a final not starting u or o; outside 合口 it is unchanged |
| KwangUnPinyin.RoundedMarksHeKou | script/kwang-un-pinyin.js:210-213 | 合口 adds w unless the final starts u or o; afterwards it starts w, u or o; other mouths are unchanged |
| KwangUnPinyin.Checked | script/kwang-un-pinyin.js:215-221 | the final never grows, and outside the entering tone it is unchanged |
| KwangUnPinyin.CheckedCodas | script/kwang-un-pinyin.js:215-221 | in the entering tone the coda ng, n or m becomes k, t or p; other tones keep the final |
| KwangUnPinyin.XinExample | script/kwang-un-pinyin.js:244-246 | 心/開/三/侵/平 has base final im, final uim and spelling suim |
| KwangUnPinyin.GetFinal | script/kwang-un-pinyin.js:123-224 | the step-by-step rewriting returns `FinalOf(d)`: `Checked` of `Rounded` of `Graded` of `Unrounded` of `BaseFinal`, each step characterised above; the grade lemmas together cover every record and final |
| KwangUnPinyin.GetKwangUnPinyin | script/kwang-un-pinyin.js:244-246 | initial, final and tone concatenated |
| SiHu.FirstGroup | script/si_hu_converter.js:64-71 | a group is named only if its list includes the 纽; Unknown exactly when no list does |
| SiHu.FirstGroupIsFirst | script/si_hu_converter.js:64-71 | the first group whose list includes the 纽 is the answer |
| SiHu.ShengNiuGroup | script/si_hu_converter.js:64-71 | Unknown exactly when no group lists the 纽 |
| SiHu.GroupsDisjoint | script/si_hu_converter.js:23-38 | no initial is listed in two groups |
| SiHu.GroupIsUnique | script/si_hu_converter.js:23-71 | an initial listed in a group gets that group |
| SiHu.IsYunbuInCategory | script/si_hu_converter.js:79-81 | an unknown category holds no rhyme |
| SiHu.JiangAndYang | script/si_hu_converter.js:46-48 | jiang holds exactly 江 and yang exactly 陽 |
| SiHu.CalculateSiHuBasic | script/si_hu_converter.js:89-104 | the result is one of the four 四呼 |
| SiHu.BasicFeatures | script/si_hu_converter.js:89-102 | on known inputs, 合 decides rounding (合口呼/撮口呼) and grade 三/四 decides palatality (齊齒呼/撮口呼) |
| SiHu.BasicDefault | script/si_hu_converter.js:103 | any other 呼 or 等 gives 開口呼 |
| SiHu.ApplySpecialRules | script/si_hu_converter.js:116-177 | the result is the given 四呼 or one of the four |
| SiHu.NoRuleKeepsSiHu | script/si_hu_converter.js:116-176 | with no rule applying the given 四呼 comes back; with one applying the result does not depend on it |
| SiHu.OpenSecondGradeVelar | script/si_hu_converter.js:124-129 | rule 2: open second grade with a 見系 initial gives 齊齒呼 whatever the rhyme |
| SiHu.OpenRetroflexRounded | script/si_hu_converter.js:132-137 | rule 3: 莊 + 二 + 江 and 章 + 三 + 陽 give 合口呼, ahead of rule 4 |
| SiHu.OpenThirdGradeRetroflex | script/si_hu_converter.js:140-155 | rule 4: open third grade with a 知系 initial gives 開口呼 whatever the 摄, so rule 5's 知系 branch is dead |
| SiHu.OpenThirdGradeZhiXie | script/si_hu_converter.js:147-155 | rule 5: open third grade in 止 or 蟹 with a non-知系 initial gives 齊齒呼 |
| SiHu.ClosedRules | script/si_hu_converter.js:158-174 | rules 6-8: 合一 帮系 gives 合口呼, 合三 知系 合口呼, 合三 見系 撮口呼 |
| SiHu.CalculateSiHu | script/si_hu_converter.js:188-196 | the result is always one of the four 四呼 |
| SiHu.DepartsFromTable | script/si_hu_converter.js:116-196 | the result differs from the basic table exactly when rule 2, 3, 4 or 7 applies |

## Left out

- PLY's machinery is not modelled: the master regular expression, the LALR table construction, its conflict resolution and its diagnostics. The token rules and the productions are modelled directly.
- The productions are modelled as written, not as a parser the program could build. NOT is used at interp/yacc.py:9 and interp/yacc.py:58 but is missing from `tokens` (interp/lex.py:6-32), so `yacc.yacc()` at interp/yacc.py:105 stops with an error and builds no parser.
- Parser.AfterCondition: a `stmt_block` is parsed as a list of statements, which is what the grammar's language allows. PLY's LALR tables would do otherwise. After THEN, an empty `stmt_list` conflicts with the start of a `statement`, and PLY resolves that by shifting. Under that resolution an empty block gives `[]`, a one-statement block gives that statement's bare value (not a one-element list), and a block of two or more statements is a syntax error.
- Lexer.Lexer.constructor: a new lexer starts with empty text. In PLY, `token()` before `input()` raises, because the text is None. The model's first `Token` call just reports the end of input.
- Lexer.Lexer.Token: does not raise PLY's error for a rule returning an undeclared token type. `t_KANJI` types the word EIF as "EIF", which `tokens` does not declare (it declares ENDIF), so PLY would stop there. The model returns the EIF token.
- `t_error`'s message (the `print`) is not modelled. Only the skip of one character is.
- The demonstration text and the token-printing loop at interp/lex.py:69-215 are not modelled. `Tokenize` models the loop's calls.
- Parsing has no error recovery. There is no `p_error`, and PLY's default recovery (discarding tokens and resynchronising) is not modelled: a syntax error ends the parse. The `print("ERROR AT …")` diagnostics are not modelled either; the None the action leaves is kept as `Nil`.
- The parser reads abstract tokens. Connecting it to the lexer (SPACE and NEWLINE tokens, the undeclared NOT terminal) is not modelled.
- interp/unit_test.py and script/yunlang-main.js are not part of this model. The CommonJS export block of script/si_hu_converter.js:199-209 is module plumbing.
- KwangUnPinyin.Initial: JavaScript object lookups are modelled as map lookups on one-character keys. A 纽 or 韵 naming an `Object.prototype` member (such as "constructor") would, in JavaScript, yield that member; the model yields "". The same holds for KwangUnPinyin.BaseFinal (the single-rhyme map), KwangUnPinyin.Tone and SiHu.IsYunbuInCategory.
- SiHu.IsYunbuInCategory: the source returns `undefined` for an unknown category. Its callers use it only as a condition, so it is modelled as false.
- Rule 1 of script/si_hu_converter.js (open first-grade 歌/铎) is a comment with no code. The 摄 categories zhi, xie, jue and ru_sheng are listed but never consulted, because rule 5 tests the 摄 argument directly.
