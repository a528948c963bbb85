/** The rule-language grammar of interp/yacc.py.

    The LALR grammar with its precedence table is modelled as a
    recursive-descent parser over token sequences: every parse function
    takes the remaining tokens and returns the semantic value the PLY
    action builds together with the tokens it did not consume.  AND and OR
    form one left-associative tier, NOT binds tighter than both, EQ and IN
    join two atoms and do not chain.  A `stmt_block` is a statement
    sequence.  The semantic actions are reproduced as written: `p_expr`
    tests its children in a fixed order, so its quirks (`["not", "NOT"]`,
    the double-wrapped parenthesis, `equal` only for the text "==") are
    part of the model. */
module Parser {

  /** The token types the lexer declares, each with the text PLY hands to
      the actions where the grammar uses it. */
  datatype Token =
    | NEWID(text: string) | VOCAL(text: string) | IPA(text: string) | EQ(text: string)
    | ID(text: string) | KANJI(text: string) | SPACE(text: string) | NEWLINE(text: string)
    | IF | THEN | ELSE | ELIF | ENDIF | END | IN | AND | OR | NOT
    | ASSIGN | LPAREN | RPAREN | LBRACKET | RBRACKET | COMMA | DEF | QUOTE

  /** The values the actions build: a Python string, a Python list, or the
      None an action leaves behind when it only prints a diagnostic. */
  datatype Value = Str(s: string) | Lst(items: seq<Value>) | Nil

  /** A parse fails on a token the grammar does not allow there, or when an
      action indexes a child the production does not have (Python's
      IndexError). */
  datatype ParseError = SyntaxError | ActionIndexError

  datatype Result<T> = Ok(value: T) | Err(error: ParseError) {
    predicate IsFailure() { Err? }
    function PropagateFailure<U>(): Result<U>
      requires Err?
    {
      Err(error)
    }
    function Extract(): T
      requires Ok?
    {
      value
    }
  }

  /** A semantic value and the tokens left after it. */
  datatype Parsed<T> = Parsed(v: T, rest: seq<Token>)

  // ----- the actions -----

  /** `p_expr`'s action on the values of a production's children: the tests
      run in source order on whatever children the production has, and
      indexing a third child that is not there fails. */
  function ExprAction(c: seq<Value>): (r: Result<Value>)
    requires 1 <= |c| <= 3
    ensures |c| == 1 ==> r == Ok(c[0])
    ensures |c| == 3 ==> r.Ok?
    ensures r.Err? ==> |c| == 2 && r.error == ActionIndexError
  {
    if |c| == 1 then Ok(c[0])
    else if c[1] == Str("OR") then
      if |c| < 3 then Err(ActionIndexError) else Ok(Lst([Str("or"), c[0], c[2]]))
    else if c[1] == Str("AND") then
      if |c| < 3 then Err(ActionIndexError) else Ok(Lst([Str("and"), c[0], c[2]]))
    else if c[0] == Str("NOT") then Ok(Lst([Str("not"), c[0]]))
    else if c[1] == Str("==") then
      if |c| < 3 then Err(ActionIndexError) else Ok(Lst([Str("equal"), c[0], c[2]]))
    else if c[1] == Str("IN") then
      if |c| < 3 then Err(ActionIndexError) else Ok(Lst([Str("in"), c[0], c[2]]))
    else if c[0] == Str("(") then
      if |c| < 3 then Err(ActionIndexError)
      else if c[2] == Str(")") then Ok(Lst([Lst([c[1]])]))
      else Ok(Nil)
    else Ok(Nil)
  }

  predicate IsName(t: Token) {
    t.NEWID? || t.VOCAL? || t.IPA?
  }

  predicate StartsStmt(t: Token) {
    t.VOCAL? || t.NEWID? || t == DEF || t == IF
  }

  predicate IsLogic(t: Token) {
    t == OR || t == AND
  }

  predicate IsCompare(t: Token) {
    t.EQ? || t == IN
  }

  /** The text the lexer gives an EQ or IN token. */
  function CompareText(t: Token): string
    requires IsCompare(t)
  {
    if t.EQ? then t.text else "IN"
  }

  // ----- atoms and lists -----

  /** `atom : NEWID | VOCAL | IPA | list`: a name stands for its text. */
  function ParseAtom(ts: seq<Token>): (r: Result<Parsed<Value>>)
    decreases |ts|, 1
    ensures r.Ok? ==> |r.value.rest| < |ts|
  {
    if |ts| == 0 then Err(SyntaxError)
    else if IsName(ts[0]) then Ok(Parsed(Str(ts[0].text), ts[1..]))
    else if ts[0] == LBRACKET then ParseList(ts)
    else Err(SyntaxError)
  }

  /** `list : LBRACKET RBRACKET | LBRACKET atom list_tail`, giving
      `["list", items]`. */
  function ParseList(ts: seq<Token>): (r: Result<Parsed<Value>>)
    decreases |ts|, 0
    ensures r.Ok? ==> |r.value.rest| < |ts|
  {
    if |ts| < 2 || ts[0] != LBRACKET then Err(SyntaxError)
    else if ts[1] == RBRACKET then Ok(Parsed(Lst([Str("list"), Lst([])]), ts[2..]))
    else
      var a :- ParseAtom(ts[1..]);
      var t :- ParseListTail(a.rest);
      Ok(Parsed(Lst([Str("list"), Lst([a.v] + t.v)]), t.rest))
  }

  /** `list_tail : COMMA atom list_tail | RBRACKET`: every comma must be
      followed by an atom. */
  function ParseListTail(ts: seq<Token>): (r: Result<Parsed<seq<Value>>>)
    decreases |ts|, 0
    ensures r.Ok? ==> |r.value.rest| < |ts|
  {
    if |ts| == 0 then Err(SyntaxError)
    else if ts[0] == RBRACKET then Ok(Parsed([], ts[1..]))
    else if ts[0] == COMMA then
      var a :- ParseAtom(ts[1..]);
      var t :- ParseListTail(a.rest);
      Ok(Parsed([a.v] + t.v, t.rest))
    else Err(SyntaxError)
  }

  // ----- expressions -----

  /** The operand tier: `NOT expr`, `LPAREN expr RPAREN`, `atom EQ atom`,
      `atom IN atom` and `atom`.  NOT takes the next operand only, since its
      precedence is the highest. */
  function ParseUnary(ts: seq<Token>): (r: Result<Parsed<Value>>)
    decreases |ts|, 2
    ensures r.Ok? ==> |r.value.rest| < |ts|
  {
    if |ts| == 0 then Err(SyntaxError)
    else if ts[0] == NOT then NotAction(ParseUnary(ts[1..]))
    else if ts[0] == LPAREN then CloseParen(ParseExpr(ts[1..]))
    else ParseOperand(ts)
  }

  /** The action of `NOT expr` once its operand is parsed. */
  function NotAction(r: Result<Parsed<Value>>): (out: Result<Parsed<Value>>)
    ensures out.Ok? ==> r.Ok? && out.value.rest == r.value.rest
  {
    var u :- r;
    var v :- ExprAction([Str("NOT"), u.v]);
    Ok(Parsed(v, u.rest))
  }

  /** The closing parenthesis and the action of `LPAREN expr RPAREN` once
      the inner expression is parsed. */
  function CloseParen(r: Result<Parsed<Value>>): (out: Result<Parsed<Value>>)
    ensures out.Ok? ==> r.Ok? && |out.value.rest| < |r.value.rest|
  {
    var e :- r;
    if |e.rest| > 0 && e.rest[0] == RPAREN then
      WithRest(ExprAction([Str("("), e.v, Str(")")]), e.rest[1..])
    else Err(SyntaxError)
  }

  /** `atom EQ atom`, `atom IN atom` or a lone `atom`. */
  function ParseOperand(ts: seq<Token>): (r: Result<Parsed<Value>>)
    ensures r.Ok? ==> |r.value.rest| < |ts|
  {
    var a :- ParseAtom(ts);
    CompareRest(a.v, a.rest)
  }

  /** After a first atom with value `left`: a comparison with a second atom,
      or the atom alone. */
  function CompareRest(left: Value, ts: seq<Token>): (r: Result<Parsed<Value>>)
    ensures r.Ok? ==> |r.value.rest| <= |ts|
  {
    if |ts| > 0 && IsCompare(ts[0]) then
      var b :- ParseAtom(ts[1..]);
      WithRest(ExprAction([left, Str(CompareText(ts[0])), b.v]), b.rest)
    else WithRest(ExprAction([left]), ts)
  }

  /** `expr`: an operand followed by any number of `OR`/`AND` operands,
      grouped to the left. */
  function ParseExpr(ts: seq<Token>): (r: Result<Parsed<Value>>)
    decreases |ts|, 3
    ensures r.Ok? ==> |r.value.rest| < |ts|
    ensures r.Ok? ==> r.value.rest == [] || !IsLogic(r.value.rest[0])
  {
    var u :- ParseUnary(ts);
    ParseExprTail(u.v, u.rest)
  }

  /** The left-associative OR/AND tier after a left operand with value
      `left`. */
  function ParseExprTail(left: Value, ts: seq<Token>): (r: Result<Parsed<Value>>)
    decreases |ts|, 3
    ensures r.Ok? ==> |r.value.rest| <= |ts|
    ensures r.Ok? ==> r.value.rest == [] || !IsLogic(r.value.rest[0])
  {
    if |ts| > 0 && IsLogic(ts[0]) then
      var u :- ParseUnary(ts[1..]);
      match ExprAction([left, Str(if ts[0] == OR then "OR" else "AND"), u.v])
      case Ok(v) => ParseExprTail(v, u.rest)
      case Err(x) => Err(x)
    else Ok(Parsed(left, ts))
  }

  // ----- statements -----

  /** `statement : assignment | definition | conditional`. */
  function ParseStmt(ts: seq<Token>): (r: Result<Parsed<Value>>)
    decreases |ts|, 0
    ensures r.Ok? ==> |r.value.rest| < |ts|
  {
    if |ts| >= 2 && (ts[0].VOCAL? || ts[0].NEWID?) && ts[1] == ASSIGN then
      AssignAction(ts[0].text, ParseExpr(ts[2..]))
    else if |ts| > 0 && ts[0] == DEF then ParseDefinition(ts)
    else if |ts| >= 2 && ts[0] == IF && ts[1] == LPAREN then
      var c :- ParseExpr(ts[2..]);
      AfterCondition(c.v, c.rest)
    else Err(SyntaxError)
  }

  /** `assignment : VOCAL ASSIGN expr | NEWID ASSIGN expr`, giving
      `["assign", target, value]`. */
  function AssignAction(target: string, r: Result<Parsed<Value>>): (out: Result<Parsed<Value>>)
    ensures out.Ok? ==> r.Ok? && out.value.rest == r.value.rest
  {
    var e :- r;
    Ok(Parsed(Lst([Str("assign"), Str(target), e.v]), e.rest))
  }

  /** `definition : DEF NEWID ASSIGN list | DEF NEWID ASSIGN VOCAL`, giving
      `["definition", name, value]`. */
  function ParseDefinition(ts: seq<Token>): (r: Result<Parsed<Value>>)
    ensures r.Ok? ==> |r.value.rest| < |ts|
  {
    if |ts| < 4 || ts[0] != DEF || !ts[1].NEWID? || ts[2] != ASSIGN then Err(SyntaxError)
    else if ts[3].VOCAL? then
      Ok(Parsed(Lst([Str("definition"), Str(ts[1].text), Str(ts[3].text)]), ts[4..]))
    else
      var l :- ParseList(ts[3..]);
      Ok(Parsed(Lst([Str("definition"), Str(ts[1].text), l.v]), l.rest))
  }

  /** `conditional` after `IF LPAREN expr`: `RPAREN THEN`, the then-block,
      and what closes it. */
  function AfterCondition(cond: Value, ts: seq<Token>): (r: Result<Parsed<Value>>)
    decreases |ts|, 0
    ensures r.Ok? ==> |r.value.rest| < |ts|
  {
    if |ts| >= 2 && ts[0] == RPAREN && ts[1] == THEN then
      var b :- ParseStmtsFrom([], ts[2..]);
      AfterThen(cond, b.v, b.rest)
    else Err(SyntaxError)
  }

  /** `... stmt_block ENDIF`, giving `["if", cond, "then", body]`, or
      `... stmt_block ELSE stmt_block ENDIF`, giving the six-element
      `["if", cond, "then", body, "else", elseBody]`. */
  function AfterThen(cond: Value, body: seq<Value>, ts: seq<Token>): (r: Result<Parsed<Value>>)
    decreases |ts|, 0
    ensures r.Ok? ==> |r.value.rest| < |ts|
  {
    if |ts| > 0 && ts[0] == ENDIF then
      Ok(Parsed(Lst([Str("if"), cond, Str("then"), Lst(body)]), ts[1..]))
    else if |ts| > 0 && ts[0] == ELSE then
      var e :- ParseStmtsFrom([], ts[1..]);
      if |e.rest| > 0 && e.rest[0] == ENDIF then
        Ok(Parsed(Lst([Str("if"), cond, Str("then"), Lst(body), Str("else"), Lst(e.v)]), e.rest[1..]))
      else Err(SyntaxError)
    else Err(SyntaxError)
  }

  /** `stmt_list : stmt_list statement | <empty>`: statements are read while
      one can start, each appended to `acc`. */
  function ParseStmtsFrom(acc: seq<Value>, ts: seq<Token>): (r: Result<Parsed<seq<Value>>>)
    decreases |ts|, 1
    ensures r.Ok? ==> |r.value.rest| <= |ts| && acc <= r.value.v
    ensures r.Ok? ==> r.value.rest == [] || !StartsStmt(r.value.rest[0])
  {
    if |ts| > 0 && StartsStmt(ts[0]) then
      var s :- ParseStmt(ts);
      ParseStmtsFrom(acc + [s.v], s.rest)
    else Ok(Parsed(acc, ts))
  }

  /** `program : stmt_list`, which must use up every token. */
  function ParseProgram(ts: seq<Token>): (r: Result<Value>)
    ensures r.Ok? ==> r.value.Lst?
  {
    var r :- ParseStmtsFrom([], ts);
    if r.rest == [] then Ok(Lst(r.v)) else Err(SyntaxError)
  }

  // ----- the grammar's derivations -----

  datatype NameKind = NewIdName | VocalName | IpaName

  /** A derivation of `atom`. */
  datatype Atom = Name(kind: NameKind, text: string) | List(items: seq<Atom>)

  datatype Compare = EqOp(text: string) | InOp

  datatype Logic = OrOp | AndOp

  /** A derivation of the operand tier. */
  datatype Unary =
    | Not(operand: Unary)
    | Paren(inner: Expr)
    | Single(atom: Atom)
    | Comparison(left: Atom, op: Compare, right: Atom)

  /** A derivation of `expr`: operands joined to the left by OR and AND. */
  datatype Expr = Term(u: Unary) | Binary(left: Expr, op: Logic, right: Unary)

  datatype DefBody = DefList(items: seq<Atom>) | DefVocal(text: string)

  /** A derivation of `statement`; an assignment target is a VOCAL or a
      NEWID. */
  datatype Stmt =
    | Assign(vocal: bool, target: string, value: Expr)
    | Define(name: string, body: DefBody)
    | Cond(cond: Expr, thenBody: seq<Stmt>)
    | CondElse(cond: Expr, thenBody: seq<Stmt>, elseBody: seq<Stmt>)

  // ----- rendering a derivation as tokens -----

  function NameToken(k: NameKind, x: string): Token {
    match k
    case NewIdName => NEWID(x)
    case VocalName => VOCAL(x)
    case IpaName => IPA(x)
  }

  function RenderAtom(a: Atom): seq<Token>
    decreases a, 1
  {
    match a
    case Name(k, x) => [NameToken(k, x)]
    case List(items) =>
      if items == [] then [LBRACKET, RBRACKET]
      else [LBRACKET] + RenderAtom(items[0]) + RenderTail(items[1..])
  }

  /** The tokens of `list_tail` for the remaining items. */
  function RenderTail(items: seq<Atom>): seq<Token>
    decreases items, 0
  {
    if items == [] then [RBRACKET]
    else [COMMA] + RenderAtom(items[0]) + RenderTail(items[1..])
  }

  function CompareToken(op: Compare): Token {
    match op
    case EqOp(t) => EQ(t)
    case InOp => IN
  }

  function LogicToken(op: Logic): Token {
    if op == OrOp then OR else AND
  }

  function RenderUnary(u: Unary): seq<Token> {
    match u
    case Not(x) => [NOT] + RenderUnary(x)
    case Paren(e) => [LPAREN] + RenderExpr(e) + [RPAREN]
    case Single(a) => RenderAtom(a)
    case Comparison(a, op, b) => RenderAtom(a) + [CompareToken(op)] + RenderAtom(b)
  }

  function RenderExpr(e: Expr): seq<Token> {
    match e
    case Term(u) => RenderUnary(u)
    case Binary(l, op, r) => RenderExpr(l) + [LogicToken(op)] + RenderUnary(r)
  }

  function RenderStmt(s: Stmt): seq<Token> {
    match s
    case Assign(vocal, x, e) => [if vocal then VOCAL(x) else NEWID(x), ASSIGN] + RenderExpr(e)
    case Define(n, DefList(items)) => [DEF, NEWID(n), ASSIGN] + RenderAtom(List(items))
    case Define(n, DefVocal(x)) => [DEF, NEWID(n), ASSIGN, VOCAL(x)]
    case Cond(c, t) => [IF, LPAREN] + RenderExpr(c) + [RPAREN, THEN] + RenderStmts(t) + [ENDIF]
    case CondElse(c, t, f) =>
      [IF, LPAREN] + RenderExpr(c) + [RPAREN, THEN] + RenderStmts(t) + [ELSE] + RenderStmts(f) + [ENDIF]
  }

  function RenderStmts(ss: seq<Stmt>): seq<Token> {
    if ss == [] then [] else RenderStmt(ss[0]) + RenderStmts(ss[1..])
  }

  // ----- the value each derivation's actions build -----

  function BuildAtom(a: Atom): Value
    decreases a, 1
  {
    match a
    case Name(_, x) => Str(x)
    case List(items) => Lst([Str("list"), Lst(BuildItems(items))])
  }

  function BuildItems(items: seq<Atom>): seq<Value>
    decreases items, 0
  {
    if items == [] then [] else [BuildAtom(items[0])] + BuildItems(items[1..])
  }

  function OpText(op: Compare): string {
    match op
    case EqOp(t) => t
    case InOp => "IN"
  }

  function LogicText(op: Logic): string {
    if op == OrOp then "OR" else "AND"
  }

  /** The value of `NOT expr` once its operand's value is built. */
  function NotValue(r: Result<Value>): Result<Value> {
    var v :- r;
    ExprAction([Str("NOT"), v])
  }

  /** The value of `LPAREN expr RPAREN` once the inner value is built. */
  function ParenValue(r: Result<Value>): Result<Value> {
    var v :- r;
    ExprAction([Str("("), v, Str(")")])
  }

  function LogicValue(l: Result<Value>, op: Logic, r: Result<Value>): Result<Value> {
    var lv :- l;
    var rv :- r;
    ExprAction([lv, Str(LogicText(op)), rv])
  }

  function AssignValue(x: string, r: Result<Value>): Result<Value> {
    var v :- r;
    Ok(Lst([Str("assign"), Str(x), v]))
  }

  function CondValue(c: Result<Value>, t: Result<seq<Value>>): Result<Value> {
    var cv :- c;
    var tv :- t;
    Ok(Lst([Str("if"), cv, Str("then"), Lst(tv)]))
  }

  function CondElseValue(c: Result<Value>, t: Result<seq<Value>>, f: Result<seq<Value>>): Result<Value> {
    var cv :- c;
    var tv :- t;
    var fv :- f;
    Ok(Lst([Str("if"), cv, Str("then"), Lst(tv), Str("else"), Lst(fv)]))
  }

  function ConsValue(h: Result<Value>, t: Result<seq<Value>>): Result<seq<Value>> {
    var v :- h;
    var vs :- t;
    Ok([v] + vs)
  }

  function BuildUnary(u: Unary): Result<Value> {
    match u
    case Not(x) => NotValue(BuildUnary(x))
    case Paren(e) => ParenValue(BuildExpr(e))
    case Single(a) => ExprAction([BuildAtom(a)])
    case Comparison(a, op, b) => ExprAction([BuildAtom(a), Str(OpText(op)), BuildAtom(b)])
  }

  function BuildExpr(e: Expr): Result<Value> {
    match e
    case Term(u) => BuildUnary(u)
    case Binary(l, op, r) => LogicValue(BuildExpr(l), op, BuildUnary(r))
  }

  function BuildStmt(s: Stmt): Result<Value> {
    match s
    case Assign(_, x, e) => AssignValue(x, BuildExpr(e))
    case Define(n, DefList(items)) => Ok(Lst([Str("definition"), Str(n), BuildAtom(List(items))]))
    case Define(n, DefVocal(x)) => Ok(Lst([Str("definition"), Str(n), Str(x)]))
    case Cond(c, t) => CondValue(BuildExpr(c), BuildStmts(t))
    case CondElse(c, t, f) => CondElseValue(BuildExpr(c), BuildStmts(t), BuildStmts(f))
  }

  function BuildStmts(ss: seq<Stmt>): Result<seq<Value>> {
    if ss == [] then Ok([]) else ConsValue(BuildStmt(ss[0]), BuildStmts(ss[1..]))
  }

  /** A built value paired with the tokens after it, or the build's error. */
  function WithRest(r: Result<Value>, rest: seq<Token>): Result<Parsed<Value>> {
    match r
    case Ok(v) => Ok(Parsed(v, rest))
    case Err(x) => Err(x)
  }

  /** The OR/AND tier continued after a built left operand, or the build's
      error. */
  function TailAfter(r: Result<Value>, rest: seq<Token>): Result<Parsed<Value>> {
    match r
    case Ok(v) => ParseExprTail(v, rest)
    case Err(x) => Err(x)
  }

  /** Built statements appended to those already read, or the build's error. */
  function AppendTo(acc: seq<Value>, r: Result<seq<Value>>, rest: seq<Token>): Result<Parsed<seq<Value>>> {
    match r
    case Ok(vs) => Ok(Parsed(acc + vs, rest))
    case Err(x) => Err(x)
  }

  /** What may follow an operand without being taken into it. */
  predicate NoCompareNext(rest: seq<Token>) {
    rest == [] || !IsCompare(rest[0])
  }

  /** What may follow an expression without extending it. */
  predicate EndsExpr(rest: seq<Token>) {
    rest == [] || !(IsCompare(rest[0]) || IsLogic(rest[0]))
  }

  /** What may follow a statement sequence without extending it. */
  predicate EndsStmts(rest: seq<Token>) {
    rest == [] || !(StartsStmt(rest[0]) || IsCompare(rest[0]) || IsLogic(rest[0]))
  }

  // one branch of a parse function at a time

  lemma UnfoldNot(ts: seq<Token>)
    requires |ts| > 0 && ts[0] == NOT
    ensures ParseUnary(ts) == NotAction(ParseUnary(ts[1..]))
  {
  }

  lemma UnfoldParen(ts: seq<Token>)
    requires |ts| > 0 && ts[0] == LPAREN
    ensures ParseUnary(ts) == CloseParen(ParseExpr(ts[1..]))
  {
  }

  lemma UnfoldOperand(ts: seq<Token>, v: Value, rest: seq<Token>)
    requires |ts| > 0 && ts[0] != NOT && ts[0] != LPAREN
    requires ParseAtom(ts) == Ok(Parsed(v, rest))
    ensures ParseUnary(ts) == CompareRest(v, rest)
  {
  }

  lemma TailStops(v: Value, rest: seq<Token>)
    requires rest == [] || !IsLogic(rest[0])
    ensures ParseExprTail(v, rest) == Ok(Parsed(v, rest))
  {
  }

  lemma UnfoldAssign(ts: seq<Token>)
    requires |ts| >= 2 && (ts[0].VOCAL? || ts[0].NEWID?) && ts[1] == ASSIGN
    ensures ParseStmt(ts) == AssignAction(ts[0].text, ParseExpr(ts[2..]))
  {
  }

  lemma UnfoldDefine(ts: seq<Token>)
    requires |ts| > 0 && ts[0] == DEF
    ensures ParseStmt(ts) == ParseDefinition(ts)
  {
    assert !ts[0].VOCAL? && !ts[0].NEWID?;
  }

  lemma UnfoldIf(ts: seq<Token>, c: Parsed<Value>)
    requires |ts| >= 2 && ts[0] == IF && ts[1] == LPAREN && ParseExpr(ts[2..]) == Ok(c)
    ensures ParseStmt(ts) == AfterCondition(c.v, c.rest)
  {
    assert ts[0] != DEF && !ts[0].VOCAL? && !ts[0].NEWID?;
  }

  lemma UnfoldIfErr(ts: seq<Token>)
    requires |ts| >= 2 && ts[0] == IF && ts[1] == LPAREN && ParseExpr(ts[2..]).Err?
    ensures ParseStmt(ts) == Err(ParseExpr(ts[2..]).error)
  {
    assert ts[0] != DEF && !ts[0].VOCAL? && !ts[0].NEWID?;
  }

  lemma UnfoldThen(cond: Value, ts: seq<Token>, b: Parsed<seq<Value>>)
    requires |ts| >= 2 && ts[0] == RPAREN && ts[1] == THEN && ParseStmtsFrom([], ts[2..]) == Ok(b)
    ensures AfterCondition(cond, ts) == AfterThen(cond, b.v, b.rest)
  {
  }

  lemma UnfoldThenErr(cond: Value, ts: seq<Token>)
    requires |ts| >= 2 && ts[0] == RPAREN && ts[1] == THEN && ParseStmtsFrom([], ts[2..]).Err?
    ensures AfterCondition(cond, ts) == Err(ParseStmtsFrom([], ts[2..]).error)
  {
  }

  lemma UnfoldElse(cond: Value, body: seq<Value>, ts: seq<Token>, e: Parsed<seq<Value>>)
    requires |ts| > 0 && ts[0] == ELSE && ParseStmtsFrom([], ts[1..]) == Ok(e)
    requires |e.rest| > 0 && e.rest[0] == ENDIF
    ensures AfterThen(cond, body, ts) ==
      Ok(Parsed(Lst([Str("if"), cond, Str("then"), Lst(body), Str("else"), Lst(e.v)]), e.rest[1..]))
  {
  }

  lemma UnfoldElseErr(cond: Value, body: seq<Value>, ts: seq<Token>)
    requires |ts| > 0 && ts[0] == ELSE && ParseStmtsFrom([], ts[1..]).Err?
    ensures AfterThen(cond, body, ts) == Err(ParseStmtsFrom([], ts[1..]).error)
  {
  }

  lemma UnfoldMore(acc: seq<Value>, ts: seq<Token>, s: Parsed<Value>)
    requires |ts| > 0 && StartsStmt(ts[0]) && ParseStmt(ts) == Ok(s)
    ensures ParseStmtsFrom(acc, ts) == ParseStmtsFrom(acc + [s.v], s.rest)
  {
  }

  lemma UnfoldMoreErr(acc: seq<Value>, ts: seq<Token>)
    requires |ts| > 0 && StartsStmt(ts[0]) && ParseStmt(ts).Err?
    ensures ParseStmtsFrom(acc, ts) == Err(ParseStmt(ts).error)
  {
  }

  // the shapes of rendered derivations

  lemma RenderAtomStarts(a: Atom)
    ensures |RenderAtom(a)| > 0 && (IsName(RenderAtom(a)[0]) || RenderAtom(a)[0] == LBRACKET)
  {
  }

  lemma RenderStmtStarts(s: Stmt)
    ensures |RenderStmt(s)| > 0 && StartsStmt(RenderStmt(s)[0])
  {
  }

  // ----- parsing a rendered derivation gives its value -----

  lemma {:induction false} AtomRoundTrip(a: Atom, rest: seq<Token>)
    decreases a, 1
    ensures ParseAtom(RenderAtom(a) + rest) == Ok(Parsed(BuildAtom(a), rest))
  {
    match a
    case Name(k, x) =>
      assert (RenderAtom(a) + rest)[1..] == rest;
    case List(items) =>
      if items == [] {
        assert (RenderAtom(a) + rest)[2..] == rest;
      } else {
        var tail := RenderTail(items[1..]) + rest;
        AtomRoundTrip(items[0], tail);
        TailRoundTrip(items[1..], rest);
        ListStep(items, rest);
      }
  }

  /** A non-empty list once its first item and its tail are known to read
      back. */
  lemma ListStep(items: seq<Atom>, rest: seq<Token>)
    requires items != []
    requires ParseAtom(RenderAtom(items[0]) + (RenderTail(items[1..]) + rest)) ==
             Ok(Parsed(BuildAtom(items[0]), RenderTail(items[1..]) + rest))
    requires ParseListTail(RenderTail(items[1..]) + rest) == Ok(Parsed(BuildItems(items[1..]), rest))
    ensures ParseAtom(RenderAtom(List(items)) + rest) == Ok(Parsed(BuildAtom(List(items)), rest))
  {
    ListShape(items, rest);
    ListGeneric(RenderAtom(List(items)) + rest, BuildAtom(items[0]), RenderTail(items[1..]) + rest,
                BuildItems(items[1..]), rest);
  }

  lemma ListShape(items: seq<Atom>, rest: seq<Token>)
    requires items != []
    ensures var ts := RenderAtom(List(items)) + rest;
      |ts| >= 2 && ts[0] == LBRACKET && ts[1] != RBRACKET &&
      ts[1..] == RenderAtom(items[0]) + (RenderTail(items[1..]) + rest)
    ensures BuildAtom(List(items)) == Lst([Str("list"), Lst([BuildAtom(items[0])] + BuildItems(items[1..]))])
  {
    var ts := RenderAtom(List(items)) + rest;
    assert ts[1..] == RenderAtom(items[0]) + (RenderTail(items[1..]) + rest);
    RenderAtomStarts(items[0]);
    assert ts[1] == RenderAtom(items[0])[0];
  }

  lemma ListGeneric(ts: seq<Token>, v: Value, tail: seq<Token>, vs: seq<Value>, rest: seq<Token>)
    requires |ts| >= 2 && ts[0] == LBRACKET && ts[1] != RBRACKET
    requires ParseAtom(ts[1..]) == Ok(Parsed(v, tail)) && ParseListTail(tail) == Ok(Parsed(vs, rest))
    ensures ParseAtom(ts) == Ok(Parsed(Lst([Str("list"), Lst([v] + vs)]), rest))
  {
  }

  lemma {:induction false} TailRoundTrip(items: seq<Atom>, rest: seq<Token>)
    decreases items, 0
    ensures ParseListTail(RenderTail(items) + rest) == Ok(Parsed(BuildItems(items), rest))
  {
    if items == [] {
      assert (RenderTail(items) + rest)[1..] == rest;
    } else {
      var tail := RenderTail(items[1..]) + rest;
      AtomRoundTrip(items[0], tail);
      TailRoundTrip(items[1..], rest);
      TailStep(items, rest);
    }
  }

  /** A list tail with at least one item once that item and the tail after
      it are known to read back. */
  lemma TailStep(items: seq<Atom>, rest: seq<Token>)
    requires items != []
    requires ParseAtom(RenderAtom(items[0]) + (RenderTail(items[1..]) + rest)) ==
             Ok(Parsed(BuildAtom(items[0]), RenderTail(items[1..]) + rest))
    requires ParseListTail(RenderTail(items[1..]) + rest) == Ok(Parsed(BuildItems(items[1..]), rest))
    ensures ParseListTail(RenderTail(items) + rest) == Ok(Parsed(BuildItems(items), rest))
  {
    TailShape(items, rest);
    assert BuildItems(items) == [BuildAtom(items[0])] + BuildItems(items[1..]);
    TailGeneric(RenderTail(items) + rest, BuildAtom(items[0]), RenderTail(items[1..]) + rest,
                BuildItems(items[1..]), rest);
  }

  lemma TailShape(items: seq<Atom>, rest: seq<Token>)
    requires items != []
    ensures var ts := RenderTail(items) + rest;
      |ts| > 0 && ts[0] == COMMA && ts[1..] == RenderAtom(items[0]) + (RenderTail(items[1..]) + rest)
  {
    assert RenderTail(items) == [COMMA] + RenderAtom(items[0]) + RenderTail(items[1..]);
    LeadTokens(COMMA, RenderAtom(items[0]), RenderTail(items[1..]), rest);
  }

  /** `[t] + x + y` followed by `rest`, seen from its second token on. */
  lemma LeadTokens(t: Token, x: seq<Token>, y: seq<Token>, rest: seq<Token>)
    ensures var ts := [t] + x + y + rest; |ts| > 0 && ts[0] == t && ts[1..] == x + (y + rest)
  {
    var ts := [t] + x + y + rest;
    assert ts == [t] + (x + (y + rest));
  }

  lemma TailGeneric(ts: seq<Token>, v: Value, tail: seq<Token>, vs: seq<Value>, rest: seq<Token>)
    requires |ts| > 0 && ts[0] == COMMA
    requires ParseAtom(ts[1..]) == Ok(Parsed(v, tail)) && ParseListTail(tail) == Ok(Parsed(vs, rest))
    ensures ParseListTail(ts) == Ok(Parsed([v] + vs, rest))
  {
  }

  // steps over plain token sequences

  lemma NotGeneric(ts: seq<Token>, r: Result<Value>, rest: seq<Token>)
    requires |ts| > 0 && ts[0] == NOT && ParseUnary(ts[1..]) == WithRest(r, rest)
    ensures ParseUnary(ts) == WithRest(NotValue(r), rest)
  {
    UnfoldNot(ts);
  }

  lemma ParenGeneric(ts: seq<Token>, r: Result<Value>, rest: seq<Token>)
    requires |ts| > 0 && ts[0] == LPAREN && ParseExpr(ts[1..]) == TailAfter(r, [RPAREN] + rest)
    ensures ParseUnary(ts) == WithRest(ParenValue(r), rest)
  {
    UnfoldParen(ts);
    match r
    case Ok(v) =>
      TailStops(v, [RPAREN] + rest);
      assert ([RPAREN] + rest)[1..] == rest;
    case Err(_) =>
  }

  lemma AssignGeneric(ts: seq<Token>, r: Result<Value>, rest: seq<Token>)
    requires |ts| >= 2 && (ts[0].VOCAL? || ts[0].NEWID?) && ts[1] == ASSIGN
    requires ParseExpr(ts[2..]) == WithRest(r, rest)
    ensures ParseStmt(ts) == WithRest(AssignValue(ts[0].text, r), rest)
  {
    UnfoldAssign(ts);
  }

  lemma CondGeneric(ts: seq<Token>, after: seq<Token>, body: seq<Token>, c: Result<Value>, t: Result<seq<Value>>,
                    rest: seq<Token>)
    requires |ts| >= 2 && ts[0] == IF && ts[1] == LPAREN && ParseExpr(ts[2..]) == WithRest(c, after)
    requires |after| >= 2 && after[0] == RPAREN && after[1] == THEN && after[2..] == body
    requires ParseStmtsFrom([], body) == AppendTo([], t, [ENDIF] + rest)
    ensures ParseStmt(ts) == WithRest(CondValue(c, t), rest)
  {
    match c
    case Err(_) =>
      UnfoldIfErr(ts);
    case Ok(cv) =>
      UnfoldIf(ts, Parsed(cv, after));
      match t
      case Err(_) =>
        UnfoldThenErr(cv, after);
      case Ok(tv) =>
        assert [] + tv == tv;
        UnfoldThen(cv, after, Parsed(tv, [ENDIF] + rest));
        assert ([ENDIF] + rest)[1..] == rest;
  }

  lemma CondElseGeneric(ts: seq<Token>, after: seq<Token>, body: seq<Token>, closing: seq<Token>,
                        elseBody: seq<Token>, c: Result<Value>, t: Result<seq<Value>>, f: Result<seq<Value>>,
                        rest: seq<Token>)
    requires |ts| >= 2 && ts[0] == IF && ts[1] == LPAREN && ParseExpr(ts[2..]) == WithRest(c, after)
    requires |after| >= 2 && after[0] == RPAREN && after[1] == THEN && after[2..] == body
    requires ParseStmtsFrom([], body) == AppendTo([], t, closing)
    requires |closing| > 0 && closing[0] == ELSE && closing[1..] == elseBody
    requires ParseStmtsFrom([], elseBody) == AppendTo([], f, [ENDIF] + rest)
    ensures ParseStmt(ts) == WithRest(CondElseValue(c, t, f), rest)
  {
    match c
    case Err(_) =>
      UnfoldIfErr(ts);
    case Ok(cv) =>
      UnfoldIf(ts, Parsed(cv, after));
      match t
      case Err(_) =>
        UnfoldThenErr(cv, after);
      case Ok(tv) =>
        assert [] + tv == tv;
        UnfoldThen(cv, after, Parsed(tv, closing));
        match f
        case Err(_) =>
          UnfoldElseErr(cv, tv, closing);
        case Ok(fv) =>
          assert [] + fv == fv;
          UnfoldElse(cv, tv, closing, Parsed(fv, [ENDIF] + rest));
          assert ([ENDIF] + rest)[1..] == rest;
  }

  lemma MoreGeneric(acc: seq<Value>, ts: seq<Token>, later: seq<Token>, h: Result<Value>, t: Result<seq<Value>>,
                    rest: seq<Token>)
    requires |ts| > 0 && StartsStmt(ts[0]) && ParseStmt(ts) == WithRest(h, later)
    requires h.Ok? ==> ParseStmtsFrom(acc + [h.value], later) == AppendTo(acc + [h.value], t, rest)
    ensures ParseStmtsFrom(acc, ts) == AppendTo(acc, ConsValue(h, t), rest)
  {
    match h
    case Err(_) =>
      UnfoldMoreErr(acc, ts);
    case Ok(v) =>
      UnfoldMore(acc, ts, Parsed(v, later));
      ConsAppend(acc, v, t, rest);
  }

  lemma ConsAppend(acc: seq<Value>, v: Value, t: Result<seq<Value>>, rest: seq<Token>)
    ensures AppendTo(acc + [v], t, rest) == AppendTo(acc, ConsValue(Ok(v), t), rest)
  {
    if t.Ok? {
      assert acc + [v] + t.value == acc + ([v] + t.value);
    }
  }

  // the token shapes of rendered derivations

  lemma NotShape(x: Unary, rest: seq<Token>)
    ensures var ts := RenderUnary(Not(x)) + rest; |ts| > 0 && ts[0] == NOT && ts[1..] == RenderUnary(x) + rest
  {
  }

  lemma ParenShape(e: Expr, rest: seq<Token>)
    ensures var ts := RenderUnary(Paren(e)) + rest;
      |ts| > 0 && ts[0] == LPAREN && ts[1..] == RenderExpr(e) + ([RPAREN] + rest)
  {
  }

  lemma AssignShape(vocal: bool, x: string, e: Expr, rest: seq<Token>)
    ensures var ts := RenderStmt(Assign(vocal, x, e)) + rest;
      |ts| >= 2 && (ts[0].VOCAL? || ts[0].NEWID?) && ts[0].text == x && ts[1] == ASSIGN &&
      ts[2..] == RenderExpr(e) + rest
  {
  }

  /** The tokens of `IF ( e ) THEN t ELSE f ENDIF` followed by `rest`, regrouped
      the way the statement parser consumes them. */
  lemma CondElseTokens(e: seq<Token>, t: seq<Token>, f: seq<Token>, rest: seq<Token>)
    ensures var closing := [ELSE] + (f + ([ENDIF] + rest));
      var after := [RPAREN, THEN] + (t + closing);
      [IF, LPAREN] + e + [RPAREN, THEN] + t + [ELSE] + f + [ENDIF] + rest == [IF, LPAREN] + (e + after) &&
      |after| >= 2 && after[0] == RPAREN && after[1] == THEN && after[2..] == t + closing &&
      |closing| > 0 && closing[0] == ELSE && closing[1..] == f + ([ENDIF] + rest)
  {
  }

  lemma RenderStmtsStart(ss: seq<Stmt>)
    ensures RenderStmts(ss) == [] || StartsStmt(RenderStmts(ss)[0])
  {
    if ss != [] {
      RenderStmtStarts(ss[0]);
    }
  }

  lemma StmtsThenEnd(x: seq<Token>, rest: seq<Token>)
    requires x == [] || StartsStmt(x[0])
    requires EndsStmts(rest)
    ensures EndsExpr(x + rest)
  {
    if x == [] {
      assert x + rest == rest;
    }
  }

  lemma ConsShape(ss: seq<Stmt>, rest: seq<Token>)
    requires ss != []
    ensures RenderStmts(ss) + rest == RenderStmt(ss[0]) + (RenderStmts(ss[1..]) + rest)
    ensures EndsStmts(rest) ==> EndsExpr(RenderStmts(ss[1..]) + rest)
  {
    ConsTokens(RenderStmts(ss), RenderStmt(ss[0]), RenderStmts(ss[1..]), rest);
    RenderStmtsStart(ss[1..]);
    if EndsStmts(rest) {
      StmtsThenEnd(RenderStmts(ss[1..]), rest);
    }
  }

  lemma ConsTokens(all: seq<Token>, head: seq<Token>, tail: seq<Token>, rest: seq<Token>)
    requires all == head + tail
    ensures all + rest == head + (tail + rest)
  {
  }

  // expressions and statements

  lemma SingleStep(a: Atom, rest: seq<Token>)
    requires NoCompareNext(rest)
    ensures ParseUnary(RenderUnary(Single(a)) + rest) == WithRest(BuildUnary(Single(a)), rest)
  {
    var ts := RenderAtom(a) + rest;
    RenderAtomStarts(a);
    AtomRoundTrip(a, rest);
    UnfoldOperand(ts, BuildAtom(a), rest);
  }

  lemma ComparisonStep(a: Atom, op: Compare, b: Atom, rest: seq<Token>)
    ensures ParseUnary(RenderUnary(Comparison(a, op, b)) + rest) == WithRest(BuildUnary(Comparison(a, op, b)), rest)
  {
    var mid := [CompareToken(op)] + (RenderAtom(b) + rest);
    ComparisonShape(a, op, b, rest);
    AtomRoundTrip(a, mid);
    UnfoldOperand(RenderAtom(a) + mid, BuildAtom(a), mid);
    AtomRoundTrip(b, rest);
    CompareRestStep(BuildAtom(a), mid, BuildAtom(b), rest);
  }

  lemma ComparisonShape(a: Atom, op: Compare, b: Atom, rest: seq<Token>)
    ensures var mid := [CompareToken(op)] + (RenderAtom(b) + rest);
      var ts := RenderAtom(a) + mid;
      RenderUnary(Comparison(a, op, b)) + rest == ts && |ts| > 0 && ts[0] != NOT && ts[0] != LPAREN &&
      IsCompare(mid[0]) && CompareText(mid[0]) == OpText(op) && mid[1..] == RenderAtom(b) + rest
  {
    RenderAtomStarts(a);
  }

  lemma CompareRestStep(left: Value, ts: seq<Token>, right: Value, rest: seq<Token>)
    requires |ts| > 0 && IsCompare(ts[0]) && ParseAtom(ts[1..]) == Ok(Parsed(right, rest))
    ensures CompareRest(left, ts) == WithRest(ExprAction([left, Str(CompareText(ts[0])), right]), rest)
  {
  }

  /** Parsing a rendered operand builds its value and stops right after it. */
  lemma {:induction false} UnaryRoundTrip(u: Unary, rest: seq<Token>)
    requires NoCompareNext(rest)
    decreases u, 0
    ensures ParseUnary(RenderUnary(u) + rest) == WithRest(BuildUnary(u), rest)
  {
    match u
    case Not(x) =>
      UnaryRoundTrip(x, rest);
      NotShape(x, rest);
      NotGeneric(RenderUnary(u) + rest, BuildUnary(x), rest);
    case Paren(e) =>
      ExprRoundTrip(e, [RPAREN] + rest);
      ParenShape(e, rest);
      ParenGeneric(RenderUnary(u) + rest, BuildExpr(e), rest);
    case Single(a) =>
      SingleStep(a, rest);
    case Comparison(a, op, b) =>
      ComparisonStep(a, op, b, rest);
  }

  /** Parsing a rendered expression builds its value and then goes on with
      the OR/AND tier on whatever follows. */
  lemma {:induction false} ExprRoundTrip(e: Expr, rest: seq<Token>)
    requires NoCompareNext(rest)
    decreases e, 1
    ensures ParseExpr(RenderExpr(e) + rest) == TailAfter(BuildExpr(e), rest)
  {
    match e
    case Term(u) =>
      UnaryRoundTrip(u, rest);
    case Binary(l, op, r) =>
      var mid := [LogicToken(op)] + (RenderUnary(r) + rest);
      BinaryShape(l, op, r, rest);
      ExprRoundTrip(l, mid);
      UnaryRoundTrip(r, rest);
      LogicGeneric(BuildExpr(l), op, mid, BuildUnary(r), rest);
  }

  lemma BinaryShape(l: Expr, op: Logic, r: Unary, rest: seq<Token>)
    ensures var mid := [LogicToken(op)] + (RenderUnary(r) + rest);
      RenderExpr(Binary(l, op, r)) + rest == RenderExpr(l) + mid && NoCompareNext(mid) &&
      |mid| > 0 && mid[0] == LogicToken(op) && mid[1..] == RenderUnary(r) + rest
    ensures BuildExpr(Binary(l, op, r)) == LogicValue(BuildExpr(l), op, BuildUnary(r))
  {
  }

  lemma UnfoldLogic(left: Value, ts: seq<Token>)
    requires |ts| > 0 && IsLogic(ts[0])
    ensures ParseExprTail(left, ts) ==
      match ParseUnary(ts[1..])
      case Err(x) => Err(x)
      case Ok(u) => TailAfter(ExprAction([left, Str(if ts[0] == OR then "OR" else "AND"), u.v]), u.rest)
  {
  }

  lemma LogicGeneric(l: Result<Value>, op: Logic, ts: seq<Token>, r: Result<Value>, rest: seq<Token>)
    requires |ts| > 0 && ts[0] == LogicToken(op) && ParseUnary(ts[1..]) == WithRest(r, rest)
    ensures TailAfter(l, ts) == TailAfter(LogicValue(l, op, r), rest)
  {
    match l
    case Err(_) =>
    case Ok(lv) =>
      UnfoldLogic(lv, ts);
  }

  /** An expression followed by a token that cannot continue it parses to
      exactly its value. */
  lemma ExprAloneRoundTrip(e: Expr, rest: seq<Token>)
    requires EndsExpr(rest)
    ensures ParseExpr(RenderExpr(e) + rest) == WithRest(BuildExpr(e), rest)
  {
    ExprRoundTrip(e, rest);
    match BuildExpr(e)
    case Ok(v) =>
      TailStops(v, rest);
    case Err(_) =>
  }

  lemma DefineStep(n: string, body: DefBody, rest: seq<Token>)
    ensures ParseStmt(RenderStmt(Define(n, body)) + rest) == WithRest(BuildStmt(Define(n, body)), rest)
  {
    match body
    case DefList(items) =>
      DefineListStep(n, items, rest);
    case DefVocal(x) =>
      DefineVocalStep(n, x, rest);
  }

  lemma DefineVocalStep(n: string, x: string, rest: seq<Token>)
    ensures ParseStmt(RenderStmt(Define(n, DefVocal(x))) + rest) ==
      Ok(Parsed(Lst([Str("definition"), Str(n), Str(x)]), rest))
  {
    var ts := RenderStmt(Define(n, DefVocal(x))) + rest;
    assert RenderStmt(Define(n, DefVocal(x))) == [DEF, NEWID(n), ASSIGN] + [VOCAL(x)];
    ThreeLead(DEF, NEWID(n), ASSIGN, [VOCAL(x)], rest);
    assert ts[3..][1..] == rest;
    UnfoldDefine(ts);
  }

  lemma DefineListStep(n: string, items: seq<Atom>, rest: seq<Token>)
    ensures ParseStmt(RenderStmt(Define(n, DefList(items))) + rest) ==
      Ok(Parsed(Lst([Str("definition"), Str(n), BuildAtom(List(items))]), rest))
  {
    var ts := RenderStmt(Define(n, DefList(items))) + rest;
    assert RenderStmt(Define(n, DefList(items))) == [DEF, NEWID(n), ASSIGN] + RenderAtom(List(items));
    ThreeLead(DEF, NEWID(n), ASSIGN, RenderAtom(List(items)), rest);
    UnfoldDefine(ts);
    AtomRoundTrip(List(items), rest);
  }

  /** Three tokens, then `x`, then `rest`. */
  lemma ThreeLead(a: Token, b: Token, c: Token, x: seq<Token>, rest: seq<Token>)
    ensures var ts := [a, b, c] + x + rest;
      |ts| >= 3 && ts[0] == a && ts[1] == b && ts[2] == c && ts[3..] == x + rest
  {
    var ts := [a, b, c] + x + rest;
    assert ts == [a, b, c] + (x + rest);
  }

  /** Parsing a rendered statement builds its value and stops right after
      it. */
  lemma {:induction false} StmtRoundTrip(s: Stmt, rest: seq<Token>)
    requires EndsExpr(rest)
    decreases s
    ensures ParseStmt(RenderStmt(s) + rest) == WithRest(BuildStmt(s), rest)
  {
    match s
    case Assign(vocal, x, e) =>
      AssignStep(vocal, x, e, rest);
    case Define(n, body) =>
      DefineStep(n, body, rest);
    case Cond(c, t) =>
      StmtsRoundTrip([], t, [ENDIF] + rest);
      CondStep(c, t, rest);
    case CondElse(c, t, f) =>
      StmtsRoundTrip([], t, [ELSE] + (RenderStmts(f) + ([ENDIF] + rest)));
      StmtsRoundTrip([], f, [ENDIF] + rest);
      CondElseStep(c, t, f, rest);
  }

  lemma AssignStep(vocal: bool, x: string, e: Expr, rest: seq<Token>)
    requires EndsExpr(rest)
    ensures ParseStmt(RenderStmt(Assign(vocal, x, e)) + rest) == WithRest(BuildStmt(Assign(vocal, x, e)), rest)
  {
    AssignShape(vocal, x, e, rest);
    ExprAloneRoundTrip(e, rest);
    AssignGeneric(RenderStmt(Assign(vocal, x, e)) + rest, BuildExpr(e), rest);
  }

  lemma CondStep(c: Expr, t: seq<Stmt>, rest: seq<Token>)
    requires ParseStmtsFrom([], RenderStmts(t) + ([ENDIF] + rest)) == AppendTo([], BuildStmts(t), [ENDIF] + rest)
    ensures ParseStmt(RenderStmt(Cond(c, t)) + rest) == WithRest(BuildStmt(Cond(c, t)), rest)
  {
    ExprAloneRoundTrip(c, [RPAREN, THEN] + (RenderStmts(t) + ([ENDIF] + rest)));
    CondTokensRead(RenderExpr(c), RenderStmts(t), rest, BuildExpr(c), BuildStmts(t));
    CondUnfold(c, t);
  }

  lemma CondUnfold(c: Expr, t: seq<Stmt>)
    ensures RenderStmt(Cond(c, t)) == [IF, LPAREN] + RenderExpr(c) + [RPAREN, THEN] + RenderStmts(t) + [ENDIF]
    ensures BuildStmt(Cond(c, t)) == CondValue(BuildExpr(c), BuildStmts(t))
  {
  }

  /** `IF ( e ) THEN body ENDIF` followed by `rest`, regrouped the way the
      statement parser reads it. */
  lemma CondTokens(e: seq<Token>, body: seq<Token>, rest: seq<Token>)
    ensures var after := [RPAREN, THEN] + (body + ([ENDIF] + rest));
      var ts := [IF, LPAREN] + e + [RPAREN, THEN] + body + [ENDIF] + rest;
      |ts| >= 2 && ts[0] == IF && ts[1] == LPAREN && ts[2..] == e + after &&
      |after| >= 2 && after[0] == RPAREN && after[1] == THEN && after[2..] == body + ([ENDIF] + rest)
  {
    var after := [RPAREN, THEN] + (body + ([ENDIF] + rest));
    assert [IF, LPAREN] + e + [RPAREN, THEN] + body + [ENDIF] + rest == [IF, LPAREN] + (e + after);
  }

  /** `IF ( e ) THEN body ENDIF` read back from the parts' readings. */
  lemma CondTokensRead(e: seq<Token>, body: seq<Token>, rest: seq<Token>, c: Result<Value>, t: Result<seq<Value>>)
    requires ParseExpr(e + ([RPAREN, THEN] + (body + ([ENDIF] + rest)))) ==
             WithRest(c, [RPAREN, THEN] + (body + ([ENDIF] + rest)))
    requires ParseStmtsFrom([], body + ([ENDIF] + rest)) == AppendTo([], t, [ENDIF] + rest)
    ensures ParseStmt([IF, LPAREN] + e + [RPAREN, THEN] + body + [ENDIF] + rest) == WithRest(CondValue(c, t), rest)
  {
    var after := [RPAREN, THEN] + (body + ([ENDIF] + rest));
    var ts := [IF, LPAREN] + e + [RPAREN, THEN] + body + [ENDIF] + rest;
    CondTokens(e, body, rest);
    CondGeneric(ts, after, body + ([ENDIF] + rest), c, t, rest);
  }

  lemma CondElseStep(c: Expr, t: seq<Stmt>, f: seq<Stmt>, rest: seq<Token>)
    requires var closing := [ELSE] + (RenderStmts(f) + ([ENDIF] + rest));
      ParseStmtsFrom([], RenderStmts(t) + closing) == AppendTo([], BuildStmts(t), closing)
    requires ParseStmtsFrom([], RenderStmts(f) + ([ENDIF] + rest)) == AppendTo([], BuildStmts(f), [ENDIF] + rest)
    ensures ParseStmt(RenderStmt(CondElse(c, t, f)) + rest) == WithRest(BuildStmt(CondElse(c, t, f)), rest)
  {
    var e, body, elseBody := RenderExpr(c), RenderStmts(t), RenderStmts(f);
    CondElseUnfold(c, t, f);
    ExprAloneRoundTrip(c, [RPAREN, THEN] + (body + ([ELSE] + (elseBody + ([ENDIF] + rest)))));
    CondElseTokensRead(e, body, elseBody, rest, BuildExpr(c), BuildStmts(t), BuildStmts(f));
  }

  lemma CondElseUnfold(c: Expr, t: seq<Stmt>, f: seq<Stmt>)
    ensures RenderStmt(CondElse(c, t, f)) ==
      [IF, LPAREN] + RenderExpr(c) + [RPAREN, THEN] + RenderStmts(t) + [ELSE] + RenderStmts(f) + [ENDIF]
    ensures BuildStmt(CondElse(c, t, f)) == CondElseValue(BuildExpr(c), BuildStmts(t), BuildStmts(f))
  {
  }

  /** `IF ( e ) THEN body ELSE elseBody ENDIF` read back from the parts'
      readings. */
  lemma CondElseTokensRead(e: seq<Token>, body: seq<Token>, elseBody: seq<Token>, rest: seq<Token>,
                           c: Result<Value>, t: Result<seq<Value>>, f: Result<seq<Value>>)
    requires var after := [RPAREN, THEN] + (body + ([ELSE] + (elseBody + ([ENDIF] + rest))));
      ParseExpr(e + after) == WithRest(c, after)
    requires var closing := [ELSE] + (elseBody + ([ENDIF] + rest));
      ParseStmtsFrom([], body + closing) == AppendTo([], t, closing)
    requires ParseStmtsFrom([], elseBody + ([ENDIF] + rest)) == AppendTo([], f, [ENDIF] + rest)
    ensures ParseStmt([IF, LPAREN] + e + [RPAREN, THEN] + body + [ELSE] + elseBody + [ENDIF] + rest) ==
      WithRest(CondElseValue(c, t, f), rest)
  {
    var closing := [ELSE] + (elseBody + ([ENDIF] + rest));
    var after := [RPAREN, THEN] + (body + closing);
    CondElseTokens(e, body, elseBody, rest);
    CondElseGeneric([IF, LPAREN] + e + [RPAREN, THEN] + body + [ELSE] + elseBody + [ENDIF] + rest, after,
                    body + closing, closing, elseBody + ([ENDIF] + rest), c, t, f, rest);
  }

  lemma StmtsStop(acc: seq<Value>, rest: seq<Token>)
    requires EndsStmts(rest)
    ensures ParseStmtsFrom(acc, rest) == Ok(Parsed(acc, rest))
  {
  }

  /** Rendered statements are read back one by one, in order, each value
      appended after those already read. */
  lemma {:induction false} StmtsRoundTrip(acc: seq<Value>, ss: seq<Stmt>, rest: seq<Token>)
    requires EndsStmts(rest)
    decreases ss
    ensures ParseStmtsFrom(acc, RenderStmts(ss) + rest) == AppendTo(acc, BuildStmts(ss), rest)
  {
    if ss == [] {
      assert RenderStmts(ss) + rest == rest;
      assert acc + [] == acc;
      StmtsStop(acc, rest);
    } else {
      var later := RenderStmts(ss[1..]) + rest;
      ConsShape(ss, rest);
      RenderStmtStarts(ss[0]);
      StmtRoundTrip(ss[0], later);
      if BuildStmt(ss[0]).Ok? {
        StmtsRoundTrip(acc + [BuildStmt(ss[0]).value], ss[1..], rest);
      }
      MoreGeneric(acc, RenderStmt(ss[0]) + later, later, BuildStmt(ss[0]), BuildStmts(ss[1..]), rest);
    }
  }

  /** The value of a whole program: its statements' values in order. */
  function BuildProgram(p: seq<Stmt>): Result<Value> {
    match BuildStmts(p)
    case Ok(vs) => Ok(Lst(vs))
    case Err(x) => Err(x)
  }

  /** Every derivation of `program` parses to the value its actions build. */
  lemma ProgramRoundTrip(p: seq<Stmt>)
    ensures ParseProgram(RenderStmts(p)) == BuildProgram(p)
  {
    StmtsRoundTrip([], p, []);
    assert RenderStmts(p) + [] == RenderStmts(p);
    match BuildStmts(p)
    case Ok(vs) =>
      assert [] + vs == vs;
    case Err(_) =>
  }

  // ----- every successful parse reads a derivation -----

  /** The derivation of a name token. */
  function NameOf(t: Token): Atom
    requires IsName(t)
  {
    Name(if t.NEWID? then NewIdName else if t.VOCAL? then VocalName else IpaName, t.text)
  }

  /** The comparison an EQ or IN token stands for. */
  function CompareOf(t: Token): Compare
    requires IsCompare(t)
  {
    if t.EQ? then EqOp(t.text) else InOp
  }

  /** A successful atom parse read the rendering of an atom derivation and
      built that derivation's value. */
  lemma {:induction false} AtomSound(ts: seq<Token>) returns (a: Atom)
    requires ParseAtom(ts).Ok?
    decreases |ts|, 1
    ensures RenderAtom(a) + ParseAtom(ts).value.rest == ts && BuildAtom(a) == ParseAtom(ts).value.v
  {
    if IsName(ts[0]) {
      a := NameOf(ts[0]);
      assert ts == [ts[0]] + ts[1..];
    } else {
      var items := ListSound(ts);
      a := List(items);
    }
  }

  lemma {:induction false} ListSound(ts: seq<Token>) returns (items: seq<Atom>)
    requires ParseList(ts).Ok?
    decreases |ts|, 0
    ensures RenderAtom(List(items)) + ParseList(ts).value.rest == ts
    ensures BuildAtom(List(items)) == ParseList(ts).value.v
  {
    if ts[1] == RBRACKET {
      items := [];
      assert ts == [LBRACKET, RBRACKET] + ts[2..];
    } else {
      UnfoldList(ts);
      var a := ParseAtom(ts[1..]).value;
      var first := AtomSound(ts[1..]);
      var more := TailSound(a.rest);
      items := [first] + more;
      ItemsBack(LBRACKET, ts, first, more, a.rest, ParseListTail(a.rest).value.rest);
      assert RenderAtom(List(items)) == [LBRACKET] + RenderAtom(first) + RenderTail(more);
    }
  }

  lemma UnfoldList(ts: seq<Token>)
    requires ParseList(ts).Ok? && ts[1] != RBRACKET
    ensures ParseAtom(ts[1..]).Ok? && ParseListTail(ParseAtom(ts[1..]).value.rest).Ok?
    ensures var a := ParseAtom(ts[1..]).value; var t := ParseListTail(a.rest).value;
      ParseList(ts).value == Parsed(Lst([Str("list"), Lst([a.v] + t.v)]), t.rest)
  {
  }

  lemma UnfoldTail(ts: seq<Token>)
    requires ParseListTail(ts).Ok? && ts[0] != RBRACKET
    ensures ts[0] == COMMA && ParseAtom(ts[1..]).Ok? && ParseListTail(ParseAtom(ts[1..]).value.rest).Ok?
    ensures var a := ParseAtom(ts[1..]).value; var t := ParseListTail(a.rest).value;
      ParseListTail(ts).value == Parsed([a.v] + t.v, t.rest)
  {
  }

  /** A leading token, the first item and the rest of a list, put back
      together. */
  lemma ItemsBack(lead: Token, ts: seq<Token>, first: Atom, more: seq<Atom>, mid: seq<Token>, rest: seq<Token>)
    requires |ts| > 0 && ts[0] == lead
    requires RenderAtom(first) + mid == ts[1..] && RenderTail(more) + rest == mid
    ensures [lead] + RenderAtom(first) + RenderTail(more) + rest == ts
    ensures var items := [first] + more; items[0] == first && items[1..] == more
    ensures BuildItems([first] + more) == [BuildAtom(first)] + BuildItems(more)
  {
    assert ts == [lead] + ts[1..];
    var items := [first] + more;
    assert items[0] == first && items[1..] == more;
  }

  lemma {:induction false} TailSound(ts: seq<Token>) returns (items: seq<Atom>)
    requires ParseListTail(ts).Ok?
    decreases |ts|, 0
    ensures RenderTail(items) + ParseListTail(ts).value.rest == ts
    ensures BuildItems(items) == ParseListTail(ts).value.v
  {
    if ts[0] == RBRACKET {
      items := [];
      assert ts == [RBRACKET] + ts[1..];
    } else {
      UnfoldTail(ts);
      var a := ParseAtom(ts[1..]).value;
      var first := AtomSound(ts[1..]);
      var more := TailSound(a.rest);
      items := [first] + more;
      ItemsBack(COMMA, ts, first, more, a.rest, ParseListTail(a.rest).value.rest);
      assert RenderTail(items) == [COMMA] + RenderAtom(first) + RenderTail(more);
    }
  }

  /** A successful operand parse read the rendering of an operand
      derivation and built its value. */
  lemma {:induction false} UnarySound(ts: seq<Token>) returns (u: Unary)
    requires ParseUnary(ts).Ok?
    decreases |ts|, 2
    ensures RenderUnary(u) + ParseUnary(ts).value.rest == ts
    ensures BuildUnary(u) == Ok(ParseUnary(ts).value.v)
  {
    if ts[0] == NOT {
      u := NotSound(ts);
    } else if ts[0] == LPAREN {
      u := ParenSound(ts);
    } else {
      u := OperandSound(ts);
    }
  }

  lemma {:induction false} NotSound(ts: seq<Token>) returns (u: Unary)
    requires |ts| > 0 && ts[0] == NOT && ParseUnary(ts).Ok?
    decreases |ts|, 1
    ensures RenderUnary(u) + ParseUnary(ts).value.rest == ts
    ensures BuildUnary(u) == Ok(ParseUnary(ts).value.v)
  {
    UnfoldNot(ts);
    var x := UnarySound(ts[1..]);
    u := Not(x);
    assert ts == [NOT] + ts[1..];
  }

  lemma {:induction false} ParenSound(ts: seq<Token>) returns (u: Unary)
    requires |ts| > 0 && ts[0] == LPAREN && ParseUnary(ts).Ok?
    decreases |ts|, 1
    ensures RenderUnary(u) + ParseUnary(ts).value.rest == ts
    ensures BuildUnary(u) == Ok(ParseUnary(ts).value.v)
  {
    UnfoldParen(ts);
    var inner := ParseExpr(ts[1..]).value;
    var e := ExprSound(ts[1..]);
    u := Paren(e);
    ParenBack(ts, RenderExpr(e), inner.rest);
  }

  /** An operand that is neither NOT nor a parenthesis: an atom, or two
      atoms around EQ or IN. */
  lemma OperandSound(ts: seq<Token>) returns (u: Unary)
    requires |ts| > 0 && ts[0] != NOT && ts[0] != LPAREN && ParseUnary(ts).Ok?
    ensures RenderUnary(u) + ParseUnary(ts).value.rest == ts
    ensures BuildUnary(u) == Ok(ParseUnary(ts).value.v)
  {
    var a := ParseAtom(ts).value;
    var first := AtomSound(ts);
    UnfoldOperand(ts, a.v, a.rest);
    if |a.rest| > 0 && IsCompare(a.rest[0]) {
      u := ComparisonSound(ts, first, a.rest);
    } else {
      u := Single(first);
    }
  }

  /** The comparison case of `OperandSound`: the first atom's derivation,
      then the operator and the second atom. */
  lemma ComparisonSound(ts: seq<Token>, first: Atom, mid: seq<Token>) returns (u: Unary)
    requires RenderAtom(first) + mid == ts && |mid| > 0 && IsCompare(mid[0])
    requires CompareRest(BuildAtom(first), mid).Ok?
    ensures RenderUnary(u) + CompareRest(BuildAtom(first), mid).value.rest == ts
    ensures BuildUnary(u) == Ok(CompareRest(BuildAtom(first), mid).value.v)
  {
    var second := AtomSound(mid[1..]);
    u := Comparison(first, CompareOf(mid[0]), second);
    ComparisonBack(ts, RenderAtom(first), mid, RenderAtom(second), ParseAtom(mid[1..]).value.rest);
  }

  lemma ParenBack(ts: seq<Token>, e: seq<Token>, after: seq<Token>)
    requires |ts| > 0 && ts[0] == LPAREN && e + after == ts[1..] && |after| > 0 && after[0] == RPAREN
    ensures [LPAREN] + e + [RPAREN] + after[1..] == ts
  {
    assert ts == [LPAREN] + ts[1..];
    assert after == [RPAREN] + after[1..];
  }

  lemma ComparisonBack(ts: seq<Token>, a: seq<Token>, mid: seq<Token>, b: seq<Token>, rest: seq<Token>)
    requires a + mid == ts && |mid| > 0 && IsCompare(mid[0]) && b + rest == mid[1..]
    ensures a + [CompareToken(CompareOf(mid[0]))] + b + rest == ts
  {
    assert mid == [mid[0]] + mid[1..];
  }

  /** A successful expression parse read the rendering of an expression
      derivation and built its value. */
  lemma {:induction false} ExprSound(ts: seq<Token>) returns (e: Expr)
    requires ParseExpr(ts).Ok?
    decreases |ts|, 4
    ensures RenderExpr(e) + ParseExpr(ts).value.rest == ts
    ensures BuildExpr(e) == Ok(ParseExpr(ts).value.v)
  {
    var u := ParseUnary(ts).value;
    var first := UnarySound(ts);
    e := ExprTailSound(Term(first), u.v, u.rest);
  }

  /** The OR/AND tier after a left operand derivation `left`: what it reads
      extends `left` to a derivation of the whole expression. */
  lemma {:induction false} ExprTailSound(left: Expr, lv: Value, ts: seq<Token>) returns (e: Expr)
    requires BuildExpr(left) == Ok(lv) && ParseExprTail(lv, ts).Ok?
    decreases |ts|, 3
    ensures RenderExpr(e) + ParseExprTail(lv, ts).value.rest == RenderExpr(left) + ts
    ensures BuildExpr(e) == Ok(ParseExprTail(lv, ts).value.v)
  {
    if |ts| > 0 && IsLogic(ts[0]) {
      UnfoldLogic(lv, ts);
      var u := ParseUnary(ts[1..]).value;
      var right := UnarySound(ts[1..]);
      var op := if ts[0] == OR then OrOp else AndOp;
      var next := Binary(left, op, right);
      var nv := ExprAction([lv, Str(LogicText(op)), u.v]).value;
      e := ExprTailSound(next, nv, u.rest);
      BinaryBack(RenderExpr(left), ts, RenderUnary(right), u.rest);
    } else {
      e := left;
    }
  }

  lemma BinaryBack(l: seq<Token>, ts: seq<Token>, r: seq<Token>, rest: seq<Token>)
    requires |ts| > 0 && r + rest == ts[1..]
    ensures l + [ts[0]] + r + rest == l + ts
  {
    assert ts == [ts[0]] + ts[1..];
  }

  /** A successful statement parse read the rendering of a statement
      derivation and built its value. */
  lemma {:induction false} StmtSound(ts: seq<Token>) returns (s: Stmt)
    requires ParseStmt(ts).Ok?
    decreases |ts|, 0
    ensures RenderStmt(s) + ParseStmt(ts).value.rest == ts
    ensures BuildStmt(s) == Ok(ParseStmt(ts).value.v)
  {
    if |ts| >= 2 && (ts[0].VOCAL? || ts[0].NEWID?) && ts[1] == ASSIGN {
      s := AssignSound(ts);
    } else if ts[0] == DEF {
      s := DefineSound(ts);
    } else {
      var c := ParseExpr(ts[2..]).value;
      UnfoldIf(ts, c);
      var cond := ExprSound(ts[2..]);
      var b := ParseStmtsFrom([], c.rest[2..]).value;
      UnfoldThen(c.v, c.rest, b);
      var body := StmtsSound([], c.rest[2..]);
      assert [] + BuildStmts(body).value == BuildStmts(body).value;
      if b.rest[0] == ENDIF {
        s := Cond(cond, body);
        CondBack(ts, RenderExpr(cond), c.rest, RenderStmts(body), b.rest);
        CondUnfold(cond, body);
      } else {
        var f := ParseStmtsFrom([], b.rest[1..]).value;
        UnfoldElse(c.v, b.v, b.rest, f);
        var elseBody := StmtsSound([], b.rest[1..]);
        assert [] + BuildStmts(elseBody).value == BuildStmts(elseBody).value;
        s := CondElse(cond, body, elseBody);
        CondElseBack(ts, RenderExpr(cond), c.rest, RenderStmts(body), b.rest, RenderStmts(elseBody), f.rest);
        CondElseUnfold(cond, body, elseBody);
      }
    }
  }

  lemma AssignSound(ts: seq<Token>) returns (s: Stmt)
    requires |ts| >= 2 && (ts[0].VOCAL? || ts[0].NEWID?) && ts[1] == ASSIGN && ParseStmt(ts).Ok?
    ensures RenderStmt(s) + ParseStmt(ts).value.rest == ts
    ensures BuildStmt(s) == Ok(ParseStmt(ts).value.v)
  {
    UnfoldAssign(ts);
    s := AssignActionSound(ts);
  }

  lemma AssignActionSound(ts: seq<Token>) returns (s: Stmt)
    requires |ts| >= 2 && (ts[0].VOCAL? || ts[0].NEWID?) && ts[1] == ASSIGN
    requires AssignAction(ts[0].text, ParseExpr(ts[2..])).Ok?
    ensures RenderStmt(s) + AssignAction(ts[0].text, ParseExpr(ts[2..])).value.rest == ts
    ensures BuildStmt(s) == Ok(AssignAction(ts[0].text, ParseExpr(ts[2..])).value.v)
  {
    var p := ParseExpr(ts[2..]).value;
    var e := ExprSound(ts[2..]);
    s := Assign(ts[0].VOCAL?, ts[0].text, e);
    TargetToken(ts[0]);
    AssignBack(ts, RenderExpr(e), p.rest);
  }

  lemma TargetToken(t: Token)
    requires t.VOCAL? || t.NEWID?
    ensures (if t.VOCAL? then VOCAL(t.text) else NEWID(t.text)) == t
  {
  }

  lemma AssignBack(ts: seq<Token>, e: seq<Token>, rest: seq<Token>)
    requires |ts| >= 2 && ts[1] == ASSIGN && e + rest == ts[2..]
    ensures [ts[0], ASSIGN] + e + rest == ts
  {
    assert ts == [ts[0], ts[1]] + ts[2..];
  }

  lemma DefineSound(ts: seq<Token>) returns (s: Stmt)
    requires |ts| > 0 && ts[0] == DEF && ParseStmt(ts).Ok?
    ensures RenderStmt(s) + ParseStmt(ts).value.rest == ts
    ensures BuildStmt(s) == Ok(ParseStmt(ts).value.v)
  {
    UnfoldDefine(ts);
    if ts[3].VOCAL? {
      s := DefineVocalSound(ts);
    } else {
      s := DefineListSound(ts);
    }
  }

  lemma DefineVocalSound(ts: seq<Token>) returns (s: Stmt)
    requires ParseDefinition(ts).Ok? && ts[3].VOCAL?
    ensures RenderStmt(s) + ParseDefinition(ts).value.rest == ts
    ensures BuildStmt(s) == Ok(ParseDefinition(ts).value.v)
  {
    DefineHead(ts);
    s := Define(ts[1].text, DefVocal(ts[3].text));
    assert ts[3..] == [VOCAL(ts[3].text)] + ts[4..];
  }

  lemma DefineListSound(ts: seq<Token>) returns (s: Stmt)
    requires ParseDefinition(ts).Ok? && !ts[3].VOCAL?
    ensures RenderStmt(s) + ParseDefinition(ts).value.rest == ts
    ensures BuildStmt(s) == Ok(ParseDefinition(ts).value.v)
  {
    DefineHead(ts);
    var items := ListSound(ts[3..]);
    s := Define(ts[1].text, DefList(items));
  }

  lemma DefineHead(ts: seq<Token>)
    requires |ts| >= 4 && ts[0] == DEF && ts[1].NEWID? && ts[2] == ASSIGN
    ensures ts == [DEF, NEWID(ts[1].text), ASSIGN] + ts[3..]
  {
  }

  /** `IF ( e ) THEN body ENDIF rest` put back together from the pieces the
      statement parser read. */
  lemma CondBack(ts: seq<Token>, e: seq<Token>, after: seq<Token>, body: seq<Token>, closing: seq<Token>)
    requires |ts| >= 2 && ts[0] == IF && ts[1] == LPAREN && e + after == ts[2..]
    requires |after| >= 2 && after[0] == RPAREN && after[1] == THEN && body + closing == after[2..]
    requires |closing| > 0 && closing[0] == ENDIF
    ensures [IF, LPAREN] + e + [RPAREN, THEN] + body + [ENDIF] + closing[1..] == ts
  {
    IfHeadBack(ts, e, after, body, closing);
    assert closing == [ENDIF] + closing[1..];
  }

  /** `IF ( e ) THEN body` and whatever closes it, put back together. */
  lemma IfHeadBack(ts: seq<Token>, e: seq<Token>, after: seq<Token>, body: seq<Token>, closing: seq<Token>)
    requires |ts| >= 2 && ts[0] == IF && ts[1] == LPAREN && e + after == ts[2..]
    requires |after| >= 2 && after[0] == RPAREN && after[1] == THEN && body + closing == after[2..]
    ensures [IF, LPAREN] + e + [RPAREN, THEN] + body + closing == ts
  {
    assert ts == [IF, LPAREN] + ts[2..];
    assert after == [RPAREN, THEN] + after[2..];
  }

  /** `IF ( e ) THEN body ELSE elseBody ENDIF rest` put back together. */
  lemma CondElseBack(ts: seq<Token>, e: seq<Token>, after: seq<Token>, body: seq<Token>, closing: seq<Token>,
                     elseBody: seq<Token>, last: seq<Token>)
    requires |ts| >= 2 && ts[0] == IF && ts[1] == LPAREN && e + after == ts[2..]
    requires |after| >= 2 && after[0] == RPAREN && after[1] == THEN && body + closing == after[2..]
    requires |closing| > 0 && closing[0] == ELSE && elseBody + last == closing[1..]
    requires |last| > 0 && last[0] == ENDIF
    ensures [IF, LPAREN] + e + [RPAREN, THEN] + body + [ELSE] + elseBody + [ENDIF] + last[1..] == ts
  {
    IfHeadBack(ts, e, after, body, closing);
    assert last == [ENDIF] + last[1..];
    assert closing == [ELSE] + closing[1..];
  }

  /** A successful statement-sequence parse read the rendering of a
      sequence of statement derivations and appended their values, in
      order, to those already read. */
  lemma {:induction false} StmtsSound(acc: seq<Value>, ts: seq<Token>) returns (ss: seq<Stmt>)
    requires ParseStmtsFrom(acc, ts).Ok?
    decreases |ts|, 1
    ensures RenderStmts(ss) + ParseStmtsFrom(acc, ts).value.rest == ts
    ensures BuildStmts(ss).Ok? && acc + BuildStmts(ss).value == ParseStmtsFrom(acc, ts).value.v
  {
    if |ts| > 0 && StartsStmt(ts[0]) {
      if ParseStmt(ts).Err? {
        UnfoldMoreErr(acc, ts);
      }
      var s := ParseStmt(ts).value;
      UnfoldMore(acc, ts, s);
      var first := StmtSound(ts);
      var more := StmtsSound(acc + [s.v], s.rest);
      ss := [first] + more;
      StmtsBack(acc, ss, first, more, s.v, BuildStmts(more).value);
      ConsTokens(RenderStmts(ss), RenderStmt(first), RenderStmts(more), ParseStmtsFrom(acc, ts).value.rest);
    } else {
      ss := [];
      assert acc + [] == acc;
    }
  }

  lemma StmtsBack(acc: seq<Value>, ss: seq<Stmt>, first: Stmt, more: seq<Stmt>, v: Value, vs: seq<Value>)
    requires ss == [first] + more && BuildStmt(first) == Ok(v) && BuildStmts(more) == Ok(vs)
    ensures RenderStmts(ss) == RenderStmt(first) + RenderStmts(more)
    ensures BuildStmts(ss) == Ok([v] + vs) && acc + ([v] + vs) == acc + [v] + vs
  {
    StmtsUnfold(ss, first, more);
    ValuesAppend(acc, v, vs);
  }

  lemma StmtsUnfold(ss: seq<Stmt>, first: Stmt, more: seq<Stmt>)
    requires ss == [first] + more
    ensures RenderStmts(ss) == RenderStmt(first) + RenderStmts(more)
    ensures BuildStmts(ss) == ConsValue(BuildStmt(first), BuildStmts(more))
  {
    assert ss[0] == first && ss[1..] == more;
  }

  lemma ValuesAppend(acc: seq<Value>, v: Value, vs: seq<Value>)
    ensures acc + ([v] + vs) == acc + [v] + vs
  {
  }

  /** Every token sequence the parser accepts as a program is the rendering
      of a program derivation, and the value is the one that derivation's
      actions build. */
  lemma ProgramSound(ts: seq<Token>) returns (p: seq<Stmt>)
    requires ParseProgram(ts).Ok?
    ensures RenderStmts(p) == ts && BuildProgram(p) == ParseProgram(ts)
  {
    p := StmtsSound([], ts);
    assert [] + BuildStmts(p).value == BuildStmts(p).value;
    assert RenderStmts(p) + [] == RenderStmts(p);
  }

  /** The parser accepts exactly the renderings of program derivations whose
      actions all succeed. */
  lemma ProgramAccepted(ts: seq<Token>)
    ensures ParseProgram(ts).Ok? <==> exists p :: RenderStmts(p) == ts && BuildProgram(p).Ok?
  {
    if ParseProgram(ts).Ok? {
      var p := ProgramSound(ts);
    }
    if p :| RenderStmts(p) == ts && BuildProgram(p).Ok? {
      ProgramRoundTrip(p);
    }
  }
}
