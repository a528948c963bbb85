/** What the rule-language grammar of interp/yacc.py promises about the
    values its actions build, stated over the recursive-descent model in
    module Parser: statement order, the shapes of assignments, definitions,
    lists and conditionals, the grouping of AND/OR, and the quirks of the
    `p_expr` action. */
module GrammarFacts {
  import opened Parser

  // ----- programs and statement order -----

  /** An empty token sequence is the empty program. */
  lemma EmptyProgram()
    ensures ParseProgram([]) == Ok(Lst([]))
  {
  }

  /** A program must open with a statement: a leading token that cannot
      start one (an operator, a parenthesis, a bracket) is a syntax error.
      This is why the bare expressions `a AND b OR NOT c` and `((a == b))`
      are not programs. */
  lemma ProgramStartsWithStatement(ts: seq<Token>)
    requires ts != [] && !StartsStmt(ts[0])
    ensures ParseProgram(ts) == Err(SyntaxError)
  {
  }

  /** The statement values of a derivation come out one per statement and
      in source order. */
  lemma {:induction false} StmtsInOrder(ss: seq<Stmt>)
    ensures BuildStmts(ss).Ok? <==> forall i :: 0 <= i < |ss| ==> BuildStmt(ss[i]).Ok?
    ensures BuildStmts(ss).Ok? ==>
      |BuildStmts(ss).value| == |ss| &&
      forall i :: 0 <= i < |ss| ==> BuildStmt(ss[i]) == Ok(BuildStmts(ss).value[i])
  {
    if ss != [] {
      StmtsInOrder(ss[1..]);
      if BuildStmts(ss).Ok? {
        assert BuildStmts(ss).value == [BuildStmt(ss[0]).value] + BuildStmts(ss[1..]).value;
        forall i | 0 <= i < |ss|
          ensures BuildStmt(ss[i]) == Ok(BuildStmts(ss).value[i])
        {
          if i > 0 {
            assert ss[i] == ss[1..][i - 1];
          }
        }
      } else if BuildStmt(ss[0]).Ok? {
        var i :| 0 <= i < |ss[1..]| && !BuildStmt(ss[1..][i]).Ok?;
        assert ss[1..][i] == ss[i + 1];
      }
    }
  }

  /** Parsing a rendered program gives the list of its statements' values,
      in source order. */
  lemma ProgramInOrder(p: seq<Stmt>)
    requires forall i :: 0 <= i < |p| ==> BuildStmt(p[i]).Ok?
    ensures ParseProgram(RenderStmts(p)).Ok?
    ensures var vs := ParseProgram(RenderStmts(p)).value;
      vs.Lst? && |vs.items| == |p| && forall i :: 0 <= i < |p| ==> BuildStmt(p[i]) == Ok(vs.items[i])
  {
    ProgramRoundTrip(p);
    StmtsInOrder(p);
  }

  // ----- assignments and definitions -----

  /** `target = expr` gives `["assign", target, value]`. */
  lemma AssignmentValue(vocal: bool, x: string, e: Expr, v: Value, rest: seq<Token>)
    requires EndsExpr(rest) && BuildExpr(e) == Ok(v)
    ensures ParseStmt(RenderStmt(Assign(vocal, x, e)) + rest) == Ok(Parsed(Lst([Str("assign"), Str(x), v]), rest))
  {
    StmtRoundTrip(Assign(vocal, x, e), rest);
  }

  /** `DEF name = [items]` gives `["definition", name, ["list", items]]`. */
  lemma DefinitionOfList(n: string, items: seq<Atom>, rest: seq<Token>)
    requires EndsExpr(rest)
    ensures ParseStmt(RenderStmt(Define(n, DefList(items))) + rest) ==
      Ok(Parsed(Lst([Str("definition"), Str(n), Lst([Str("list"), Lst(BuildItems(items))])]), rest))
  {
    StmtRoundTrip(Define(n, DefList(items)), rest);
  }

  /** `DEF name = VOCAL` gives `["definition", name, vocal]`. */
  lemma DefinitionOfVocal(n: string, x: string, rest: seq<Token>)
    requires EndsExpr(rest)
    ensures ParseStmt(RenderStmt(Define(n, DefVocal(x))) + rest) ==
      Ok(Parsed(Lst([Str("definition"), Str(n), Str(x)]), rest))
  {
    StmtRoundTrip(Define(n, DefVocal(x)), rest);
  }

  // ----- lists -----

  lemma EmptyList(rest: seq<Token>)
    ensures ParseAtom([LBRACKET, RBRACKET] + rest) == Ok(Parsed(Lst([Str("list"), Lst([])]), rest))
  {
  }

  /** The items of a list keep their source order. */
  lemma {:induction false} ListItemsInOrder(items: seq<Atom>)
    ensures |BuildItems(items)| == |items|
    ensures forall i :: 0 <= i < |items| ==> BuildItems(items)[i] == BuildAtom(items[i])
  {
    if items != [] {
      ListItemsInOrder(items[1..]);
      forall i | 0 < i < |items|
        ensures BuildItems(items)[i] == BuildAtom(items[i])
      {
        assert items[i] == items[1..][i - 1];
      }
    }
  }

  /** Every COMMA must be followed by an atom. */
  lemma CommaNeedsAtom(ts: seq<Token>)
    requires |ts| > 0 && ts[0] == COMMA
    requires |ts| == 1 || !(IsName(ts[1]) || ts[1] == LBRACKET)
    ensures ParseListTail(ts) == Err(SyntaxError)
  {
  }

  /** The tokens `, a1 , a2 ... , an` of the items after the first, without
      the closing bracket. */
  function CommaItems(items: seq<Atom>): (ts: seq<Token>)
    ensures ts + [RBRACKET] == RenderTail(items)
  {
    if items == [] then []
    else
      var ts := [COMMA] + RenderAtom(items[0]) + CommaItems(items[1..]);
      assert ts + [RBRACKET] == [COMMA] + RenderAtom(items[0]) + (CommaItems(items[1..]) + [RBRACKET]);
      ts
  }

  /** Items in front of a list tail that fails make the whole tail fail. */
  lemma {:induction false} CommaItemsKeepError(items: seq<Atom>, tail: seq<Token>)
    requires ParseListTail(tail) == Err(SyntaxError)
    ensures ParseListTail(CommaItems(items) + tail) == Err(SyntaxError)
  {
    if items == [] {
      assert CommaItems(items) + tail == tail;
    } else {
      var later := CommaItems(items[1..]) + tail;
      CommaItemsKeepError(items[1..], tail);
      assert CommaItems(items) == [COMMA] + RenderAtom(items[0]) + CommaItems(items[1..]);
      LeadTokens(COMMA, RenderAtom(items[0]), CommaItems(items[1..]), tail);
      AtomRoundTrip(items[0], later);
      TailError(CommaItems(items) + tail, BuildAtom(items[0]), later);
    }
  }

  lemma TailError(ts: seq<Token>, v: Value, later: seq<Token>)
    requires |ts| > 0 && ts[0] == COMMA
    requires ParseAtom(ts[1..]) == Ok(Parsed(v, later)) && ParseListTail(later) == Err(SyntaxError)
    ensures ParseListTail(ts) == Err(SyntaxError)
  {
  }

  lemma ListError(ts: seq<Token>, v: Value, later: seq<Token>)
    requires |ts| >= 2 && ts[0] == LBRACKET && ts[1] != RBRACKET
    requires ParseAtom(ts[1..]) == Ok(Parsed(v, later)) && ParseListTail(later) == Err(SyntaxError)
    ensures ParseAtom(ts) == Err(SyntaxError)
  {
  }

  /** So a list whose last item, of however many, is followed by a comma is
      rejected. */
  lemma TrailingCommaRejected(first: Atom, items: seq<Atom>, rest: seq<Token>)
    ensures ParseAtom([LBRACKET] + RenderAtom(first) + CommaItems(items) + [COMMA, RBRACKET] + rest) ==
      Err(SyntaxError)
  {
    var tail := [COMMA, RBRACKET] + rest;
    var later := CommaItems(items) + tail;
    var ts := [LBRACKET] + RenderAtom(first) + CommaItems(items) + [COMMA, RBRACKET] + rest;
    assert ts == [LBRACKET] + RenderAtom(first) + CommaItems(items) + tail;
    LeadTokens(LBRACKET, RenderAtom(first), CommaItems(items), tail);
    RenderAtomStarts(first);
    assert ts[1] == RenderAtom(first)[0];
    AtomRoundTrip(first, later);
    CommaNeedsAtom(tail);
    CommaItemsKeepError(items, tail);
    ListError(ts, BuildAtom(first), later);
  }

  // ----- conditionals -----

  /** `IF ( cond ) THEN body ENDIF` gives the four-element
      `["if", cond, "then", body]`. */
  lemma ConditionalValue(c: Expr, t: seq<Stmt>, cv: Value, tv: seq<Value>, rest: seq<Token>)
    requires EndsExpr(rest) && BuildExpr(c) == Ok(cv) && BuildStmts(t) == Ok(tv)
    ensures ParseStmt(RenderStmt(Cond(c, t)) + rest) ==
      Ok(Parsed(Lst([Str("if"), cv, Str("then"), Lst(tv)]), rest))
  {
    StmtRoundTrip(Cond(c, t), rest);
  }

  /** With an ELSE block it gives the six-element
      `["if", cond, "then", body, "else", elseBody]`. */
  lemma ConditionalElseValue(c: Expr, t: seq<Stmt>, f: seq<Stmt>, cv: Value, tv: seq<Value>, fv: seq<Value>,
                             rest: seq<Token>)
    requires EndsExpr(rest) && BuildExpr(c) == Ok(cv) && BuildStmts(t) == Ok(tv) && BuildStmts(f) == Ok(fv)
    ensures ParseStmt(RenderStmt(CondElse(c, t, f)) + rest) ==
      Ok(Parsed(Lst([Str("if"), cv, Str("then"), Lst(tv), Str("else"), Lst(fv)]), rest))
  {
    StmtRoundTrip(CondElse(c, t, f), rest);
  }

  /** A then-block that is closed by neither ENDIF nor ELSE is a syntax
      error. */
  lemma MissingEndifRejected(c: Expr, t: seq<Stmt>, cv: Value, tv: seq<Value>, rest: seq<Token>)
    requires BuildExpr(c) == Ok(cv) && BuildStmts(t) == Ok(tv)
    requires EndsStmts(rest) && (rest == [] || (rest[0] != ENDIF && rest[0] != ELSE))
    ensures ParseStmt([IF, LPAREN] + RenderExpr(c) + [RPAREN, THEN] + RenderStmts(t) + rest) == Err(SyntaxError)
  {
    var after := [RPAREN, THEN] + (RenderStmts(t) + rest);
    var ts := [IF, LPAREN] + RenderExpr(c) + [RPAREN, THEN] + RenderStmts(t) + rest;
    OpenTokens(RenderExpr(c), RenderStmts(t), rest);
    ExprAloneRoundTrip(c, after);
    UnfoldIf(ts, Parsed(cv, after));
    StmtsRoundTrip([], t, rest);
    assert [] + tv == tv;
    UnfoldThen(cv, after, Parsed(tv, rest));
  }

  /** `IF ( e ) THEN body` followed by `rest`, regrouped the way the
      statement parser reads it. */
  lemma OpenTokens(e: seq<Token>, body: seq<Token>, rest: seq<Token>)
    ensures var after := [RPAREN, THEN] + (body + rest);
      var ts := [IF, LPAREN] + e + [RPAREN, THEN] + body + rest;
      |ts| >= 2 && ts[0] == IF && ts[1] == LPAREN && ts[2..] == e + after &&
      |after| >= 2 && after[0] == RPAREN && after[1] == THEN && after[2..] == body + rest
  {
    var after := [RPAREN, THEN] + (body + rest);
    assert [IF, LPAREN] + e + [RPAREN, THEN] + body + rest == [IF, LPAREN] + (e + after);
  }

  // ----- expressions -----

  /** The list tag an OR or AND action builds. */
  function LogicTag(op: Logic): string {
    if op == OrOp then "or" else "and"
  }

  /** OR gives `["or", l, r]` and AND gives `["and", l, r]`. */
  lemma LogicValueTree(l: Expr, op: Logic, r: Unary, lv: Value, rv: Value)
    requires BuildExpr(l) == Ok(lv) && BuildUnary(r) == Ok(rv)
    ensures BuildExpr(Binary(l, op, r)) == Ok(Lst([Str(LogicTag(op)), lv, rv]))
  {
  }

  /** AND and OR share one left-associative tier: `x op1 y op2 z` groups as
      `op2(op1(x, y), z)` whichever the operators are, so `a AND b OR c`
      is `["or", ["and", a, b], c]`. */
  lemma LogicGroupsLeft(x: string, op1: Logic, y: string, op2: Logic, z: string)
    ensures ParseExpr([NEWID(x), LogicToken(op1), NEWID(y), LogicToken(op2), NEWID(z)]) ==
      Ok(Parsed(Lst([Str(LogicTag(op2)), Lst([Str(LogicTag(op1)), Str(x), Str(y)]), Str(z)]), []))
  {
    var e := Binary(Binary(Term(Single(Name(NewIdName, x))), op1, Single(Name(NewIdName, y))), op2,
                    Single(Name(NewIdName, z)));
    assert RenderExpr(e.left.left) == [NEWID(x)];
    assert RenderExpr(e.left) == [NEWID(x), LogicToken(op1), NEWID(y)];
    assert RenderExpr(e) == [NEWID(x), LogicToken(op1), NEWID(y), LogicToken(op2), NEWID(z)];
    assert RenderExpr(e) + [] == RenderExpr(e);
    ExprAloneRoundTrip(e, []);
    LogicValueTree(Term(Single(Name(NewIdName, x))), op1, Single(Name(NewIdName, y)), Str(x), Str(y));
    LogicValueTree(e.left, op2, Single(Name(NewIdName, z)), Lst([Str(LogicTag(op1)), Str(x), Str(y)]), Str(z));
  }

  /** `NOT e` gives `["not", "NOT"]`: the operand's value is dropped. */
  lemma NotDiscardsOperand(x: Unary, v: Value, rest: seq<Token>)
    requires NoCompareNext(rest) && BuildUnary(x) == Ok(v) && v != Str("OR") && v != Str("AND")
    ensures ParseUnary([NOT] + RenderUnary(x) + rest) == Ok(Parsed(Lst([Str("not"), Str("NOT")]), rest))
  {
    UnaryRoundTrip(Not(x), rest);
  }

  /** When the operand of NOT is the bare name OR or AND, the action's
      operator tests index a third child that `NOT expr` does not have. */
  lemma NotOfOperatorNameFails(w: string, rest: seq<Token>)
    requires (w == "OR" || w == "AND") && NoCompareNext(rest)
    ensures ParseUnary([NOT, NEWID(w)] + rest) == Err(ActionIndexError)
  {
    UnaryRoundTrip(Not(Single(Name(NewIdName, w))), rest);
  }

  /** `( e )` gives the double-wrapped `[[e]]`, unless the inner value is
      one of the operator strings the action tests first. */
  lemma ParenWraps(e: Expr, v: Value, rest: seq<Token>)
    requires NoCompareNext(rest) && BuildExpr(e) == Ok(v)
    requires v != Str("OR") && v != Str("AND") && v != Str("==") && v != Str("IN")
    ensures ParseUnary([LPAREN] + RenderExpr(e) + [RPAREN] + rest) == Ok(Parsed(Lst([Lst([v])]), rest))
  {
    UnaryRoundTrip(Paren(e), rest);
    assert [LPAREN] + RenderExpr(e) + [RPAREN] + rest == RenderUnary(Paren(e)) + rest;
  }

  lemma ComparisonTokens(a: Atom, op: Compare, b: Atom, rest: seq<Token>)
    ensures RenderAtom(a) + [CompareToken(op)] + RenderAtom(b) + rest == RenderExpr(Term(Comparison(a, op, b))) + rest
    ensures BuildExpr(Term(Comparison(a, op, b))) == ExprAction([BuildAtom(a), Str(OpText(op)), BuildAtom(b)])
  {
  }

  /** `atom EQ atom` gives `["equal", a, b]` only when the operator's text
      is "==", and None (`Nil`) for any other text.  (A left operand whose
      text is NOT or "(" is caught by earlier tests of the action.) */
  lemma EqualOnlyForDoubleEquals(a: Atom, t: string, b: Atom, rest: seq<Token>)
    requires EndsExpr(rest) && BuildAtom(a) != Str("NOT") && BuildAtom(a) != Str("(")
    requires t != "OR" && t != "AND" && t != "IN"
    ensures ParseExpr(RenderAtom(a) + [EQ(t)] + RenderAtom(b) + rest) ==
      Ok(Parsed(if t == "==" then Lst([Str("equal"), BuildAtom(a), BuildAtom(b)]) else Nil, rest))
  {
    ComparisonTokens(a, EqOp(t), b, rest);
    EqAction(BuildAtom(a), t, BuildAtom(b));
    ExprAloneRoundTrip(Term(Comparison(a, EqOp(t), b)), rest);
  }

  lemma EqAction(l: Value, t: string, r: Value)
    requires l != Str("NOT") && l != Str("(") && t != "OR" && t != "AND" && t != "IN"
    ensures ExprAction([l, Str(t), r]) == Ok(if t == "==" then Lst([Str("equal"), l, r]) else Nil)
  {
  }

  /** The lexer's EQ keyword carries the text "EQ", so `a EQ b` builds
      None. */
  lemma EqKeywordGivesNil(a: Atom, b: Atom, rest: seq<Token>)
    requires EndsExpr(rest) && BuildAtom(a) != Str("NOT") && BuildAtom(a) != Str("(")
    ensures ParseExpr(RenderAtom(a) + [EQ("EQ")] + RenderAtom(b) + rest) == Ok(Parsed(Nil, rest))
  {
    EqualOnlyForDoubleEquals(a, "EQ", b, rest);
  }

  /** `atom IN atom` gives `["in", a, b]`. */
  lemma InValue(a: Atom, b: Atom, rest: seq<Token>)
    requires EndsExpr(rest) && BuildAtom(a) != Str("NOT")
    ensures ParseExpr(RenderAtom(a) + [IN] + RenderAtom(b) + rest) ==
      Ok(Parsed(Lst([Str("in"), BuildAtom(a), BuildAtom(b)]), rest))
  {
    ComparisonTokens(a, InOp, b, rest);
    ExprAloneRoundTrip(Term(Comparison(a, InOp, b)), rest);
    assert ExprAction([BuildAtom(a), Str("IN"), BuildAtom(b)]) == Ok(Lst([Str("in"), BuildAtom(a), BuildAtom(b)]));
  }

  /** A left operand named NOT (the lexer reads it as a NEWID) makes any
      comparison build `["not", "NOT"]`, since the action tests for it
      before the operator. */
  lemma ComparisonWithNotName(op: Compare, b: Atom, rest: seq<Token>)
    requires EndsExpr(rest) && OpText(op) != "OR" && OpText(op) != "AND"
    ensures ParseExpr([NEWID("NOT"), CompareToken(op)] + RenderAtom(b) + rest) ==
      Ok(Parsed(Lst([Str("not"), Str("NOT")]), rest))
  {
    var a := Name(NewIdName, "NOT");
    ComparisonTokens(a, op, b, rest);
    assert RenderAtom(a) == [NEWID("NOT")];
    assert [NEWID("NOT"), CompareToken(op)] + RenderAtom(b) + rest == RenderAtom(a) + [CompareToken(op)] + RenderAtom(b) + rest;
    ExprAloneRoundTrip(Term(Comparison(a, op, b)), rest);
  }

  /** A statement followed by a token that cannot start another one leaves
      the program unfinished. */
  lemma LeftoverRejected(ts: seq<Token>, v: Value, later: seq<Token>)
    requires |ts| > 0 && StartsStmt(ts[0]) && ParseStmt(ts) == Ok(Parsed(v, later))
    requires later != [] && !StartsStmt(later[0])
    ensures ParseProgram(ts) == Err(SyntaxError)
  {
    UnfoldMore([], ts, Parsed(v, later));
  }

  /** An operand that the OR/AND tier does not continue is the whole
      expression. */
  lemma UnaryIsExpr(ts: seq<Token>, v: Value, rest: seq<Token>)
    requires ParseUnary(ts) == Ok(Parsed(v, rest)) && (rest == [] || !IsLogic(rest[0]))
    ensures ParseExpr(ts) == Ok(Parsed(v, rest))
  {
    TailStops(v, rest);
  }

  /** EQ and IN do not chain: `x = a EQ b EQ c` is not a program. */
  lemma ChainedComparisonRejected(x: string, a: Atom, op1: Compare, b: Atom, op2: Compare, c: Atom)
    ensures ParseProgram([NEWID(x), ASSIGN] + RenderAtom(a) + [CompareToken(op1)] + RenderAtom(b) +
                         [CompareToken(op2)] + RenderAtom(c)) == Err(SyntaxError)
  {
    var u := Comparison(a, op1, b);
    var later := [CompareToken(op2)] + RenderAtom(c);
    ChainShape(x, a, op1, b, op2, c);
    ComparisonStep(a, op1, b, later);
    ComparisonBuilds(a, op1, b);
    AssignLeftover([NEWID(x), ASSIGN] + (RenderUnary(u) + later), x, BuildUnary(u).value, later);
  }

  lemma ChainShape(x: string, a: Atom, op1: Compare, b: Atom, op2: Compare, c: Atom)
    ensures var later := [CompareToken(op2)] + RenderAtom(c);
      var ts := [NEWID(x), ASSIGN] + (RenderUnary(Comparison(a, op1, b)) + later);
      [NEWID(x), ASSIGN] + RenderAtom(a) + [CompareToken(op1)] + RenderAtom(b) + [CompareToken(op2)] + RenderAtom(c) == ts &&
      |ts| >= 2 && ts[0] == NEWID(x) && ts[1] == ASSIGN && ts[2..] == RenderUnary(Comparison(a, op1, b)) + later &&
      later != [] && later[0] == CompareToken(op2)
  {
    assert RenderUnary(Comparison(a, op1, b)) == RenderAtom(a) + [CompareToken(op1)] + RenderAtom(b);
    ChainTokens([NEWID(x), ASSIGN], RenderAtom(a), [CompareToken(op1)], RenderAtom(b), [CompareToken(op2)],
                RenderAtom(c));
  }

  lemma ComparisonBuilds(a: Atom, op: Compare, b: Atom)
    ensures BuildUnary(Comparison(a, op, b)).Ok?
  {
  }

  /** An assignment whose operand is followed by a token that neither the
      OR/AND tier nor a new statement accepts is rejected. */
  lemma AssignLeftover(ts: seq<Token>, x: string, v: Value, later: seq<Token>)
    requires |ts| >= 2 && ts[0] == NEWID(x) && ts[1] == ASSIGN && ParseUnary(ts[2..]) == Ok(Parsed(v, later))
    requires later != [] && !IsLogic(later[0]) && !StartsStmt(later[0])
    ensures ParseProgram(ts) == Err(SyntaxError)
  {
    UnaryIsExpr(ts[2..], v, later);
    AssignGeneric(ts, Ok(v), later);
    LeftoverRejected(ts, Lst([Str("assign"), Str(x), v]), later);
  }

  lemma ChainTokens(s: seq<Token>, a: seq<Token>, o: seq<Token>, b: seq<Token>, p: seq<Token>, c: seq<Token>)
    ensures s + a + o + b + p + c == s + (a + o + b + (p + c))
    ensures (s + (a + o + b + (p + c)))[|s|..] == a + o + b + (p + c)
  {
  }
}
