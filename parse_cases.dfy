/** Case-by-case properties of the BasicParser rules of pyTBasic/parser.py:
    unary signs and the fallbacks of factor, quote stripping and the item
    list of expr_list, what each kw_ rule and var_list return or raise, and
    the keyword dispatch of statement. */
module ParseCases {
  import opened Outcomes
  import opened Numerals
  import opened Lexer
  import opened Grammar
  import opened GrammarProps

  // ---------------------------------------------------------------------
  // factor

  /** factor yields None, consuming nothing, exactly when a token is pending
      that cannot start a factor. */
  lemma FactorNone(c: Cursor)
    ensures Factor(c) == Ok((PNone, c)) <==>
      c.nexttok.Some? && c.nexttok.value.kind !in {Plus, Minus, Num, Var, Lparen}
  {
    if NextIs(c, Lparen) && Factor(c).Ok? {
      assert Size(Factor(c).value.1) < Size(c);
    }
  }

  /** At the end of the input factor raises. */
  lemma FactorAtEnd(c: Cursor)
    requires c.nexttok.None?
    ensures Factor(c) == Raise(SyntaxError("Expected NUMBER or LPAREN"))
  {
  }

  /** A unary plus before a number or a variable is dropped: factor gives
      what it gives without the sign. */
  lemma FactorUnaryPlus(c: Cursor)
    requires NextIs(c, Plus) && (NextIs(Advance(c), Num) || NextIs(Advance(c), Var))
    ensures Factor(c) == Factor(Advance(c))
  {
  }

  /** A unary minus before a number negates the number factor gives without
      the sign, and fails as that does on a fractional literal. */
  lemma FactorUnaryMinusNum(c: Cursor)
    requires NextIs(c, Minus) && NextIs(Advance(c), Num)
    ensures Factor(Advance(c)).Ok? ==> Factor(Advance(c)).value.0.PInt?
    ensures Factor(Advance(c)).Ok? ==>
      Factor(c) == Ok((PInt(-Factor(Advance(c)).value.0.i), Factor(Advance(c)).value.1))
    ensures Factor(Advance(c)).Raise? ==> Factor(c) == Factor(Advance(c))
  {
  }

  /** A unary minus before a variable prefixes its name with `-`. */
  lemma FactorUnaryMinusVar(c: Cursor)
    requires NextIs(c, Minus) && NextIs(Advance(c), Var)
    ensures Factor(Advance(c)).Ok? && Factor(Advance(c)).value.0.PStr?
    ensures Factor(c) == Ok((PStr("-" + Factor(Advance(c)).value.0.s), Factor(Advance(c)).value.1))
  {
  }

  /** A sign followed by anything but a number or a variable raises. */
  lemma FactorSignNeedsOperand(c: Cursor)
    requires NextIs(c, Plus) || NextIs(c, Minus)
    requires !NextIs(Advance(c), Num) && !NextIs(Advance(c), Var)
    ensures Factor(c) == Raise(SyntaxError("Expected NUM or VAR"))
  {
  }

  /** A parenthesised expression gives the value of the expression and
      consumes the closing parenthesis. */
  lemma FactorParen(c: Cursor, v: Parsed, d: Cursor)
    requires NextIs(c, Lparen) && Expr(Advance(c)) == Ok((v, d)) && NextIs(d, Rparen)
    ensures Factor(c) == Ok((v, Advance(d)))
  {
  }

  /** Without the closing parenthesis factor raises. */
  lemma FactorParenUnclosed(c: Cursor, v: Parsed, d: Cursor)
    requires NextIs(c, Lparen) && Expr(Advance(c)) == Ok((v, d)) && !NextIs(d, Rparen)
    ensures Factor(c) == Raise(SyntaxError("Expected RPAREN"))
  {
  }

  /** An exception inside the parentheses escapes factor. */
  lemma FactorParenRaises(c: Cursor, e: Exception)
    requires NextIs(c, Lparen) && Expr(Advance(c)) == Raise(e)
    ensures Factor(c) == Raise(e)
  {
  }

  // ---------------------------------------------------------------------
  // expr_list

  /** A string literal: its text between double quotes. */
  function Quote(inner: string): string {
    "\"" + inner + "\""
  }

  /** strip('"') gives back the text of a string literal without inner quotes. */
  lemma StripQuoted(inner: string)
    requires '"' !in inner
    ensures Strip(Quote(inner)) == inner
  {
    var s := Quote(inner);
    assert s[1..] == inner + "\"";
    if inner == [] {
      assert StripLeft(s[1..][1..]) == [];
    } else {
      assert inner[0] != '"';
      assert StripLeft(inner + "\"") == inner + "\"";
      assert (inner + "\"")[..|inner|] == inner;
      assert inner[|inner| - 1] != '"';
    }
  }

  /** The tokens of `, "s1" , "s2" ...`: a comma before each string literal. */
  function CommaStrings(inners: seq<string>): seq<Token> {
    if inners == [] then []
    else [Token(Com, ","), Token(Strng, Quote(inners[0]))] + CommaStrings(inners[1..])
  }

  /** The tokens of a comma-separated list of string literals. */
  function StringListTokens(inners: seq<string>): seq<Token>
    requires inners != []
  {
    [Token(Strng, Quote(inners[0]))] + CommaStrings(inners[1..])
  }

  /** The parsed literals, quotes still on, as the loop of expr_list collects them. */
  function Literals(inners: seq<string>): (r: seq<Parsed>)
    ensures |r| == |inners| && forall k :: 0 <= k < |inners| ==> r[k] == PStr(Quote(inners[k]))
  {
    seq(|inners|, k requires 0 <= k < |inners| => PStr(Quote(inners[k])))
  }

  /** Strings as parsed strs: the literals expr_list returns, quotes stripped, and the names var_list collects. */
  function Texts(inners: seq<string>): (r: seq<Parsed>)
    ensures |r| == |inners| && forall k :: 0 <= k < |inners| ==> r[k] == PStr(inners[k])
  {
    seq(|inners|, k requires 0 <= k < |inners| => PStr(inners[k]))
  }

  /** Where the lookahead cannot start an operand, expr gives None and consumes nothing. */
  lemma ExprOfNonOperand(c: Cursor)
    requires c.nexttok.Some? && c.nexttok.value.kind !in {Plus, Minus, Times, Divide, Num, Var, Lparen}
    ensures Expr(c) == Ok((PNone, c))
  {
    FactorNone(c);
    assert Term(c) == Ok((PNone, c));
  }

  /** A number with nothing arithmetic after it is an expression of its own: its int value. */
  lemma ExprOfNumber(c: Cursor, t: string, rest: seq<Token>)
    requires Valid(c) && Pending(c) == [Token(Num, t)] + rest && IsDigits(t) && EndsSum(rest)
    ensures Yields(Expr(c), PInt(DigitsValue(t)), rest)
  {
    NextOfPending(c, Token(Num, t), rest);
    assert Factor(c) == Ok((PInt(DigitsValue(t)), Advance(c)));
    TermTailStops(PInt(DigitsValue(t)), Advance(c));
    assert Term(c) == Ok((PInt(DigitsValue(t)), Advance(c)));
    ExprTailStops(PInt(DigitsValue(t)), Advance(c));
  }

  /** One round of the loop of expr_list over a comma and a string literal. */
  lemma ExprListLoopStep(items: seq<Parsed>, c: Cursor, q: string, more: seq<Token>)
    requires Valid(c) && Pending(c) == [Token(Com, ","), Token(Strng, q)] + more
    ensures ExprListLoop(items, c) == ExprListLoop(items + [PStr(q)], Advance(Advance(c)))
    ensures Pending(Advance(Advance(c))) == more && Valid(Advance(Advance(c)))
  {
    NextOfPending(c, Token(Com, ","), [Token(Strng, q)] + more);
    NextOfPending(Advance(c), Token(Strng, q), more);
  }

  lemma LiteralsCons(items: seq<Parsed>, inners: seq<string>)
    requires inners != []
    ensures items + [PStr(Quote(inners[0]))] + Literals(inners[1..]) == items + Literals(inners)
  {
    assert [PStr(Quote(inners[0]))] + Literals(inners[1..]) == Literals(inners);
  }

  /** The loop of expr_list takes in the string literals after commas up to the end of the input. */
  lemma {:induction false} ExprListLoopOfStrings(items: seq<Parsed>, c: Cursor, inners: seq<string>)
    requires Valid(c) && Pending(c) == CommaStrings(inners)
    ensures ExprListLoop(items, c).Ok?
    ensures ExprListLoop(items, c).value.0 == items + Literals(inners)
    ensures Pending(ExprListLoop(items, c).value.1) == []
    decreases |inners|
  {
    if inners == [] {
      NothingPending(c);
      assert items + Literals(inners) == items;
    } else {
      ExprListLoopStep(items, c, Quote(inners[0]), CommaStrings(inners[1..]));
      ExprListLoopOfStrings(items + [PStr(Quote(inners[0]))], Advance(Advance(c)), inners[1..]);
      LiteralsCons(items, inners);
    }
  }

  /** The items of expr_list over string literals, before they are stripped. */
  lemma ExprListItemsOfStrings(c: Cursor, inners: seq<string>)
    requires Valid(c) && inners != [] && Pending(c) == StringListTokens(inners)
    ensures Expr(c) == Ok((PNone, c))
    ensures ExprListLoop([], c).Ok?
    ensures ExprListLoop([], c).value.0 == Literals(inners)
    ensures Pending(ExprListLoop([], c).value.1) == []
  {
    var q := Token(Strng, Quote(inners[0]));
    NextOfPending(c, q, CommaStrings(inners[1..]));
    ExprOfNonOperand(c);
    ExprListLoopOfStrings([PStr(Quote(inners[0]))], Advance(c), inners[1..]);
    LiteralsCons([], inners);
    assert [] + [PStr(Quote(inners[0]))] == [PStr(Quote(inners[0]))];
  }

  /** Stripping string literals without inner quotes gives their texts. */
  lemma StripLiterals(inners: seq<string>)
    requires forall k :: 0 <= k < |inners| ==> '"' !in inners[k]
    ensures StripItems(Literals(inners)) == Texts(inners)
  {
    forall k | 0 <= k < |inners|
      ensures StripItem(Literals(inners)[k]) == PStr(inners[k])
    {
      StripQuoted(inners[k]);
    }
  }

  /** expr_list over string literals only: the first expression is None and
      dropped, every literal is kept with its quotes stripped, one literal is
      returned bare and several as a tuple. */
  lemma ExprListOfStrings(c: Cursor, inners: seq<string>)
    requires Valid(c) && inners != [] && Pending(c) == StringListTokens(inners)
    requires forall k :: 0 <= k < |inners| ==> '"' !in inners[k]
    ensures ExprList(c).Ok?
    ensures ExprList(c).value.0 == if |inners| == 1 then PStr(inners[0]) else PTuple(Texts(inners))
  {
    ExprListItemsOfStrings(c, inners);
    StripLiterals(inners);
    var l := ExprListLoop([], c).value;
    NothingPending(l.1);
    assert StripItems(l.0)[0] == StripItem(l.0[0]);
  }

  /** When a token is left after the loop of expr_list, expr_list raises. */
  lemma ExprListNeedsComma(c: Cursor, v: Parsed, d: Cursor, items: seq<Parsed>, e: Cursor)
    requires Expr(c) == Ok((v, d))
    requires ExprListLoop(if Truthy(v) then [v] else [], d) == Ok((items, e)) && e.nexttok.Some?
    ensures ExprList(c) == Raise(SyntaxError("Expected COMA"))
  {
  }

  /** A falsy first expression with nothing after it leaves expr_list no item to index. */
  lemma ExprListNoItem(c: Cursor, v: Parsed, d: Cursor)
    requires Expr(c) == Ok((v, d)) && !Truthy(v) && Pending(d) == []
    ensures ExprList(c) == Raise(IndexError)
  {
    NothingPending(d);
  }

  // ---------------------------------------------------------------------
  // kw_let

  /** LET must be followed by a variable. */
  lemma KwLetNeedsVar(c: Cursor)
    requires !NextIs(c, Var)
    ensures KwLet(c) == Raise(SyntaxError("Expected VAR"))
  {
  }

  /** The variable must be followed by a relational operator. */
  lemma KwLetNeedsRelop(c: Cursor)
    requires NextIs(c, Var) && !NextIs(Advance(c), Relop)
    ensures KwLet(c) == Raise(SyntaxError("Expected RELOP"))
  {
  }

  /** The relational operator must be `=`. */
  lemma KwLetNeedsEqual(c: Cursor)
    requires NextIs(c, Var) && NextIs(Advance(c), Relop) && Advance(c).nexttok.value.text != "="
    ensures KwLet(c) == Raise(SyntaxError("Expected EQUAL"))
  {
  }

  /** `LET x = e` gives ('LET', ('=', x, e)), with e parsed by expr after the `=`. */
  lemma KwLetAssigns(c: Cursor, x: string, more: seq<Token>)
    requires Valid(c) && Pending(c) == [Token(Var, x), Token(Relop, "=")] + more
    ensures Pending(Advance(Advance(c))) == more && Valid(Advance(Advance(c)))
    ensures Expr(Advance(Advance(c))).Ok? ==>
      KwLet(c) == Ok((Node2("LET", Node3("=", PStr(x), Expr(Advance(Advance(c))).value.0)), Expr(Advance(Advance(c))).value.1))
    ensures Expr(Advance(Advance(c))).Raise? ==> KwLet(c).Raise? && KwLet(c).exc == Expr(Advance(Advance(c))).exc
  {
    NextOfPending(c, Token(Var, x), [Token(Relop, "=")] + more);
    NextOfPending(Advance(c), Token(Relop, "="), more);
  }

  // ---------------------------------------------------------------------
  // kw_print, kw_if, kw_goto, kw_gosub and kw_list

  /** PRINT at the end of the input prints the empty string; otherwise its
      operand is what expr_list returns, and an exception of expr_list escapes. */
  lemma KwPrintCases(c: Cursor)
    ensures c.nexttok.None? ==> KwPrint(c) == Ok((Node2("PRINT", PStr("")), c))
    ensures c.nexttok.Some? && ExprList(c).Ok? ==>
      KwPrint(c) == Ok((Node2("PRINT", ExprList(c).value.0), ExprList(c).value.1))
    ensures c.nexttok.Some? && ExprList(c).Raise? ==> KwPrint(c) == Raise(ExprList(c).exc)
  {
  }

  /** PRINT over string literals prints their texts: one bare, several as a tuple. */
  lemma KwPrintOfStrings(c: Cursor, inners: seq<string>)
    requires Valid(c) && inners != [] && Pending(c) == StringListTokens(inners)
    requires forall k :: 0 <= k < |inners| ==> '"' !in inners[k]
    ensures KwPrint(c).Ok?
    ensures KwPrint(c).value.0 == Node2("PRINT", if |inners| == 1 then PStr(inners[0]) else PTuple(Texts(inners)))
  {
    NextOfPending(c, Token(Strng, Quote(inners[0])), CommaStrings(inners[1..]));
    ExprListOfStrings(c, inners);
  }

  /** IF l relop r kw s gives ('IF', (relop, l, r), 'THEN', s) whatever
      keyword kw stands where THEN belongs, and an exception of the THEN
      statement escapes. */
  lemma KwIfThen(c: Cursor, l: Parsed, d: Cursor, r: Parsed, e: Cursor)
    requires Expr(c) == Ok((l, d)) && NextIs(d, Relop)
    requires Expr(Advance(d)) == Ok((r, e)) && NextIs(e, Kword)
    ensures Statement(Advance(e)).Ok? ==>
      KwIf(c) == Ok((PTuple([PStr("IF"), Node3(d.nexttok.value.text, l, r), PStr("THEN"), Statement(Advance(e)).value.0]),
                     Statement(Advance(e)).value.1))
    ensures Statement(Advance(e)).Raise? ==> KwIf(c) == Raise(Statement(Advance(e)).exc)
  {
  }

  /** The condition of IF must go on with a relational operator. */
  lemma KwIfNeedsRelop(c: Cursor, l: Parsed, d: Cursor)
    requires Expr(c) == Ok((l, d)) && !NextIs(d, Relop)
    ensures KwIf(c) == Raise(SyntaxError("Expected RELOP"))
  {
  }

  /** The compared expressions of IF must be followed by a keyword. */
  lemma KwIfNeedsKeyword(c: Cursor, l: Parsed, d: Cursor, r: Parsed, e: Cursor)
    requires Expr(c) == Ok((l, d)) && NextIs(d, Relop)
    requires Expr(Advance(d)) == Ok((r, e)) && !NextIs(e, Kword)
    ensures KwIf(c) == Raise(SyntaxError("Expected KWORD"))
  {
  }

  /** GOTO at the end of the input raises; otherwise its operand is what
      expr returns, and an exception of expr escapes. */
  lemma KwGotoCases(c: Cursor)
    ensures c.nexttok.None? ==> KwGoto(c) == Raise(SyntaxError("Expected NUM"))
    ensures c.nexttok.Some? && Expr(c).Ok? ==> KwGoto(c) == Ok((Node2("GOTO", Expr(c).value.0), Expr(c).value.1))
    ensures c.nexttok.Some? && Expr(c).Raise? ==> KwGoto(c) == Raise(Expr(c).exc)
  {
  }

  /** GOTO n goes to the int value of the digits n. */
  lemma KwGotoNumber(c: Cursor, t: string, rest: seq<Token>)
    requires Valid(c) && Pending(c) == [Token(Num, t)] + rest && IsDigits(t) && EndsSum(rest)
    ensures Yields(KwGoto(c), Node2("GOTO", PInt(DigitsValue(t))), rest)
  {
    ExprOfNumber(c, t, rest);
    NextOfPending(c, Token(Num, t), rest);
  }

  /** GOSUB raises at the end of the input, where factor finds no operand,
      and raises when its expression is falsy, as an expression that cannot
      start at the lookahead is; otherwise it gives ('GOSUB', e). */
  lemma KwGosubCases(c: Cursor)
    ensures c.nexttok.None? ==> KwGosub(c) == Raise(SyntaxError("Expected NUMBER or LPAREN"))
    ensures c.nexttok.Some? && c.nexttok.value.kind !in {Plus, Minus, Times, Divide, Num, Var, Lparen} ==>
      KwGosub(c) == Raise(SyntaxError("Expected EXPRESSION"))
    ensures Expr(c).Ok? && !Truthy(Expr(c).value.0) ==> KwGosub(c) == Raise(SyntaxError("Expected EXPRESSION"))
    ensures Expr(c).Ok? && Truthy(Expr(c).value.0) ==> KwGosub(c) == Ok((Node2("GOSUB", Expr(c).value.0), Expr(c).value.1))
    ensures Expr(c).Raise? ==> KwGosub(c) == Raise(Expr(c).exc)
  {
    if c.nexttok.None? {
      FactorAtEnd(c);
    } else if c.nexttok.value.kind !in {Plus, Minus, Times, Divide, Num, Var, Lparen} {
      ExprOfNonOperand(c);
    }
  }

  /** LIST alone is the bare keyword, LIST n the pair with n's int value;
      any other token after LIST raises, and so does a fractional number. */
  lemma KwListCases(c: Cursor)
    ensures c.nexttok.None? ==> KwList(c) == Ok((PStr("LIST"), c))
    ensures NextIs(c, Num) && IsDigits(c.nexttok.value.text) ==>
      KwList(c) == Ok((Node2("LIST", PInt(DigitsValue(c.nexttok.value.text))), Advance(c)))
    ensures NextIs(c, Num) && !IsDigits(c.nexttok.value.text) ==> KwList(c) == Raise(NameError("SyntexError"))
    ensures c.nexttok.Some? && !NextIs(c, Num) ==> KwList(c) == Raise(SyntaxError("Expected NUM"))
  {
  }

  // ---------------------------------------------------------------------
  // kw_input and var_list

  /** The tokens of `x1, x2, ..., xn`. */
  function VarTokens(xs: seq<string>): seq<Token> {
    if xs == [] then []
    else if |xs| == 1 then [Token(Var, xs[0])]
    else [Token(Var, xs[0]), Token(Com, ",")] + VarTokens(xs[1..])
  }

  /** Where no variable is the lookahead, the loop of var_list takes nothing
      and consumes nothing, and INPUT gets the empty tuple. */
  lemma VarListStops(names: seq<Parsed>, c: Cursor)
    requires !NextIs(c, Var)
    ensures VarListLoop(names, c) == Ok((names, c))
    ensures VarList(c) == Ok((PTuple([]), c))
    ensures KwInput(c) == Ok((Node2("INPUT", PTuple([])), c))
  {
  }

  /** A variable followed by a token other than a comma raises. */
  lemma VarListNeedsComma(names: seq<Parsed>, c: Cursor)
    requires NextIs(c, Var) && Advance(c).nexttok.Some? && !NextIs(Advance(c), Com)
    ensures VarListLoop(names, c) == Raise(SyntaxError("Expected COM"))
    ensures VarList(c) == Raise(SyntaxError("Expected COM"))
    ensures KwInput(c) == Raise(SyntaxError("Expected COM"))
  {
  }

  /** One round of the loop of var_list over a variable and the comma after it. */
  lemma VarListLoopStep(names: seq<Parsed>, c: Cursor, x: string, more: seq<Token>)
    requires Valid(c) && Pending(c) == [Token(Var, x), Token(Com, ",")] + more
    ensures VarListLoop(names, c) == VarListLoop(names + [PStr(x)], Advance(Advance(c)))
    ensures Pending(Advance(Advance(c))) == more && Valid(Advance(Advance(c)))
  {
    NextOfPending(c, Token(Var, x), [Token(Com, ",")] + more);
    NextOfPending(Advance(c), Token(Com, ","), more);
  }

  lemma NamesCons(names: seq<Parsed>, xs: seq<string>)
    requires xs != []
    ensures names + [PStr(xs[0])] + Texts(xs[1..]) == names + Texts(xs)
  {
    assert [PStr(xs[0])] + Texts(xs[1..]) == Texts(xs);
  }

  /** The last variable of the input ends the loop of var_list. */
  lemma VarListLoopLast(names: seq<Parsed>, c: Cursor, x: string)
    requires Valid(c) && Pending(c) == [Token(Var, x)]
    ensures VarListLoop(names, c) == Ok((names + [PStr(x)], Advance(c)))
    ensures Pending(Advance(c)) == []
  {
    NextOfPending(c, Token(Var, x), []);
    NothingPending(Advance(c));
  }

  /** The loop of var_list over `x1, ..., xn` at the end of the input appends every name in order. */
  lemma {:induction false} VarListLoopOfNames(names: seq<Parsed>, c: Cursor, xs: seq<string>)
    requires Valid(c) && Pending(c) == VarTokens(xs)
    ensures VarListLoop(names, c).Ok?
    ensures VarListLoop(names, c).value.0 == names + Texts(xs)
    ensures Pending(VarListLoop(names, c).value.1) == []
    decreases |xs|
  {
    if xs == [] {
      NothingPending(c);
      VarListStops(names, c);
      assert names + Texts(xs) == names;
    } else if |xs| == 1 {
      VarListLoopLast(names, c, xs[0]);
      assert Texts(xs) == [PStr(xs[0])];
    } else {
      VarListLoopStep(names, c, xs[0], VarTokens(xs[1..]));
      VarListLoopOfNames(names + [PStr(xs[0])], Advance(Advance(c)), xs[1..]);
      NamesCons(names, xs);
    }
  }

  /** INPUT x1, ..., xn gives ('INPUT', (x1, ..., xn)). */
  lemma KwInputOfNames(c: Cursor, xs: seq<string>)
    requires Valid(c) && Pending(c) == VarTokens(xs)
    ensures KwInput(c).Ok?
    ensures KwInput(c).value.0 == Node2("INPUT", PTuple(Texts(xs)))
    ensures Pending(KwInput(c).value.1) == []
  {
    VarListLoopOfNames([], c, xs);
    assert [] + Texts(xs) == Texts(xs);
  }

  // ---------------------------------------------------------------------
  // statement and line

  /** Where no keyword is the lookahead, a statement is an expression. */
  lemma StatementExpr(c: Cursor)
    requires !NextIs(c, Kword)
    ensures Statement(c) == Expr(c)
  {
  }

  /** A line without a line number is a statement. */
  lemma LineOfStatement(c: Cursor)
    requires !NextIs(c, Num)
    ensures Line(c) == Statement(c)
  {
  }

  /** statement hands each keyword that takes operands to its kw_ rule,
      which starts after the keyword. */
  lemma StatementDispatch(c: Cursor)
    requires NextIs(c, Kword)
    ensures c.nexttok.value.text == "PRINT" ==> Statement(c) == KwPrint(Advance(c))
    ensures c.nexttok.value.text == "IF" ==> Statement(c) == KwIf(Advance(c))
    ensures c.nexttok.value.text == "GOTO" ==> Statement(c) == KwGoto(Advance(c))
    ensures c.nexttok.value.text == "INPUT" ==> Statement(c) == KwInput(Advance(c))
    ensures c.nexttok.value.text == "LET" ==> Statement(c) == KwLet(Advance(c))
    ensures c.nexttok.value.text == "GOSUB" ==> Statement(c) == KwGosub(Advance(c))
    ensures c.nexttok.value.text == "LIST" ==> Statement(c) == KwList(Advance(c))
  {
  }

  /** RETURN, CLEAR, RUN and END stand alone: statement returns the keyword
      and looks at nothing after it. */
  lemma StatementBare(c: Cursor)
    requires NextIs(c, Kword) && c.nexttok.value.text in ["RETURN", "CLEAR", "RUN", "END"]
    ensures Statement(c) == Ok((PStr(c.nexttok.value.text), Advance(c)))
  {
  }

  /** A keyword that statement does not dispatch, as THEN, leaves its result unbound. */
  lemma StatementThen(c: Cursor)
    requires NextIs(c, Kword)
    requires c.nexttok.value.text !in ["PRINT", "IF", "GOTO", "INPUT", "LET", "GOSUB", "RETURN", "CLEAR", "LIST", "RUN", "END"]
    ensures Statement(c) == Raise(UnboundLocalError("ret_val"))
  {
  }

  /** THEN is the one keyword that statement does not dispatch. */
  lemma OnlyThenUndispatched(kw: string)
    requires kw in Keywords
    ensures kw !in ["PRINT", "IF", "GOTO", "INPUT", "LET", "GOSUB", "RETURN", "CLEAR", "LIST", "RUN", "END"] <==> kw == "THEN"
  {
  }

  /** A numbered line is the pair of its number and its statement; a line
      number with a fractional part raises a NameError before the statement is parsed. */
  lemma LineNumbered(c: Cursor)
    requires NextIs(c, Num)
    ensures !IsDigits(c.nexttok.value.text) ==> Line(c) == Raise(NameError("SyntexError"))
    ensures IsDigits(c.nexttok.value.text) && Statement(Advance(c)).Ok? ==>
      Line(c) == Ok((PTuple([PInt(DigitsValue(c.nexttok.value.text)), Statement(Advance(c)).value.0]), Statement(Advance(c)).value.1))
    ensures IsDigits(c.nexttok.value.text) && Statement(Advance(c)).Raise? ==> Line(c) == Statement(Advance(c)).PropagateFailure()
  {
  }
}
