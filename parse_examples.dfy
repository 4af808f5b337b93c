/** Whole lines through the rules of BasicParser in pyTBasic/parser.py, each
    given as the token sequence generate_tokens yields for it: the parses
    that show precedence and the stand-alone keywords, and the inputs on
    which the parser raises, either a SyntaxError of its own or a Python
    error the code does not intend. */
module ParseExamples {
  import opened Outcomes
  import opened Numerals
  import opened Lexer
  import opened LexerProps
  import opened Grammar
  import opened GrammarProps
  import opened ParseCases

  /** The cursor parse starts from on a token sequence: its first token loaded as lookahead. */
  function Load(ts: seq<Token>): (c: Cursor)
    ensures Valid(c) && Pending(c) == ts
  {
    Advance(Cursor(None, None, ts))
  }

  /** The line parsed from a token sequence. */
  function ParseTokens(ts: seq<Token>): Outcome<Parsed> {
    var l :- Line(Load(ts));
    Ok(l.0)
  }

  /** Parsing a text is parsing the tokens of the text. */
  lemma ParseIsParseTokens(text: string)
    ensures Grammar.Parse(text) == ParseTokens(Tokenize(text))
  {
  }

  /** A line that starts with a keyword, the keyword loaded and consumed. */
  lemma KeywordLine(kw: string, more: seq<Token>)
    ensures Load([Token(Kword, kw)] + more).nexttok == Some(Token(Kword, kw))
    ensures Pending(Advance(Load([Token(Kword, kw)] + more))) == more
    ensures Valid(Advance(Load([Token(Kword, kw)] + more)))
    ensures Line(Load([Token(Kword, kw)] + more)) == Statement(Load([Token(Kword, kw)] + more))
  {
    NextOfPending(Load([Token(Kword, kw)] + more), Token(Kword, kw), more);
    LineOfStatement(Load([Token(Kword, kw)] + more));
  }

  function ABC(): seq<Token> {
    [Token(Var, "V_A"), Token(Minus, "-"), Token(Var, "V_B"), Token(Minus, "-"), Token(Var, "V_C")]
  }

  function ABCSum(): Sum {
    Sum(Product("V_A", []), [(Minus, Product("V_B", [])), (Minus, Product("V_C", []))])
  }

  lemma ABCSpelling()
    ensures SumTokens(ABCSum()) + [] == ABC() && SumOk(ABCSum())
  {
  }

  lemma ABCGrouping()
    ensures SumTree(ABCSum().first, ABCSum().more) == Node3("-", Node3("-", PStr("V_A"), PStr("V_B")), PStr("V_C"))
  {
    assert ABCSum().more[..1] == [(Minus, Product("V_B", []))];
  }

  /** `A-B-C` groups to the left: ('-', ('-', 'V_A', 'V_B'), 'V_C'). */
  lemma MinusGroupsLeft()
    ensures ParseTokens(ABC()) == Ok(Node3("-", Node3("-", PStr("V_A"), PStr("V_B")), PStr("V_C")))
  {
    ABCSpelling();
    ExprOfSum(Load(ABC()), ABCSum(), []);
    ABCGrouping();
  }

  function APlusBTimesC(): seq<Token> {
    [Token(Var, "V_A"), Token(Plus, "+"), Token(Var, "V_B"), Token(Times, "*"), Token(Var, "V_C")]
  }

  function APlusBTimesCSum(): Sum {
    Sum(Product("V_A", []), [(Plus, Product("V_B", [(Times, "V_C")]))])
  }

  lemma APlusBTimesCSpelling()
    ensures SumTokens(APlusBTimesCSum()) + [] == APlusBTimesC() && SumOk(APlusBTimesCSum())
  {
  }

  /** `A+B*C` multiplies first: ('+', 'V_A', ('*', 'V_B', 'V_C')). */
  lemma TimesBindsTighter()
    ensures ParseTokens(APlusBTimesC()) == Ok(Node3("+", PStr("V_A"), Node3("*", PStr("V_B"), PStr("V_C"))))
  {
    APlusBTimesCSpelling();
    ExprOfSum(Load(APlusBTimesC()), APlusBTimesCSum(), []);
  }

  /** `PRINT 0`: the falsy 0 is not kept and expr_list indexes an empty list. */
  lemma PrintZeroIndexError(n: string)
    requires IsDigits(n) && DigitsValue(n) == 0
    ensures ParseTokens([Token(Kword, "PRINT"), Token(Num, n)]) == Raise(IndexError)
  {
    KeywordLine("PRINT", [Token(Num, n)]);
    var c1 := Advance(Load([Token(Kword, "PRINT"), Token(Num, n)]));
    StatementDispatch(Load([Token(Kword, "PRINT"), Token(Num, n)]));
    ExprOfNumber(c1, n, []);
    ExprListNoItem(c1, PInt(0), Expr(c1).value.1);
  }

  /** `PRINT 1,`: a comma at the end reads the type of the missing lookahead. */
  lemma TrailingCommaAttributeError(n: string)
    requires IsDigits(n)
    ensures ParseTokens([Token(Kword, "PRINT"), Token(Num, n), Token(Com, ",")]) == Raise(AttributeError)
  {
    KeywordLine("PRINT", [Token(Num, n), Token(Com, ",")]);
    var c1 := Advance(Load([Token(Kword, "PRINT"), Token(Num, n), Token(Com, ",")]));
    StatementDispatch(Load([Token(Kword, "PRINT"), Token(Num, n), Token(Com, ",")]));
    ExprOfNumber(c1, n, [Token(Com, ",")]);
    var d := Expr(c1).value.1;
    NextOfPending(d, Token(Com, ","), []);
    var v := PInt(DigitsValue(n));
    assert ExprListLoop(if Truthy(v) then [v] else [], d) == Raise(AttributeError);
  }

  /** `THEN` at the start of a line reaches the return of an unassigned local. */
  lemma ThenUnbound(more: seq<Token>)
    ensures ParseTokens([Token(Kword, "THEN")] + more) == Raise(UnboundLocalError("ret_val"))
  {
    KeywordLine("THEN", more);
    StatementThen(Load([Token(Kword, "THEN")] + more));
  }

  /** A fractional line number raises a NameError, from the misspelt exception name. */
  lemma FractionalLineNumber(t: string, more: seq<Token>)
    requires !IsDigits(t)
    ensures ParseTokens([Token(Num, t)] + more) == Raise(NameError("SyntexError"))
  {
    NextOfPending(Load([Token(Num, t)] + more), Token(Num, t), more);
    LineNumbered(Load([Token(Num, t)] + more));
  }

  /** `1.5` is such a number. */
  lemma OnePointFive()
    ensures !IsDigits("1.5")
  {
    assert !IsDigit("1.5"[1]);
  }

  /** `PRINT "A" B`: a token left after the strings and commas. */
  lemma MissingComma(q: string, x: string)
    ensures ParseTokens([Token(Kword, "PRINT"), Token(Strng, q), Token(Var, x)]) == Raise(SyntaxError("Expected COMA"))
  {
    KeywordLine("PRINT", [Token(Strng, q), Token(Var, x)]);
    var c1 := Advance(Load([Token(Kword, "PRINT"), Token(Strng, q), Token(Var, x)]));
    StatementDispatch(Load([Token(Kword, "PRINT"), Token(Strng, q), Token(Var, x)]));
    NextOfPending(c1, Token(Strng, q), [Token(Var, x)]);
    ExprOfNonOperand(c1);
    var c2 := Advance(c1);
    NextOfPending(c2, Token(Var, x), []);
    assert ExprListLoop([PStr(q)], c2) == Ok(([PStr(q)], c2));
    assert ExprListLoop([], c1) == ExprListLoop([PStr(q)], c2) by {
      assert [] + [PStr(q)] == [PStr(q)];
    }
    ExprListNeedsComma(c1, PNone, c1, [PStr(q)], c2);
  }

  /** `END 5`: the tokens after a stand-alone keyword are not looked at. */
  lemma EndIgnoresRest(more: seq<Token>)
    ensures ParseTokens([Token(Kword, "END")] + more) == Ok(PStr("END"))
  {
    KeywordLine("END", more);
    StatementBare(Load([Token(Kword, "END")] + more));
  }

  /** `GOSUB 0`: the target must be truthy. */
  lemma GosubZero(n: string)
    requires IsDigits(n) && DigitsValue(n) == 0
    ensures ParseTokens([Token(Kword, "GOSUB"), Token(Num, n)]) == Raise(SyntaxError("Expected EXPRESSION"))
  {
    KeywordLine("GOSUB", [Token(Num, n)]);
    var c1 := Advance(Load([Token(Kword, "GOSUB"), Token(Num, n)]));
    StatementDispatch(Load([Token(Kword, "GOSUB"), Token(Num, n)]));
    ExprOfNumber(c1, n, []);
  }

  /** `LET X < 1`: only `=` may follow the variable. */
  lemma LetNeedsEqual(x: string, op: string, more: seq<Token>)
    requires op != "="
    ensures ParseTokens([Token(Kword, "LET"), Token(Var, x), Token(Relop, op)] + more) == Raise(SyntaxError("Expected EQUAL"))
  {
    var ts := [Token(Kword, "LET"), Token(Var, x), Token(Relop, op)] + more;
    assert ts == [Token(Kword, "LET")] + ([Token(Var, x), Token(Relop, op)] + more);
    KeywordLine("LET", [Token(Var, x), Token(Relop, op)] + more);
    var c1 := Advance(Load(ts));
    StatementDispatch(Load(ts));
    NextOfPending(c1, Token(Var, x), [Token(Relop, op)] + more);
    NextOfPending(Advance(c1), Token(Relop, op), more);
    KwLetNeedsEqual(c1);
  }

  /** `()`: the empty parentheses hold None. */
  lemma EmptyParens()
    ensures ParseTokens([Token(Lparen, "("), Token(Rparen, ")")]) == Ok(PNone)
  {
    var c0 := Load([Token(Lparen, "("), Token(Rparen, ")")]);
    NextOfPending(c0, Token(Lparen, "("), [Token(Rparen, ")")]);
    var c1 := Advance(c0);
    NextOfPending(c1, Token(Rparen, ")"), []);
    ExprOfNonOperand(c1);
    FactorParen(c0, PNone, c1);
    TermTailStops(PNone, Advance(c1));
    ExprTailStops(PNone, Advance(c1));
  }

  lemma ScanZero()
    ensures Scan("0") == [Token(Num, "0")]
  {
    KeywordNeedsUpper("0");
    assert DigitRun("0", 0) == 1;
    assert FirstMatch("0") == Some((Num, 1));
    assert "0"[1..] == [] && "0"[..1] == "0";
    assert Scan([]) == [];
  }

  lemma ScanSpaceZero()
    ensures Scan(" 0") == [Token(Ws, " "), Token(Num, "0")]
  {
    KeywordNeedsUpper(" 0");
    assert DigitRun(" 0", 0) == 0;
    assert SpaceRun(" 0", 0) == 1;
    assert FirstMatch(" 0") == Some((Ws, 1));
    assert " 0"[1..] == "0" && " 0"[..1] == " ";
    ScanZero();
  }

  lemma ScanPrintZero()
    ensures Scan("PRINT 0") == [Token(Kword, "PRINT"), Token(Ws, " "), Token(Num, "0")]
  {
    KeywordWins("PRINT 0", "PRINT");
    assert "PRINT 0"[5..] == " 0";
    assert "PRINT 0"[..5] == "PRINT";
    ScanSpaceZero();
  }

  /** The tokens of the line `PRINT 0`: the space is dropped. */
  lemma TokensOfPrintZero()
    ensures Tokenize("PRINT 0") == [Token(Kword, "PRINT"), Token(Num, "0")]
  {
    ScanPrintZero();
    var ls := [Token(Kword, "PRINT"), Token(Ws, " "), Token(Num, "0")];
    EmitAllCons(ls[0], ls[1..]);
    EmitAllCons(ls[1], ls[2..]);
    EmitAllCons(ls[2], []);
    assert ls[1..] == [ls[1]] + ls[2..] && ls[2..] == [ls[2]] + [] && ls == [ls[0]] + ls[1..];
  }

  /** The line `PRINT 0` makes parse raise an IndexError. */
  lemma ParsePrintZero()
    ensures Grammar.Parse("PRINT 0") == Raise(IndexError)
  {
    TokensOfPrintZero();
    ParseIsParseTokens("PRINT 0");
    assert IsDigits("0") && DigitsValue("0") == 0;
    PrintZeroIndexError("0");
  }
}
