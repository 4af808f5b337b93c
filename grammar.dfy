/** The grammar rules of BasicParser in pyTBasic/parser.py, written as pure
    functions over the parser's two-slot cursor: each rule takes the cursor
    it starts from and either yields the Python value it returns together
    with the cursor it leaves, or the exception it raises. The class in
    parser.dfy runs the same rules by updating its fields, and each of its
    methods is proved to agree with the function of the same name here. */
module Grammar {
  import opened Outcomes
  import opened Numerals
  import opened Lexer

  /** The Python values the parser builds: ints, strings, tuples and None. */
  datatype Parsed = PInt(i: int) | PStr(s: string) | PTuple(items: seq<Parsed>) | PNone

  /** Python truthiness of a parsed value. */
  predicate Truthy(p: Parsed) {
    match p
    case PInt(i) => i != 0
    case PStr(s) => s != ""
    case PTuple(items) => items != []
    case PNone => false
  }

  /** The parser's state: the last token consumed (`tok`), the lookahead
      (`nexttok`) and the tokens the generator has still to yield. */
  datatype Cursor = Cursor(tok: Option<Token>, nexttok: Option<Token>, rest: seq<Token>)

  /** The tokens not yet consumed: the lookahead, then the rest. */
  function Pending(c: Cursor): seq<Token> {
    (if c.nexttok.Some? then [c.nexttok.value] else []) + c.rest
  }

  /** The measure every rule decreases or keeps: the number of pending tokens. */
  function Size(c: Cursor): nat {
    |Pending(c)|
  }

  /** Once the generator is exhausted the lookahead stays None. */
  predicate Valid(c: Cursor) {
    c.nexttok.None? ==> c.rest == []
  }

  /** _advance: the lookahead becomes the last token and the next token the
      generator yields, or None, becomes the lookahead. */
  function Advance(c: Cursor): (d: Cursor)
    ensures d.tok == c.nexttok
    ensures Valid(d)
    ensures c.nexttok.Some? ==> Size(d) + 1 == Size(c) && Pending(c) == [c.nexttok.value] + Pending(d)
  {
    if c.rest == [] then Cursor(c.nexttok, None, [])
    else Cursor(c.nexttok, Some(c.rest[0]), c.rest[1..])
  }

  /** Whether the lookahead is a token of kind k. */
  predicate NextIs(c: Cursor, k: Kind) {
    c.nexttok.Some? && c.nexttok.value.kind == k
  }

  /** _accept: consumes the lookahead when it is of kind k. */
  function Accept(c: Cursor, k: Kind): (r: (bool, Cursor))
    ensures r.0 <==> NextIs(c, k)
    ensures r.0 ==> r.1.tok == c.nexttok && Pending(c) == [c.nexttok.value] + Pending(r.1)
    ensures !r.0 ==> r.1 == c
  {
    if NextIs(c, k) then (true, Advance(c)) else (false, c)
  }

  /** A rule's outcome: the value it returns and the cursor it leaves. */
  type Step<T> = Outcome<(T, Cursor)>

  /** _expect: consumes the lookahead when it is of kind k, or raises a SyntaxError naming k. */
  function Expect(c: Cursor, k: Kind): (r: Step<()>)
    ensures r.Raise? <==> !Accept(c, k).0
    ensures r.Raise? ==> r.exc == SyntaxError("Expected " + KindName(k))
    ensures r.Ok? ==> r.value.1 == Accept(c, k).1
  {
    var (ok, d) := Accept(c, k);
    if ok then Ok(((), d)) else Raise(SyntaxError("Expected " + KindName(k)))
  }

  /** try_int: int() of a NUM lexeme. A lexeme with a fractional part makes
      int() fail, and the handler then names the undefined `SyntexError`, so
      the exception that escapes is a NameError. */
  function TryInt(s: string): (r: Outcome<int>)
    ensures r.Ok? <==> IsDigits(s)
    ensures r.Ok? ==> r.value == DigitsValue(s) && r.value >= 0
    ensures r.Raise? ==> r.exc == NameError("SyntexError")
  {
    if IsDigits(s) then Ok(DigitsValue(s)) else Raise(NameError("SyntexError"))
  }

  /** str.strip('"'): removes every leading and every trailing double quote. */
  function StripLeft(s: string): (r: string)
    ensures |r| <= |s| && r == s[|s| - |r|..]
    ensures r == [] || r[0] != '"'
    ensures forall k :: 0 <= k < |s| - |r| ==> s[k] == '"'
  {
    if s != [] && s[0] == '"' then StripLeft(s[1..]) else s
  }

  function StripRight(s: string): (r: string)
    ensures |r| <= |s| && r == s[..|r|]
    ensures r == [] || r[|r| - 1] != '"'
    ensures forall k :: |r| <= k < |s| ==> s[k] == '"'
  {
    if s != [] && s[|s| - 1] == '"' then StripRight(s[..|s| - 1]) else s
  }

  function Strip(s: string): string {
    StripRight(StripLeft(s))
  }

  /** What expr_list does to each item it returns: strings are stripped of quotes. */
  function StripItem(p: Parsed): Parsed {
    if p.PStr? then PStr(Strip(p.s)) else p
  }

  function StripItems(items: seq<Parsed>): (r: seq<Parsed>)
    ensures |r| == |items|
    ensures forall k :: 0 <= k < |items| ==> r[k] == StripItem(items[k])
  {
    seq(|items|, k requires 0 <= k < |items| => StripItem(items[k]))
  }

  /** A binary node of the parse: the operator's spelling, then both operands. */
  function Node3(op: string, left: Parsed, right: Parsed): Parsed {
    PTuple([PStr(op), left, right])
  }

  /** A keyword statement of the parse: the keyword, then its operand. */
  function Node2(kw: string, operand: Parsed): Parsed {
    PTuple([PStr(kw), operand])
  }

  /** factor ::= var | number | (expression), with unary signs in front of a
      number or a variable; None when some other token is pending. */
  function Factor(c: Cursor): (r: Step<Parsed>)
    decreases Size(c), 0
    ensures r.Ok? ==> Size(r.value.1) <= Size(c)
  {
    if NextIs(c, Plus) then
      var c1 := Advance(c);
      if NextIs(c1, Num) then
        var n :- TryInt(c1.nexttok.value.text);
        Ok((PInt(n), Advance(c1)))
      else if NextIs(c1, Var) then
        Ok((PStr(c1.nexttok.value.text), Advance(c1)))
      else Raise(SyntaxError("Expected NUM or VAR"))
    else if NextIs(c, Minus) then
      var c1 := Advance(c);
      if NextIs(c1, Num) then
        var n :- TryInt(c1.nexttok.value.text);
        Ok((PInt(-n), Advance(c1)))
      else if NextIs(c1, Var) then
        Ok((PStr("-" + c1.nexttok.value.text), Advance(c1)))
      else Raise(SyntaxError("Expected NUM or VAR"))
    else if NextIs(c, Num) then
      var n :- TryInt(c.nexttok.value.text);
      Ok((PInt(n), Advance(c)))
    else if NextIs(c, Var) then
      Ok((PStr(c.nexttok.value.text), Advance(c)))
    else if NextIs(c, Lparen) then
      var e :- Expr(Advance(c));
      var u :- Expect(e.1, Rparen);
      Ok((e.0, u.1))
    else if c.nexttok.Some? then
      Ok((PNone, c))
    else
      Raise(SyntaxError("Expected NUMBER or LPAREN"))
  }

  /** The loop of term: while a TIMES or DIVIDE is accepted, the value so far
      becomes the left operand of a new product or quotient. */
  function TermTail(acc: Parsed, c: Cursor): (r: Step<Parsed>)
    decreases Size(c), 1
    ensures r.Ok? ==> Size(r.value.1) <= Size(c)
  {
    if NextIs(c, Times) || NextIs(c, Divide) then
      var op := if NextIs(c, Times) then "*" else "/";
      var f :- Factor(Advance(c));
      TermTail(Node3(op, acc, f.0), f.1)
    else
      Ok((acc, c))
  }

  /** term ::= factor ((*|/) factor)* */
  function Term(c: Cursor): (r: Step<Parsed>)
    decreases Size(c), 2
    ensures r.Ok? ==> Size(r.value.1) <= Size(c)
  {
    var f :- Factor(c);
    TermTail(f.0, f.1)
  }

  /** The loop of expr: while a PLUS or MINUS is accepted, the value so far
      becomes the left operand of a new sum or difference. */
  function ExprTail(acc: Parsed, c: Cursor): (r: Step<Parsed>)
    decreases Size(c), 3
    ensures r.Ok? ==> Size(r.value.1) <= Size(c)
  {
    if NextIs(c, Plus) || NextIs(c, Minus) then
      var op := if NextIs(c, Plus) then "+" else "-";
      var t :- Term(Advance(c));
      ExprTail(Node3(op, acc, t.0), t.1)
    else
      Ok((acc, c))
  }

  /** expression ::= term ((+|-) term)* */
  function Expr(c: Cursor): (r: Step<Parsed>)
    decreases Size(c), 4
    ensures r.Ok? ==> Size(r.value.1) <= Size(c)
  {
    var t :- Term(c);
    ExprTail(t.0, t.1)
  }

  /** The loop of expr_list: a string literal is appended as it is; after a
      comma, an expression is appended unless a string literal follows, and
      a comma at the end of the input reads an attribute of None. */
  function ExprListLoop(items: seq<Parsed>, c: Cursor): (r: Step<seq<Parsed>>)
    decreases Size(c), 5
    ensures r.Ok? ==> Size(r.value.1) <= Size(c)
    ensures r.Ok? ==> |items| <= |r.value.0| && r.value.0[..|items|] == items
    ensures r.Ok? ==> !NextIs(r.value.1, Strng) && !NextIs(r.value.1, Com)
  {
    if NextIs(c, Strng) then
      ExprListLoop(items + [PStr(c.nexttok.value.text)], Advance(c))
    else if NextIs(c, Com) then
      var c1 := Advance(c);
      if c1.nexttok.None? then Raise(AttributeError)
      else if c1.nexttok.value.kind != Strng then
        var e :- Expr(c1);
        ExprListLoop(items + [e.0], e.1)
      else ExprListLoop(items, c1)
    else
      Ok((items, c))
  }

  /** expr-list ::= (string|expression) (, (string|expression))*
      A falsy first expression is not kept; one item is returned bare and
      several as a tuple, strings stripped of their quotes; no item at all
      indexes an empty list. */
  function ExprList(c: Cursor): (r: Step<Parsed>)
    decreases Size(c), 6
    ensures r.Ok? ==> Size(r.value.1) <= Size(c) && r.value.1.nexttok.None?
  {
    var e :- Expr(c);
    ExprListEnd(ExprListLoop(if Truthy(e.0) then [e.0] else [], e.1))
  }

  /** What expr_list does after its loop, from the loop's outcome. */
  function ExprListEnd(l: Step<seq<Parsed>>): (r: Step<Parsed>)
    ensures r.Ok? ==> l.Ok? && r.value.1 == l.value.1 && r.value.1.nexttok.None?
  {
    var l :- l;
    var (items, d) := l;
    if d.nexttok.Some? then Raise(SyntaxError("Expected COMA"))
    else if |items| > 1 then Ok((PTuple(StripItems(items)), d))
    else if items == [] then Raise(IndexError)
    else Ok((StripItem(items[0]), d))
  }

  /** The loop of var_list: a variable is taken while one is the lookahead,
      and must be followed by a comma unless the input ends after it. */
  function VarListLoop(names: seq<Parsed>, c: Cursor): (r: Step<seq<Parsed>>)
    decreases Size(c), 5
    ensures r.Ok? ==> Size(r.value.1) <= Size(c)
    ensures r.Ok? ==> |names| <= |r.value.0| && r.value.0[..|names|] == names
  {
    if NextIs(c, Var) then
      var c1 := Advance(c);
      var names1 := names + [PStr(c.nexttok.value.text)];
      if c1.nexttok.Some? then
        var u :- Expect(c1, Com);
        VarListLoop(names1, u.1)
      else Ok((names1, c1))
    else
      Ok((names, c))
  }

  /** var-list ::= var (, var)*, returned as a tuple of the variable names. */
  function VarList(c: Cursor): (r: Step<Parsed>)
    decreases Size(c), 6
    ensures r.Ok? ==> Size(r.value.1) <= Size(c) && r.value.0.PTuple?
  {
    var l :- VarListLoop([], c);
    Ok((PTuple(l.0), l.1))
  }

  /** kw_print: PRINT alone prints the empty string, otherwise an expr-list. */
  function KwPrint(c: Cursor): (r: Step<Parsed>)
    decreases Size(c), 7
    ensures r.Ok? ==> Size(r.value.1) <= Size(c)
  {
    if c.nexttok.None? then Ok((Node2("PRINT", PStr("")), c))
    else
      var e :- ExprList(c);
      Ok((Node2("PRINT", e.0), e.1))
  }

  /** kw_if: IF expression relop expression THEN statement. Any keyword is
      accepted in the place of THEN. */
  function KwIf(c: Cursor): (r: Step<Parsed>)
    decreases Size(c), 7
    ensures r.Ok? ==> Size(r.value.1) < Size(c)
  {
    var left :- Expr(c);
    var u1 :- Expect(left.1, Relop);
    var relop := left.1.nexttok.value.text;
    var right :- Expr(u1.1);
    var u2 :- Expect(right.1, Kword);
    var then_ :- Statement(u2.1);
    Ok((PTuple([PStr("IF"), Node3(relop, left.0, right.0), PStr("THEN"), then_.0]), then_.1))
  }

  /** kw_goto: GOTO expression; GOTO at the end of the input is an error. */
  function KwGoto(c: Cursor): (r: Step<Parsed>)
    decreases Size(c), 7
    ensures r.Ok? ==> Size(r.value.1) <= Size(c)
  {
    if c.nexttok.None? then Raise(SyntaxError("Expected NUM"))
    else
      var e :- Expr(c);
      Ok((Node2("GOTO", e.0), e.1))
  }

  /** kw_input: INPUT var-list. */
  function KwInput(c: Cursor): (r: Step<Parsed>)
    decreases Size(c), 7
    ensures r.Ok? ==> Size(r.value.1) <= Size(c)
  {
    var l :- VarList(c);
    Ok((Node2("INPUT", l.0), l.1))
  }

  /** kw_let: LET var = expression. */
  function KwLet(c: Cursor): (r: Step<Parsed>)
    decreases Size(c), 7
    ensures r.Ok? ==> Size(r.value.1) < Size(c)
  {
    var u1 :- Expect(c, Var);
    var name := c.nexttok.value.text;
    var u2 :- Expect(u1.1, Relop);
    var op := u1.1.nexttok.value.text;
    if op != "=" then Raise(SyntaxError("Expected EQUAL"))
    else
      var e :- Expr(u2.1);
      Ok((Node2("LET", Node3(op, PStr(name), e.0)), e.1))
  }

  /** kw_gosub: GOSUB expression, whose value must be truthy. */
  function KwGosub(c: Cursor): (r: Step<Parsed>)
    decreases Size(c), 7
    ensures r.Ok? ==> Size(r.value.1) <= Size(c)
  {
    var e :- Expr(c);
    if !Truthy(e.0) then Raise(SyntaxError("Expected EXPRESSION"))
    else Ok((Node2("GOSUB", e.0), e.1))
  }

  /** kw_list: LIST alone, or LIST followed by a line number. */
  function KwList(c: Cursor): (r: Step<Parsed>)
    decreases Size(c), 7
    ensures r.Ok? ==> Size(r.value.1) <= Size(c)
  {
    if NextIs(c, Num) then
      var n :- TryInt(c.nexttok.value.text);
      Ok((Node2("LIST", PInt(n)), Advance(c)))
    else if c.nexttok.Some? then Raise(SyntaxError("Expected NUM"))
    else Ok((PStr("LIST"), c))
  }

  /** statement: dispatch on the keyword just accepted, or an expression when
      the lookahead is not a keyword. A THEN keyword (or any spelling not
      dispatched) reaches the return of a local that was never assigned. */
  function Statement(c: Cursor): (r: Step<Parsed>)
    decreases Size(c), 8
    ensures r.Ok? ==> Size(r.value.1) <= Size(c)
  {
    if NextIs(c, Kword) then
      var kw := c.nexttok.value.text;
      var c1 := Advance(c);
      if kw == "PRINT" then KwPrint(c1)
      else if kw == "IF" then KwIf(c1)
      else if kw == "GOTO" then KwGoto(c1)
      else if kw == "INPUT" then KwInput(c1)
      else if kw == "LET" then KwLet(c1)
      else if kw == "GOSUB" then KwGosub(c1)
      else if kw == "RETURN" then Ok((PStr("RETURN"), c1))
      else if kw == "CLEAR" then Ok((PStr("CLEAR"), c1))
      else if kw == "LIST" then KwList(c1)
      else if kw == "RUN" then Ok((PStr("RUN"), c1))
      else if kw == "END" then Ok((PStr("END"), c1))
      else Raise(UnboundLocalError("ret_val"))
    else
      Expr(c)
  }

  /** line ::= number statement | statement; a numbered line gives the pair
      (line number, statement). */
  function Line(c: Cursor): (r: Step<Parsed>)
    decreases Size(c), 9
    ensures r.Ok? ==> Size(r.value.1) <= Size(c)
  {
    if NextIs(c, Num) then
      var n :- TryInt(c.nexttok.value.text);
      var s :- Statement(Advance(c));
      Ok((PTuple([PInt(n), s.0]), s.1))
    else
      Statement(c)
  }

  /** The cursor parse starts from: the tokens of the text, the first of them loaded as lookahead. */
  function Start(text: string): Cursor {
    Advance(Cursor(None, None, Tokenize(text)))
  }

  /** parse: one line of text, parsed from its first token. Tokens left
      over after the line are not looked at. */
  function Parse(text: string): Outcome<Parsed> {
    var l :- Line(Start(text));
    Ok(l.0)
  }
}
