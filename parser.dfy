/** BasicParser of pyTBasic/parser.py: a recursive-descent parser whose
    methods move a two-slot cursor (`tok`, `nexttok`) over the tokens of one
    line. Every method is proved to agree with the rule of the same name in
    the Grammar module: it returns the value that rule returns and leaves
    the fields at the rule's final cursor, or raises the exception the rule
    raises. */
module Parser {
  import opened Outcomes
  import opened Lexer
  import opened Grammar

  /** A method's outcome r, with the parser now at cursor now, is the one
      the rule's outcome spec describes. After an exception the fields are
      whatever they were when it was raised, and are not described. */
  predicate Agrees<T(==)>(r: Outcome<T>, now: Cursor, spec: Step<T>) {
    match spec
    case Ok(v) => r == Ok(v.0) && now == v.1
    case Raise(e) => r == Raise(e)
  }

  class BasicParser {
    /** The token generator, as the sequence of tokens it has still to yield. */
    var tokens: seq<Token>
    /** The last token consumed. */
    var tok: Option<Token>
    /** The lookahead. */
    var nexttok: Option<Token>

    function Cur(): Cursor
      reads this
    {
      Cursor(tok, nexttok, tokens)
    }

    constructor()
      ensures Cur() == Cursor(None, None, [])
    {
      tokens := [];
      tok := None;
      nexttok := None;
    }

    /** parse: tokenizes the text, loads the first lookahead and parses a line. */
    method Parse(text: string) returns (r: Outcome<Parsed>)
      modifies this
      ensures r == Grammar.Parse(text)
    {
      tokens := GenerateTokens(text);
      tok := None;
      nexttok := None;
      Advance();
      r := Line();
    }

    /** _advance */
    method Advance()
      modifies this
      ensures Cur() == Grammar.Advance(old(Cur()))
    {
      tok := nexttok;
      if tokens == [] {
        nexttok := None;
      } else {
        nexttok := Some(tokens[0]);
        tokens := tokens[1..];
      }
    }

    /** _accept */
    method Accept(toktype: Kind) returns (accepted: bool)
      modifies this
      ensures (accepted, Cur()) == Grammar.Accept(old(Cur()), toktype)
    {
      if nexttok.Some? && nexttok.value.kind == toktype {
        Advance();
        return true;
      }
      return false;
    }

    /** _expect */
    method Expect(toktype: Kind) returns (r: Outcome<()>)
      modifies this
      ensures Agrees(r, Cur(), Grammar.Expect(old(Cur()), toktype))
    {
      var accepted := Accept(toktype);
      if !accepted {
        return Raise(SyntaxError("Expected " + KindName(toktype)));
      }
      return Ok(());
    }

    /** line */
    method Line() returns (r: Outcome<Parsed>)
      modifies this
      decreases Size(Cur()), 9
      ensures Agrees(r, Cur(), Grammar.Line(old(Cur())))
    {
      var isNum := Accept(Num);
      if isNum {
        var num :- TryInt(tok.value.text);
        var right :- Statement();
        r := Ok(PTuple([PInt(num), right]));
      } else {
        r := Statement();
      }
    }

    /** statement */
    method Statement() returns (r: Outcome<Parsed>)
      modifies this
      decreases Size(Cur()), 8
      ensures Agrees(r, Cur(), Grammar.Statement(old(Cur())))
    {
      var isKeyword := Accept(Kword);
      if isKeyword {
        var kw := tok.value.text;
        if kw == "PRINT" {
          r := KwPrint();
        } else if kw == "IF" {
          r := KwIf();
        } else if kw == "GOTO" {
          r := KwGoto();
        } else if kw == "INPUT" {
          r := KwInput();
        } else if kw == "LET" {
          r := KwLet();
        } else if kw == "GOSUB" {
          r := KwGosub();
        } else if kw == "RETURN" {
          return Ok(PStr("RETURN"));
        } else if kw == "CLEAR" {
          return Ok(PStr("CLEAR"));
        } else if kw == "LIST" {
          r := KwList();
        } else if kw == "RUN" {
          return Ok(PStr("RUN"));
        } else if kw == "END" {
          return Ok(PStr("END"));
        } else {
          r := Raise(UnboundLocalError("ret_val"));
        }
      } else {
        r := Expr();
      }
    }

    /** kw_print */
    method KwPrint() returns (r: Outcome<Parsed>)
      modifies this
      decreases Size(Cur()), 7
      ensures Agrees(r, Cur(), Grammar.KwPrint(old(Cur())))
    {
      if nexttok.None? {
        return Ok(Node2("PRINT", PStr("")));
      }
      var right :- ExprList();
      r := Ok(Node2("PRINT", right));
    }

    /** kw_if */
    method KwIf() returns (r: Outcome<Parsed>)
      modifies this
      decreases Size(Cur()), 7
      ensures Agrees(r, Cur(), Grammar.KwIf(old(Cur())))
    {
      var leftExpr :- Expr();
      var u1 :- Expect(Relop);
      var relop := tok.value.text;
      var rightExpr :- Expr();
      var u2 :- Expect(Kword);
      var thenStatement :- Statement();
      r := Ok(PTuple([PStr("IF"), Node3(relop, leftExpr, rightExpr), PStr("THEN"), thenStatement]));
    }

    /** kw_goto */
    method KwGoto() returns (r: Outcome<Parsed>)
      modifies this
      decreases Size(Cur()), 7
      ensures Agrees(r, Cur(), Grammar.KwGoto(old(Cur())))
    {
      if nexttok.None? {
        return Raise(SyntaxError("Expected NUM"));
      }
      var right :- Expr();
      r := Ok(Node2("GOTO", right));
    }

    /** kw_input */
    method KwInput() returns (r: Outcome<Parsed>)
      modifies this
      decreases Size(Cur()), 7
      ensures Agrees(r, Cur(), Grammar.KwInput(old(Cur())))
    {
      var right :- VarList();
      r := Ok(Node2("INPUT", right));
    }

    /** kw_let */
    method KwLet() returns (r: Outcome<Parsed>)
      modifies this
      decreases Size(Cur()), 7
      ensures Agrees(r, Cur(), Grammar.KwLet(old(Cur())))
    {
      var u1 :- Expect(Var);
      var name := tok.value.text;
      var u2 :- Expect(Relop);
      var op := tok.value.text;
      if op != "=" {
        return Raise(SyntaxError("Expected EQUAL"));
      }
      var exprVal :- Expr();
      r := Ok(Node2("LET", Node3(op, PStr(name), exprVal)));
    }

    /** kw_gosub */
    method KwGosub() returns (r: Outcome<Parsed>)
      modifies this
      decreases Size(Cur()), 7
      ensures Agrees(r, Cur(), Grammar.KwGosub(old(Cur())))
    {
      var right :- Expr();
      if !Truthy(right) {
        return Raise(SyntaxError("Expected EXPRESSION"));
      }
      r := Ok(Node2("GOSUB", right));
    }

    /** kw_list */
    method KwList() returns (r: Outcome<Parsed>)
      modifies this
      decreases Size(Cur()), 7
      ensures Agrees(r, Cur(), Grammar.KwList(old(Cur())))
    {
      var isNum := Accept(Num);
      if isNum {
        var right :- TryInt(tok.value.text);
        r := Ok(Node2("LIST", PInt(right)));
      } else if nexttok.Some? {
        r := Raise(SyntaxError("Expected NUM"));
      } else {
        r := Ok(PStr("LIST"));
      }
    }

    /** expr_list */
    method ExprList() returns (r: Outcome<Parsed>)
      modifies this
      decreases Size(Cur()), 6
      ensures Agrees(r, Cur(), Grammar.ExprList(old(Cur())))
    {
      ghost var c0 := Cur();
      var exprList: seq<Parsed> := [];
      var temp :- Expr();
      if Truthy(temp) {
        exprList := exprList + [temp];
        assert exprList == [temp];
      }
      ghost var c1 := Cur();
      while true
        invariant Size(Cur()) <= Size(c1)
        invariant ExprListEnd(Grammar.ExprListLoop(exprList, Cur())) == Grammar.ExprList(c0)
        decreases Size(Cur())
      {
        var more := Accept(Strng);
        if !more {
          more := Accept(Com);
        }
        if !more {
          break;
        }
        if tok.value.kind == Strng {
          exprList := exprList + [PStr(tok.value.text)];
        } else if nexttok.None? {
          return Raise(AttributeError);
        } else if nexttok.value.kind != Strng {
          var item :- Expr();
          exprList := exprList + [item];
        }
      }
      if nexttok.Some? {
        return Raise(SyntaxError("Expected COMA"));
      }
      if |exprList| > 1 {
        r := Ok(PTuple(StripItems(exprList)));
      } else if exprList == [] {
        r := Raise(IndexError);
      } else {
        r := Ok(StripItem(exprList[0]));
      }
    }

    /** var_list */
    method VarList() returns (r: Outcome<Parsed>)
      modifies this
      decreases Size(Cur()), 6
      ensures Agrees(r, Cur(), Grammar.VarList(old(Cur())))
    {
      ghost var c0 := Cur();
      var varList: seq<Parsed> := [];
      while true
        invariant Size(Cur()) <= Size(c0)
        invariant Grammar.VarListLoop(varList, Cur()) == Grammar.VarListLoop([], c0)
        decreases Size(Cur())
      {
        if nexttok.None? {
          break;
        }
        var isVar := Accept(Var);
        if !isVar {
          break;
        }
        varList := varList + [PStr(tok.value.text)];
        if nexttok.Some? {
          var u :- Expect(Com);
        } else {
          break;
        }
      }
      r := Ok(PTuple(varList));
    }

    /** expr */
    method Expr() returns (r: Outcome<Parsed>)
      modifies this
      decreases Size(Cur()), 4
      ensures Agrees(r, Cur(), Grammar.Expr(old(Cur())))
    {
      ghost var c0 := Cur();
      var exprVal :- Term();
      while true
        invariant Size(Cur()) <= Size(c0)
        invariant Grammar.ExprTail(exprVal, Cur()) == Grammar.Expr(c0)
        decreases Size(Cur())
      {
        var more := Accept(Plus);
        if !more {
          more := Accept(Minus);
        }
        if !more {
          break;
        }
        var op := tok.value.kind;
        var right :- Term();
        if op == Plus {
          exprVal := Node3("+", exprVal, right);
        } else if op == Minus {
          exprVal := Node3("-", exprVal, right);
        }
      }
      r := Ok(exprVal);
    }

    /** term */
    method Term() returns (r: Outcome<Parsed>)
      modifies this
      decreases Size(Cur()), 2
      ensures Agrees(r, Cur(), Grammar.Term(old(Cur())))
    {
      ghost var c0 := Cur();
      var termVal :- Factor();
      while true
        invariant Size(Cur()) <= Size(c0)
        invariant Grammar.TermTail(termVal, Cur()) == Grammar.Term(c0)
        decreases Size(Cur())
      {
        var more := Accept(Times);
        if !more {
          more := Accept(Divide);
        }
        if !more {
          break;
        }
        var op := tok.value.kind;
        var right :- Factor();
        if op == Times {
          termVal := Node3("*", termVal, right);
        } else if op == Divide {
          termVal := Node3("/", termVal, right);
        }
      }
      r := Ok(termVal);
    }

    /** factor */
    method Factor() returns (r: Outcome<Parsed>)
      modifies this
      decreases Size(Cur()), 0
      ensures Agrees(r, Cur(), Grammar.Factor(old(Cur())))
    {
      if nexttok.Some? && nexttok.value.kind == Plus {
        var accepted := Accept(Plus);
        var isNum := Accept(Num);
        if isNum {
          var n :- TryInt(tok.value.text);
          r := Ok(PInt(n));
        } else {
          var isVar := Accept(Var);
          if isVar {
            r := Ok(PStr(tok.value.text));
          } else {
            r := Raise(SyntaxError("Expected NUM or VAR"));
          }
        }
      } else if nexttok.Some? && nexttok.value.kind == Minus {
        var accepted := Accept(Minus);
        var isNum := Accept(Num);
        if isNum {
          var n :- TryInt(tok.value.text);
          r := Ok(PInt(-n));
        } else {
          var isVar := Accept(Var);
          if isVar {
            r := Ok(PStr("-" + tok.value.text));
          } else {
            r := Raise(SyntaxError("Expected NUM or VAR"));
          }
        }
      } else {
        var isNum := Accept(Num);
        if isNum {
          var n :- TryInt(tok.value.text);
          return Ok(PInt(n));
        }
        var isVar := Accept(Var);
        if isVar {
          return Ok(PStr(tok.value.text));
        }
        var isParen := Accept(Lparen);
        if isParen {
          var exprVal :- Expr();
          var u :- Expect(Rparen);
          return Ok(exprVal);
        }
        if nexttok.Some? {
          return Ok(PNone);
        }
        r := Raise(SyntaxError("Expected NUMBER or LPAREN"));
      }
    }
  }
}
