/** Properties of the BasicParser rules of pyTBasic/parser.py, stated over
    the rule functions of the Grammar module (which the parser's methods are
    proved to agree with). */
module GrammarProps {
  import opened Outcomes
  import opened Numerals
  import opened Lexer
  import opened Grammar

  /** The lookahead of a well-formed cursor is the first pending token. */
  lemma NextOfPending(c: Cursor, t: Token, more: seq<Token>)
    requires Valid(c) && Pending(c) == [t] + more
    ensures c.nexttok == Some(t)
    ensures Pending(Advance(c)) == more && Valid(Advance(c))
  {
    assert Pending(c)[0] == c.nexttok.value;
    assert Pending(c) == [c.nexttok.value] + Pending(Advance(c));
    assert Pending(Advance(c)) == Pending(c)[1..] == more;
  }

  /** Nothing pending means no lookahead. */
  lemma NothingPending(c: Cursor)
    requires Pending(c) == []
    ensures c.nexttok.None?
  {
  }

  // ---------------------------------------------------------------------
  // Precedence and associativity: expressions over variables and the four
  // arithmetic operators.

  predicate IsAddOp(k: Kind) {
    k == Plus || k == Minus
  }

  predicate IsMulOp(k: Kind) {
    k == Times || k == Divide
  }

  /** The spelling of an operator, in the source text and in the parse. */
  function OpText(k: Kind): string {
    if k == Plus then "+" else if k == Minus then "-" else if k == Times then "*" else "/"
  }

  /** A product x0 op1 x1 ... opn xn of variables, every op a `*` or a `/`. */
  datatype Product = Product(first: string, more: seq<(Kind, string)>)

  /** A sum p0 op1 p1 ... opn pn of products, every op a `+` or a `-`. */
  datatype Sum = Sum(first: Product, more: seq<(Kind, Product)>)

  predicate ProductOk(p: Product) {
    forall i :: 0 <= i < |p.more| ==> IsMulOp(p.more[i].0)
  }

  predicate SumOk(s: Sum) {
    ProductOk(s.first) && forall i :: 0 <= i < |s.more| ==> IsAddOp(s.more[i].0) && ProductOk(s.more[i].1)
  }

  function MulTokens(more: seq<(Kind, string)>): seq<Token> {
    if more == [] then []
    else [Token(more[0].0, OpText(more[0].0)), Token(Var, more[0].1)] + MulTokens(more[1..])
  }

  /** The tokens that spell a product. */
  function ProductTokens(p: Product): seq<Token> {
    [Token(Var, p.first)] + MulTokens(p.more)
  }

  function AddTokens(more: seq<(Kind, Product)>): seq<Token> {
    if more == [] then []
    else [Token(more[0].0, OpText(more[0].0))] + ProductTokens(more[0].1) + AddTokens(more[1..])
  }

  /** The tokens that spell a sum. */
  function SumTokens(s: Sum): seq<Token> {
    ProductTokens(s.first) + AddTokens(s.more)
  }

  /** The intended parse of a product: left-associative, so the last operator
      is at the root and the product of all the earlier factors is its left operand. */
  function ProductTree(first: string, more: seq<(Kind, string)>): Parsed
    decreases |more|
  {
    if more == [] then PStr(first)
    else
      var last := more[|more| - 1];
      Node3(OpText(last.0), ProductTree(first, more[..|more| - 1]), PStr(last.1))
  }

  /** The intended parse of a sum: left-associative over whole products, so
      `*` and `/` bind tighter than `+` and `-`. */
  function SumTree(first: Product, more: seq<(Kind, Product)>): Parsed
    decreases |more|
  {
    if more == [] then ProductTree(first.first, first.more)
    else
      var last := more[|more| - 1];
      Node3(OpText(last.0), SumTree(first, more[..|more| - 1]), ProductTree(last.1.first, last.1.more))
  }

  /** No multiplicative operator comes next. */
  predicate EndsProduct(rest: seq<Token>) {
    rest == [] || !IsMulOp(rest[0].kind)
  }

  /** No arithmetic operator comes next. */
  predicate EndsSum(rest: seq<Token>) {
    rest == [] || (!IsMulOp(rest[0].kind) && !IsAddOp(rest[0].kind))
  }

  lemma SnocRest<T>(done: seq<T>, todo: seq<T>)
    requires todo != []
    ensures done + [todo[0]] + todo[1..] == done + todo
  {
    assert [todo[0]] + todo[1..] == todo;
  }

  /** A rule returns v and leaves a well-formed cursor with the tokens rest pending. */
  predicate Yields(r: Step<Parsed>, v: Parsed, rest: seq<Token>) {
    r.Ok? && r.value.0 == v && Pending(r.value.1) == rest && Valid(r.value.1)
  }

  lemma FactorOfVar(c: Cursor, x: string, rest: seq<Token>)
    requires Valid(c) && Pending(c) == [Token(Var, x)] + rest
    ensures Factor(c) == Ok((PStr(x), Advance(c)))
    ensures Pending(Advance(c)) == rest && Valid(Advance(c))
  {
    NextOfPending(c, Token(Var, x), rest);
  }

  /** One round of the loop of term over an operator and a variable. */
  lemma TermTailStep(acc: Parsed, c: Cursor, op: Kind, x: string, more: seq<Token>)
    requires Valid(c) && Pending(c) == [Token(op, OpText(op)), Token(Var, x)] + more && IsMulOp(op)
    ensures TermTail(acc, c) == TermTail(Node3(OpText(op), acc, PStr(x)), Advance(Advance(c)))
    ensures Pending(Advance(Advance(c))) == more && Valid(Advance(Advance(c)))
  {
    NextOfPending(c, Token(op, OpText(op)), [Token(Var, x)] + more);
    FactorOfVar(Advance(c), x, more);
  }

  /** The loop of term ends where no multiplicative operator comes next. */
  lemma TermTailStops(acc: Parsed, c: Cursor)
    requires Valid(c) && EndsProduct(Pending(c))
    ensures TermTail(acc, c) == Ok((acc, c))
  {
    if Pending(c) != [] {
      NextOfPending(c, Pending(c)[0], Pending(c)[1..]);
    } else {
      NothingPending(c);
    }
  }

  lemma ProductTreeSnoc(first: string, done: seq<(Kind, string)>, e: (Kind, string))
    ensures ProductTree(first, done + [e]) == Node3(OpText(e.0), ProductTree(first, done), PStr(e.1))
  {
    assert (done + [e])[..|done|] == done;
  }

  /** One round of the loop of term over the next factor of a product. */
  lemma TermTailRound(c: Cursor, first: string, done: seq<(Kind, string)>, todo: seq<(Kind, string)>, rest: seq<Token>)
    requires Valid(c) && Pending(c) == MulTokens(todo) + rest && todo != [] && IsMulOp(todo[0].0)
    ensures TermTail(ProductTree(first, done), c) == TermTail(ProductTree(first, done + [todo[0]]), Advance(Advance(c)))
    ensures Pending(Advance(Advance(c))) == MulTokens(todo[1..]) + rest && Valid(Advance(Advance(c)))
  {
    var (op, x) := todo[0];
    assert Pending(c) == [Token(op, OpText(op)), Token(Var, x)] + (MulTokens(todo[1..]) + rest);
    TermTailStep(ProductTree(first, done), c, op, x, MulTokens(todo[1..]) + rest);
    ProductTreeSnoc(first, done, todo[0]);
  }

  /** The loop of term, from a product of the factors done so far, takes in the
      remaining ones. */
  lemma {:induction false} TermTailOfProduct(c: Cursor, first: string, done: seq<(Kind, string)>,
                                             todo: seq<(Kind, string)>, rest: seq<Token>)
    requires Valid(c) && Pending(c) == MulTokens(todo) + rest && EndsProduct(rest)
    requires forall i :: 0 <= i < |todo| ==> IsMulOp(todo[i].0)
    ensures Yields(TermTail(ProductTree(first, done), c), ProductTree(first, done + todo), rest)
    decreases |todo|
  {
    if todo == [] {
      assert done + todo == done;
      TermTailStops(ProductTree(first, done), c);
    } else {
      TermTailRound(c, first, done, todo, rest);
      TermTailOfProduct(Advance(Advance(c)), first, done + [todo[0]], todo[1..], rest);
      SnocRest(done, todo);
    }
  }

  /** term parses the tokens of a product to its left-associative tree and
      stops where the product ends. */
  lemma TermOfProduct(c: Cursor, p: Product, rest: seq<Token>)
    requires Valid(c) && Pending(c) == ProductTokens(p) + rest && EndsProduct(rest) && ProductOk(p)
    ensures Yields(Term(c), ProductTree(p.first, p.more), rest)
  {
    FactorOfVar(c, p.first, MulTokens(p.more) + rest);
    TermTailOfProduct(Advance(c), p.first, [], p.more, rest);
    assert [] + p.more == p.more;
  }

  /** The loop of expr ends where no additive operator comes next. */
  lemma ExprTailStops(acc: Parsed, c: Cursor)
    requires Valid(c) && EndsSum(Pending(c))
    ensures ExprTail(acc, c) == Ok((acc, c))
  {
    if Pending(c) != [] {
      NextOfPending(c, Pending(c)[0], Pending(c)[1..]);
    } else {
      NothingPending(c);
    }
  }

  lemma SumTreeSnoc(first: Product, done: seq<(Kind, Product)>, e: (Kind, Product))
    ensures SumTree(first, done + [e]) == Node3(OpText(e.0), SumTree(first, done), ProductTree(e.1.first, e.1.more))
  {
    assert (done + [e])[..|done|] == done;
  }

  /** Where the next product of a sum ends, an additive operator or the end of the sum follows. */
  lemma AddTokensEndProduct(more: seq<(Kind, Product)>, rest: seq<Token>)
    requires EndsSum(rest) && forall i :: 0 <= i < |more| ==> IsAddOp(more[i].0)
    ensures EndsProduct(AddTokens(more) + rest)
  {
  }

  /** After the operator before it, term takes in the whole next product, and
      the loop of expr goes on from there with that product added. */
  predicate ExprRound(c: Cursor, acc: Parsed, acc1: Parsed, rest1: seq<Token>) {
    var t := Term(Advance(c));
    t.Ok? && ExprTail(acc, c) == ExprTail(acc1, t.value.1) && Pending(t.value.1) == rest1 && Valid(t.value.1)
  }

  lemma Assoc<T>(a: seq<T>, b: seq<T>, c: seq<T>, d: seq<T>)
    ensures a + b + c + d == a + (b + (c + d))
  {
  }

  /** One round of the loop of expr over the next product of a sum. */
  lemma ExprTailRound(c: Cursor, first: Product, done: seq<(Kind, Product)>, todo: seq<(Kind, Product)>, rest: seq<Token>)
    requires Valid(c) && Pending(c) == AddTokens(todo) + rest && EndsSum(rest) && todo != []
    requires forall i :: 0 <= i < |todo| ==> IsAddOp(todo[i].0) && ProductOk(todo[i].1)
    ensures ExprRound(c, SumTree(first, done), SumTree(first, done + [todo[0]]), AddTokens(todo[1..]) + rest)
  {
    var (op, p) := todo[0];
    var tail := AddTokens(todo[1..]) + rest;
    Assoc([Token(op, OpText(op))], ProductTokens(p), AddTokens(todo[1..]), rest);
    NextOfPending(c, Token(op, OpText(op)), ProductTokens(p) + tail);
    AddTokensEndProduct(todo[1..], rest);
    TermOfProduct(Advance(c), p, tail);
    SumTreeSnoc(first, done, todo[0]);
  }

  /** The loop of expr, from a sum of the terms done so far, takes in the remaining ones. */
  lemma {:induction false} ExprTailOfSum(c: Cursor, first: Product, done: seq<(Kind, Product)>,
                                         todo: seq<(Kind, Product)>, rest: seq<Token>)
    requires Valid(c) && Pending(c) == AddTokens(todo) + rest && EndsSum(rest)
    requires forall i :: 0 <= i < |todo| ==> IsAddOp(todo[i].0) && ProductOk(todo[i].1)
    ensures Yields(ExprTail(SumTree(first, done), c), SumTree(first, done + todo), rest)
    decreases |todo|
  {
    if todo == [] {
      assert done + todo == done;
      ExprTailStops(SumTree(first, done), c);
    } else {
      ExprTailRound(c, first, done, todo, rest);
      ExprTailOfSum(Term(Advance(c)).value.1, first, done + [todo[0]], todo[1..], rest);
      SnocRest(done, todo);
    }
  }

  /** expr parses the tokens of a sum of products to the tree in which every
      product is a subtree and both levels associate to the left: `*` and `/`
      bind tighter than `+` and `-`, and `A-B-C` groups as `(A-B)-C`. */
  lemma ExprOfSum(c: Cursor, s: Sum, rest: seq<Token>)
    requires Valid(c) && Pending(c) == SumTokens(s) + rest && EndsSum(rest) && SumOk(s)
    ensures Yields(Expr(c), SumTree(s.first, s.more), rest)
  {
    var tail := AddTokens(s.more) + rest;
    assert Pending(c) == ProductTokens(s.first) + tail;
    assert EndsProduct(tail) by {
      if s.more != [] {
        assert tail[0] == Token(s.more[0].0, OpText(s.more[0].0));
      }
    }
    TermOfProduct(c, s.first, tail);
    ExprTailOfSum(Term(c).value.1, s.first, [], s.more, rest);
    assert [] + s.more == s.more;
  }
}
