/** Properties of the Evaluator's semantics: the initial symbol table, the
    Python arithmetic and comparisons the operator visits perform, which
    visits change the state and how, and what Assign, If, Print and the
    control keywords do. */
module SemanticsProps {
  import opened Outcomes
  import opened Numerals
  import opened BasicTypes
  import opened Semantics

  // ---------------------------------------------------------------------
  // The initial symbol table

  /** The table starts with exactly the one-letter names A to Z, each 0. */
  lemma InitialTableKeys(k: Value)
    ensures k in InitialTable() <==> k.VStr? && |k.s| == 1 && 'A' <= k.s[0] <= 'Z'
    ensures k in InitialTable() ==> InitialTable()[k] == VInt(0)
  {
    if k.VStr? && |k.s| == 1 && 'A' <= k.s[0] <= 'Z' {
      var i := k.s[0] as int - 65;
      assert Letter(i).s == k.s;
      assert Letter(i) in InitialTable();
    }
  }

  /** The names the tokenizer produces (`V_X`) and the parser's negated
      names (`-V_X`, `-X`) are not keys, so a Var holding one fails to look up. */
  lemma ParserNamesMissing(name: string, st: State)
    requires |name| >= 2
    requires st.table == InitialTable()
    ensures Eval(Var(VStr(name)), st) == Result(Raise(KeyError("'" + name + "'")), st)
  {
    InitialTableKeys(VStr(name));
  }

  /** A Var holding a letter reads that letter's entry, 0 in a fresh table. */
  lemma FreshVarIsZero(c: char, st: State)
    requires 'A' <= c <= 'Z'
    requires st.table == InitialTable()
    ensures Eval(Var(VStr([c])), st) == Result(Ok(VInt(0)), st)
  {
    InitialTableKeys(VStr([c]));
  }

  /** A dict identifies True with 1 and False with 0. */
  lemma BoolKeysAlias(b: bool)
    ensures Key(VBool(b)) == Key(VInt(if b then 1 else 0))
    ensures Key(VStr("1")) != Key(VInt(1))
  {
  }

  // ---------------------------------------------------------------------
  // Arithmetic

  /** FloorDiv is the quotient rounded towards minus infinity: the product
      of the quotient and the divisor lies within one divisor of a, on the
      side of a that the divisor's sign gives. */
  lemma FloorDivIsFloor(a: int, b: int)
    requires b != 0
    ensures b > 0 ==> FloorDiv(a, b) * b <= a < FloorDiv(a, b) * b + b
    ensures b < 0 ==> FloorDiv(a, b) * b + b < a <= FloorDiv(a, b) * b
  {
    var q := a / b;
    assert a == q * b + a % b;
    if b < 0 && a % b != 0 {
      assert (q - 1) * b == q * b - b;
    }
  }

  /** Multiplying by a positive int keeps the order, by a negative one reverses it. */
  lemma MulMonotone(x: int, y: int, b: int)
    requires x <= y
    ensures b > 0 ==> x * b <= y * b
    ensures b < 0 ==> x * b >= y * b
  {
    assert y * b - x * b == (y - x) * b;
  }

  /** The floor quotient is the only int with that property. */
  lemma FloorDivUnique(a: int, b: int, q: int)
    requires b != 0
    requires b > 0 ==> q * b <= a < q * b + b
    requires b < 0 ==> q * b + b < a <= q * b
    ensures q == FloorDiv(a, b)
  {
    FloorDivIsFloor(a, b);
    var f := FloorDiv(a, b);
    assert q * b + b == (q + 1) * b;
    assert f * b + b == (f + 1) * b;
    if q < f {
      MulMonotone(q + 1, f, b);
    } else if q > f {
      MulMonotone(f + 1, q, b);
    }
  }

  /** Divison differs from Dafny's Euclidean quotient for -7 // 2 and 7 // -2. */
  lemma FloorDivNegative()
    ensures FloorDiv(-7, 2) == -4 && FloorDiv(7, -2) == -4 && FloorDiv(-7, -2) == 3
  {
    FloorDivUnique(-7, 2, -4);
    FloorDivUnique(7, -2, -4);
    FloorDivUnique(-7, -2, 3);
  }

  /** On two ints the four arithmetic operators give Python's +, -, * and
      //, with a division by zero failing. */
  lemma IntArithmetic(a: int, b: int)
    ensures Apply(Add, VInt(a), VInt(b)) == Ok(VInt(a + b))
    ensures Apply(Sub, VInt(a), VInt(b)) == Ok(VInt(a - b))
    ensures Apply(Mul, VInt(a), VInt(b)) == Ok(VInt(a * b))
    ensures b == 0 <==> Apply(Div, VInt(a), VInt(b)) == Raise(ZeroDivisionError)
    ensures b != 0 ==> exists q :: Apply(Div, VInt(a), VInt(b)) == Ok(VInt(q)) &&
                                   (b > 0 ==> q * b <= a < q * b + b) &&
                                   (b < 0 ==> q * b + b < a <= q * b)
  {
    if b != 0 {
      FloorDivIsFloor(a, b);
      var q := FloorDiv(a, b);
      assert Apply(Div, VInt(a), VInt(b)) == Ok(VInt(q));
    }
  }

  /** A Div node whose right side evaluates to zero fails, whatever its left side is worth. */
  lemma DivByZero(l: Node, r: Node, st: State)
    requires Eval(l, st).value.Ok? && IsNumeric(Eval(l, st).value.value)
    requires Eval(r, Eval(l, st).state).value == Ok(VInt(0))
    ensures Eval(Binary(Div, Child(l), Child(r)), st).value == Raise(ZeroDivisionError)
  {
  }

  /** str * int repeats the str: the result is k copies of s one after the
      other, so character m of copy j is character m of s. */
  lemma {:induction false} RepeatContents(s: string, k: int, j: int, m: int)
    requires 0 <= j < k && 0 <= m < |s|
    ensures j * |s| + m < |Repeat(s, k)| && Repeat(s, k)[j * |s| + m] == s[m]
    decreases k
  {
    if j > 0 {
      RepeatContents(s, k - 1, j - 1, m);
      assert (j - 1) * |s| + m + |s| == j * |s| + m;
    }
  }

  /** On strs, + is concatenation and * by an int is repetition, in either order. */
  lemma StrArithmetic(s: string, t: string, k: int)
    ensures Apply(Add, VStr(s), VStr(t)) == Ok(VStr(s + t))
    ensures Apply(Mul, VStr(s), VInt(k)) == Apply(Mul, VInt(k), VStr(s)) == Ok(VStr(Repeat(s, k)))
    ensures Apply(Sub, VStr(s), VStr(t)) == Raise(TypeError)
    ensures Apply(Div, VStr(s), VInt(k)) == Raise(TypeError)
  {
  }

  // ---------------------------------------------------------------------
  // Comparisons

  lemma {:induction false} StrLessIrreflexive(a: string)
    ensures !StrLess(a, a)
    decreases |a|
  {
    if a != [] {
      StrLessIrreflexive(a[1..]);
    }
  }

  lemma {:induction false} StrLessAsymmetric(a: string, b: string)
    requires StrLess(a, b)
    ensures !StrLess(b, a)
    decreases |a|
  {
    if a != [] && b != [] && a[0] == b[0] {
      StrLessAsymmetric(a[1..], b[1..]);
    }
  }

  lemma {:induction false} StrLessTotal(a: string, b: string)
    requires a != b
    ensures StrLess(a, b) || StrLess(b, a)
    decreases |a|
  {
    if a != [] && b != [] && a[0] == b[0] {
      assert a == [a[0]] + a[1..] && b == [b[0]] + b[1..];
      StrLessTotal(a[1..], b[1..]);
    }
  }

  lemma {:induction false} StrLessTransitive(a: string, b: string, c: string)
    requires StrLess(a, b) && StrLess(b, c)
    ensures StrLess(a, c)
    decreases |a|
  {
    if a != [] && b != [] && c != [] && a[0] == b[0] && b[0] == c[0] {
      StrLessTransitive(a[1..], b[1..], c[1..]);
    }
  }

  /** Python's == is an equivalence on values, identifying True with 1. */
  lemma PyEqEquivalence(a: Value, b: Value, c: Value)
    ensures PyEq(a, a)
    ensures PyEq(a, b) ==> PyEq(b, a)
    ensures PyEq(a, b) && PyEq(b, c) ==> PyEq(a, c)
    ensures PyEq(VBool(true), VInt(1)) && !PyEq(VStr("1"), VInt(1))
  {
  }

  /** Two values that can be ordered: two numbers or two strs. */
  predicate Comparable(a: Value, b: Value) {
    (IsNumeric(a) && IsNumeric(b)) || (a.VStr? && b.VStr?)
  }

  /** The six relational classes fail exactly on values that != and ==
      cannot order, and on the others give one consistent ordering: exactly
      one of <, == and > holds, and !=, >= and <= are the negations of ==, <
      and >. */
  lemma RelopsConsistent(a: Value, b: Value)
    ensures Apply(Equal, a, b).Ok? && Apply(NotEqual, a, b).Ok?
    ensures Apply(NotEqual, a, b).value.b == !Apply(Equal, a, b).value.b
    ensures Apply(LessThan, a, b).Ok? <==> Comparable(a, b)
    ensures Apply(GreaterThan, a, b).Ok? <==> Comparable(a, b)
    ensures Apply(LessOrEqualThan, a, b).Ok? <==> Comparable(a, b)
    ensures Apply(GreaterOrEqualThan, a, b).Ok? <==> Comparable(a, b)
    ensures Comparable(a, b) ==> Apply(GreaterOrEqualThan, a, b).value.b == !Apply(LessThan, a, b).value.b
    ensures Comparable(a, b) ==> Apply(LessOrEqualThan, a, b).value.b == !Apply(GreaterThan, a, b).value.b
    ensures Comparable(a, b) ==> Apply(GreaterThan, a, b) == Apply(LessThan, b, a)
    ensures Comparable(a, b) ==>
      (if Apply(Equal, a, b).value.b then 1 else 0) + (if Apply(LessThan, a, b).value.b then 1 else 0) +
      (if Apply(GreaterThan, a, b).value.b then 1 else 0) == 1
  {
    if a.VStr? && b.VStr? {
      if a.s == b.s {
        StrLessIrreflexive(a.s);
      } else {
        StrLessTotal(a.s, b.s);
        if StrLess(a.s, b.s) {
          StrLessAsymmetric(a.s, b.s);
        } else {
          StrLessAsymmetric(b.s, a.s);
        }
      }
    }
  }

  /** On two ints the relational classes are the integer comparisons. */
  lemma IntRelops(a: int, b: int)
    ensures Apply(Equal, VInt(a), VInt(b)) == Ok(VBool(a == b))
    ensures Apply(NotEqual, VInt(a), VInt(b)) == Ok(VBool(a != b))
    ensures Apply(GreaterThan, VInt(a), VInt(b)) == Ok(VBool(a > b))
    ensures Apply(GreaterOrEqualThan, VInt(a), VInt(b)) == Ok(VBool(a >= b))
    ensures Apply(LessThan, VInt(a), VInt(b)) == Ok(VBool(a < b))
    ensures Apply(LessOrEqualThan, VInt(a), VInt(b)) == Ok(VBool(a <= b))
  {
  }
}
