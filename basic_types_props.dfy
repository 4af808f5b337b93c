/** Properties of the node classes of pyTBasic/basic_types.py: which classes
    are relational operators, that the class names tell the classes apart,
    and what repr() shows of a node. */
module BasicTypesProps {
  import opened Numerals
  import opened BasicTypes

  /** BinaryClasses lists every binary class once. */
  lemma BinaryClassesComplete(op: BinaryClass)
    ensures op in BinaryClasses
    ensures forall i, j :: 0 <= i < j < |BinaryClasses| ==> BinaryClasses[i] != BinaryClasses[j]
  {
  }

  /** Exactly six binary classes are relational operators; LineNum, Assign,
      If and the arithmetic classes are binary operators of no Relop class. */
  lemma SixRelops()
    ensures CountRelops(BinaryClasses, 0) == 6
    ensures !IsRelop(LineNum) && !IsRelop(Assign) && !IsRelop(If)
    ensures !IsRelop(Add) && !IsRelop(Sub) && !IsRelop(Mul) && !IsRelop(Div)
  {
    var b := BinaryClasses;
    assert CountRelops(b, 11) == 0;
    assert CountRelops(b, 5) == 6;
  }

  /** Two binary classes with the same name are the same class. */
  lemma BinaryNameInjective(a: BinaryClass, b: BinaryClass)
    requires BinaryName(a) == BinaryName(b)
    ensures a == b
  {
    assert BinaryName(a)[0] == BinaryName(b)[0];
    assert |BinaryName(a)| == |BinaryName(b)|;
  }

  /** Two unary classes with the same name are the same class. */
  lemma UnaryNameInjective(a: UnaryClass, b: UnaryClass)
    requires UnaryName(a) == UnaryName(b)
    ensures a == b
  {
    assert UnaryName(a)[0] == UnaryName(b)[0];
    assert |UnaryName(a)| == |UnaryName(b)|;
  }

  /** The repr of a node opens with its class name and a parenthesis and closes with a parenthesis. */
  lemma ReprFramed(n: Node)
    ensures TypeName(n) + "(" <= Repr(n)
    ensures Repr(n)[|Repr(n)| - 1] == ')'
  {
  }

  /** The repr of a binary node with a node on the left shows the repr of
      that node right after the opening parenthesis. */
  lemma ReprShowsLeft(op: BinaryClass, l: Node, r: Operand)
    ensures var s := Repr(Binary(op, Child(l), r)); var k := |BinaryName(op)| + 1;
      k + |Repr(l)| <= |s| && s[k..k + |Repr(l)|] == Repr(l)
  {
    var s := Repr(Binary(op, Child(l), r));
    var k := |BinaryName(op)| + 1;
    assert s == (BinaryName(op) + "(") + Repr(l) + (", " + ReprOperand(r) + ")");
  }

  /** The repr of a terminal shows str() of its value, so it does not tell
      a str value from an int value: String('1') and String(1) print alike. */
  lemma ReprHidesValueType()
    ensures Repr(String(VStr("1"))) == Repr(String(VInt(1)))
    ensures String(VStr("1")) != String(VInt(1))
  {
    assert ShowNat(1) == "1";
  }

  /** String('hi') prints as String(hi). */
  lemma ReprOfString()
    ensures Repr(String(VStr("hi"))) == "String(hi)"
  {
  }

  /** The reprs of the items of a list, in order. */
  function Reprs(ns: seq<Node>): (r: seq<string>)
    ensures |r| == |ns| && forall k :: 0 <= k < |ns| ==> r[k] == Repr(ns[k])
  {
    seq(|ns|, k requires 0 <= k < |ns| => Repr(ns[k]))
  }

  /** ', '.join(parts), written from the last part backwards. */
  function JoinComma(parts: seq<string>): string {
    if parts == [] then ""
    else if |parts| == 1 then parts[0]
    else JoinComma(parts[..|parts| - 1]) + ", " + parts[|parts| - 1]
  }

  /** Joining a part in front of other parts puts one separator between them. */
  lemma {:induction false} JoinCommaCons(p: string, parts: seq<string>)
    requires parts != []
    ensures JoinComma([p] + parts) == p + ", " + JoinComma(parts)
    decreases |parts|
  {
    var ps := [p] + parts;
    if |parts| > 1 {
      var init := parts[..|parts| - 1];
      assert ps[..|ps| - 1] == [p] + init;
      assert ps[|ps| - 1] == parts[|parts| - 1];
      JoinCommaCons(p, init);
      assert JoinComma(ps) == JoinComma([p] + init) + ", " + parts[|parts| - 1];
      assert JoinComma(parts) == JoinComma(init) + ", " + parts[|parts| - 1];
    } else {
      assert ps[..1] == [p];
    }
  }

  /** JoinReprs is ', '.join of the items' reprs. */
  lemma {:induction false} JoinReprsIsJoin(ns: seq<Node>)
    ensures JoinReprs(ns) == JoinComma(Reprs(ns))
    decreases |ns|
  {
    if |ns| > 1 {
      ReprsCons(ns);
      JoinReprsIsJoin(ns[1..]);
      JoinCommaCons(Repr(ns[0]), Reprs(ns[1..]));
      assert JoinReprs(ns) == Repr(ns[0]) + ", " + JoinReprs(ns[1..]);
    } else if |ns| == 1 {
      assert Reprs(ns) == [Repr(ns[0])];
    }
  }

  lemma ReprsCons(ns: seq<Node>)
    requires ns != []
    ensures Reprs(ns) == [Repr(ns[0])] + Reprs(ns[1..])
  {
  }

  /** A unary node over a list shows the list as str() of a list does: the
      repr of each item, in order, separated by `, `, in brackets. */
  lemma ReprOfList(op: UnaryClass, ns: seq<Node>)
    ensures Repr(Unary(op, Children(ns))) == UnaryName(op) + "(" + "[" + JoinComma(Reprs(ns)) + "]" + ")"
  {
    JoinReprsIsJoin(ns);
  }

  /** A binary node shows a plain str operand in quotes, a unary node without. */
  lemma ReprOfPlainOperands()
    ensures Repr(Binary(Assign, Plain(VStr("Y")), Plain(VNone))) == "Assign('Y', None)"
    ensures Repr(Unary(Let, Plain(VStr("Y")))) == "Let(Y)"
  {
  }
}
