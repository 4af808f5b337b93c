/** What the Evaluator of pyTBasic/evaluator.py does to a node, as a pure
    function of the node and the interpreter's state: the module-level
    symbol table and the lines printed so far. A visit ends with a value or
    an exception, and in both cases with the state it leaves behind, since
    stores made before an exception stay in the table. The class in
    evaluator.dfy performs the same visits by updating its fields, and each
    of its methods is proved to agree with the function here. */
module Semantics {
  import opened Outcomes
  import opened Numerals
  import opened BasicTypes

  // ---------------------------------------------------------------------
  // Python values

  /** A Python dict identifies True with 1 and False with 0, so the table
      is keyed by values with booleans replaced by those ints. */
  function Key(v: Value): (k: Value)
    ensures !k.VBool?
  {
    if v.VBool? then VInt(if v.b then 1 else 0) else v
  }

  /** Python truthiness. */
  predicate Truthy(v: Value) {
    match v
    case VInt(i) => i != 0
    case VStr(s) => s != ""
    case VBool(b) => b
    case VNone => false
  }

  /** Ints and bools, which Python arithmetic treats alike. */
  predicate IsNumeric(v: Value) {
    v.VInt? || v.VBool?
  }

  function AsInt(v: Value): int
    requires IsNumeric(v)
  {
    if v.VInt? then v.i else if v.b then 1 else 0
  }

  /** Python's `//` on ints: the quotient rounded towards minus infinity.
      Dafny's `/` is Euclidean, so the two differ for a negative divisor
      that does not divide exactly. */
  function FloorDiv(a: int, b: int): int
    requires b != 0
  {
    if b > 0 || a % b == 0 then a / b else a / b - 1
  }

  /** s * k for a str s and an int k: s repeated k times, empty when k <= 0. */
  function Repeat(s: string, k: int): (r: string)
    decreases k
    ensures |r| == if k <= 0 then 0 else |s| * k
  {
    if k <= 0 then "" else s + Repeat(s, k - 1)
  }

  /** Python's `==` between two values. */
  predicate PyEq(a: Value, b: Value) {
    if IsNumeric(a) && IsNumeric(b) then AsInt(a) == AsInt(b)
    else if a.VStr? && b.VStr? then a.s == b.s
    else a.VNone? && b.VNone?
  }

  /** Python's `<` between two strs: code point by code point. */
  predicate StrLess(a: string, b: string)
    decreases |a|
  {
    if a == [] then b != []
    else if b == [] then false
    else if a[0] != b[0] then a[0] < b[0]
    else StrLess(a[1..], b[1..])
  }

  /** Python's `<` between two values: ints and bools as numbers, two strs
      in order, any other pair a TypeError. */
  function PyLess(a: Value, b: Value): Outcome<bool> {
    if IsNumeric(a) && IsNumeric(b) then Ok(AsInt(a) < AsInt(b))
    else if a.VStr? && b.VStr? then Ok(StrLess(a.s, b.s))
    else Raise(TypeError)
  }

  /** The operators with a visit method of the form visit(left) op visit(right). */
  predicate IsOperator(op: BinaryClass) {
    op != LineNum && op != Assign && op != If
  }

  /** What the operator of class op makes of the values of its two sides. */
  function Apply(op: BinaryClass, a: Value, b: Value): Outcome<Value>
    requires IsOperator(op)
  {
    match op
    case Add =>
      if IsNumeric(a) && IsNumeric(b) then Ok(VInt(AsInt(a) + AsInt(b)))
      else if a.VStr? && b.VStr? then Ok(VStr(a.s + b.s))
      else Raise(TypeError)
    case Sub =>
      if IsNumeric(a) && IsNumeric(b) then Ok(VInt(AsInt(a) - AsInt(b))) else Raise(TypeError)
    case Mul =>
      if IsNumeric(a) && IsNumeric(b) then Ok(VInt(AsInt(a) * AsInt(b)))
      else if a.VStr? && IsNumeric(b) then Ok(VStr(Repeat(a.s, AsInt(b))))
      else if IsNumeric(a) && b.VStr? then Ok(VStr(Repeat(b.s, AsInt(a))))
      else Raise(TypeError)
    case Div =>
      if IsNumeric(a) && IsNumeric(b) then
        if AsInt(b) == 0 then Raise(ZeroDivisionError) else Ok(VInt(FloorDiv(AsInt(a), AsInt(b))))
      else Raise(TypeError)
    case Equal => Ok(VBool(PyEq(a, b)))
    case NotEqual => Ok(VBool(!PyEq(a, b)))
    case LessThan => var r :- PyLess(a, b); Ok(VBool(r))
    case GreaterThan => var r :- PyLess(b, a); Ok(VBool(r))
    case LessOrEqualThan => var r :- PyLess(b, a); Ok(VBool(!r))
    case GreaterOrEqualThan => var r :- PyLess(a, b); Ok(VBool(!r))
    case _ => assert false; Raise(TypeError)
  }

  // ---------------------------------------------------------------------
  // The interpreter's state

  type Table = map<Value, Value>

  /** symbol_table as the module creates it: the letters A to Z, each 0. */
  function InitialTable(): Table {
    map i | 0 <= i < 26 :: Letter(i) := VInt(0)
  }

  /** The name of the i-th letter of the alphabet, as a table key. */
  function Letter(i: int): Value
    requires 0 <= i < 26
  {
    VStr([(65 + i) as char])
  }

  /** The symbol table and the lines printed so far. */
  datatype State = State(table: Table, out: seq<string>)

  /** The end of a visit: its value or exception, and the state after it. */
  datatype Result = Result(value: Outcome<Value>, state: State)

  /** Whether the visitor has a visit_ method for the class of the node;
      LineNum is the one class without. */
  predicate HasHandler(n: Node) {
    !(n.Binary? && n.bop == LineNum)
  }

  /** generic_visit: the error raised for a type without a visit_ method. */
  function NoHandler(typeName: string): Exception {
    RuntimeError("No visit_" + typeName + " method")
  }

  /** The message visit_If raises when the left operand's type has no visit_ method. */
  const IfNoHandler: string := "Whoa, something went completely wrong!"

  // ---------------------------------------------------------------------
  // The visits

  /** visit(node): the visit_ method of the node's class. */
  function Eval(n: Node, st: State): Result
    decreases n, 2
  {
    match n
    case Num(v) => Result(Ok(v), st)
    case String(v) => Result(Ok(v), st)
    case Var(v) =>
      if Key(v) in st.table then Result(Ok(st.table[Key(v)]), st)
      else Result(Raise(KeyError(ReprValue(v))), st)
    case Binary(op, l, r) =>
      if op == LineNum then Result(Raise(NoHandler("LineNum")), st)
      else if op == Assign then
        // the stored value is evaluated before the subscript
        var rr := EvalOperand(r, st);
        if rr.value.Raise? then rr
        else
          var lr := EvalOperand(l, rr.state);
          if lr.value.Raise? then lr
          else Result(Ok(VNone), State(lr.state.table[Key(lr.value.value) := rr.value.value], lr.state.out))
      else if op == If then
        var lr := if l.Child? && HasHandler(l.node) then EvalOperand(l, st)
                  else Result(Raise(SyntaxError(IfNoHandler)), st);
        if lr.value.Raise? then lr
        else if Truthy(lr.value.value) then EvalOperand(r, lr.state)
        else Result(Ok(VNone), lr.state)
      else
        var lr := EvalOperand(l, st);
        if lr.value.Raise? then lr
        else
          var rr := EvalOperand(r, lr.state);
          if rr.value.Raise? then rr
          else Result(Apply(op, lr.value.value, rr.value.value), rr.state)
    case Unary(op, o) =>
      if op == Print then
        var (parts, st1) := PrintItems(o, st);
        if parts.Raise? then Result(parts.PropagateFailure(), st1)
        else Result(Ok(VNone), State(st1.table, st1.out + [Concat(parts.value)]))
      else if op == Let then
        var r := EvalOperand(o, st);
        if r.value.Raise? then r else Result(Ok(VNone), r.state)
      else
        // Goto, Input, Gosub, Return, Clear, List, Run and End do nothing
        Result(Ok(VNone), st)
  }

  /** visit() of an operand: a plain value or a list has no visit_ method. */
  function EvalOperand(o: Operand, st: State): Result
    decreases o, 1
  {
    match o
    case Child(n) => Eval(n, st)
    case Children(_) => Result(Raise(NoHandler("list")), st)
    case Plain(v) => Result(Raise(NoHandler(ValueTypeName(v))), st)
  }

  /** The strings visit_Print collects by iterating over its operand: a
      list is iterated item by item, a str character by character (and a
      one-character str has no visit_ method), anything else is not iterable. */
  function PrintItems(o: Operand, st: State): (Outcome<seq<string>>, State)
    decreases o, 1
  {
    match o
    case Children(ns) => PrintLoop([], ns, st)
    case Plain(v) =>
      if v.VStr? && v.s == "" then (Ok([]), st)
      else if v.VStr? then (Raise(NoHandler("str")), st)
      else (Raise(TypeError), st)
    case Child(_) => (Raise(TypeError), st)
  }

  /** The list comprehension of visit_Print: str() of the visit of each
      item, in order, after the parts collected so far. */
  function PrintLoop(parts: seq<string>, items: seq<Node>, st: State): (Outcome<seq<string>>, State)
    decreases items, 0
  {
    if items == [] then (Ok(parts), st)
    else
      var r := Eval(items[0], st);
      if r.value.Raise? then (r.value.PropagateFailure(), r.state)
      else PrintLoop(parts + [Str(r.value.value)], items[1..], r.state)
  }

  /** ''.join(parts) */
  function Concat(parts: seq<string>): string {
    if parts == [] then "" else parts[0] + Concat(parts[1..])
  }
}
