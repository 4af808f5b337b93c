/** The node classes of pyTBasic/basic_types.py: terminals holding a value,
    unary operators holding one operand and binary operators holding a left
    and a right one, each printed by its class's repr. The Python
    constructors store their arguments as they are, which here is what the
    constructors and destructors of the datatypes do. */
module BasicTypes {
  import opened Numerals

  /** The Python values a terminal can hold and an evaluation can produce. */
  datatype Value = VInt(i: int) | VStr(s: string) | VBool(b: bool) | VNone

  /** The classes derived from BinaryOperator. */
  datatype BinaryClass =
    | LineNum | Add | Sub | Mul | Div
    | Equal | NotEqual | GreaterThan | GreaterOrEqualThan | LessThan | LessOrEqualThan
    | Assign | If

  /** The classes derived from UnaryOperator. */
  datatype UnaryClass = Print | Goto | Input | Let | Gosub | Return | Clear | List | Run | End

  /** A node: a terminal Num, Var or String with its value, or an operator
      node with its operands. */
  datatype Node =
    | Num(value: Value)
    | Var(value: Value)
    | String(value: Value)
    | Binary(bop: BinaryClass, left: Operand, right: Operand)
    | Unary(uop: UnaryClass, operand: Operand)

  /** What an operator node can hold as an operand: a node, a list of nodes
      (as Print and Input are built), or a plain value such as None. */
  datatype Operand = Child(node: Node) | Children(nodes: seq<Node>) | Plain(v: Value)

  /** The classes derived from Relop. */
  predicate IsRelop(op: BinaryClass) {
    op in {Equal, NotEqual, GreaterThan, GreaterOrEqualThan, LessThan, LessOrEqualThan}
  }

  function BinaryName(op: BinaryClass): string {
    match op
    case LineNum => "LineNum"
    case Add => "Add"
    case Sub => "Sub"
    case Mul => "Mul"
    case Div => "Div"
    case Equal => "Equal"
    case NotEqual => "NotEqual"
    case GreaterThan => "GreaterThan"
    case GreaterOrEqualThan => "GreaterOrEqualThan"
    case LessThan => "LessThan"
    case LessOrEqualThan => "LessOrEqualThan"
    case Assign => "Assign"
    case If => "If"
  }

  function UnaryName(op: UnaryClass): string {
    match op
    case Print => "Print"
    case Goto => "Goto"
    case Input => "Input"
    case Let => "Let"
    case Gosub => "Gosub"
    case Return => "Return"
    case Clear => "Clear"
    case List => "List"
    case Run => "Run"
    case End => "End"
  }

  /** type(node).__name__ */
  function TypeName(n: Node): string {
    match n
    case Num(_) => "Num"
    case Var(_) => "Var"
    case String(_) => "String"
    case Binary(op, _, _) => BinaryName(op)
    case Unary(op, _) => UnaryName(op)
  }

  /** type(v).__name__ of a plain value. */
  function ValueTypeName(v: Value): string {
    match v
    case VInt(_) => "int"
    case VStr(_) => "str"
    case VBool(_) => "bool"
    case VNone => "NoneType"
  }

  /** str() of a plain value. */
  function Str(v: Value): string {
    match v
    case VInt(i) => ShowInt(i)
    case VStr(s) => s
    case VBool(b) => if b then "True" else "False"
    case VNone => "None"
  }

  /** repr() of a plain value; a str is shown between single quotes. */
  function ReprValue(v: Value): string {
    if v.VStr? then "'" + v.s + "'" else Str(v)
  }

  /** The items of a list joined by `, `, as str() and repr() of a list show them. */
  function JoinReprs(ns: seq<Node>): string
    decreases ns, 0
  {
    if ns == [] then ""
    else if |ns| == 1 then Repr(ns[0])
    else Repr(ns[0]) + ", " + JoinReprs(ns[1..])
  }

  /** repr() of a node: the class name, then the stored value or operands in
      parentheses. A terminal shows str() of its value, a binary node the
      repr() of both operands and a unary node str() of its operand. */
  function Repr(n: Node): string
    decreases n, 2
  {
    match n
    case Binary(op, l, r) => BinaryName(op) + "(" + ReprOperand(l) + ", " + ReprOperand(r) + ")"
    case Unary(op, o) => UnaryName(op) + "(" + StrOperand(o) + ")"
    case _ => TypeName(n) + "(" + Str(n.value) + ")"
  }

  /** repr() of an operand. */
  function ReprOperand(o: Operand): string
    decreases o, 1
  {
    match o
    case Child(n) => Repr(n)
    case Children(ns) => "[" + JoinReprs(ns) + "]"
    case Plain(v) => ReprValue(v)
  }

  /** str() of an operand: a node has no __str__, so str() falls back on its repr(). */
  function StrOperand(o: Operand): string
    decreases o, 1
  {
    match o
    case Child(n) => Repr(n)
    case Children(ns) => "[" + JoinReprs(ns) + "]"
    case Plain(v) => Str(v)
  }

  /** Every binary class, in the order the module defines them. */
  const BinaryClasses: seq<BinaryClass> :=
    [LineNum, Add, Sub, Mul, Div, Equal, NotEqual, GreaterThan, GreaterOrEqualThan,
     LessThan, LessOrEqualThan, Assign, If]

  /** The positions of ops from i on that hold a relational class. */
  function RelopPositions(ops: seq<BinaryClass>, i: nat): set<nat>
    requires i <= |ops|
  {
    set j: nat | i <= j < |ops| && IsRelop(ops[j])
  }

  /** How many of ops[i..] are relational classes: one per position that holds one. */
  function CountRelops(ops: seq<BinaryClass>, i: nat): (n: nat)
    requires i <= |ops|
    decreases |ops| - i
    ensures n == |RelopPositions(ops, i)|
    ensures n <= |ops| - i
  {
    if i == |ops| then
      assert RelopPositions(ops, i) == {};
      0
    else
      var n := (if IsRelop(ops[i]) then 1 else 0) + CountRelops(ops, i + 1);
      assert RelopPositions(ops, i) == (if IsRelop(ops[i]) then {i} else {}) + RelopPositions(ops, i + 1);
      n
  }
}
