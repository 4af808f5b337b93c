/** The Evaluator of pyTBasic/evaluator.py: a node visitor whose visit_
    methods read and store entries of the module-level symbol table and
    print lines. The table and the printed lines are fields of the class
    here, and every method is proved to agree with the Eval function of the
    Semantics module: it returns the value or the exception that Eval gives
    and leaves the fields at the state Eval gives. */
module Evaluation {
  import opened Outcomes
  import opened BasicTypes
  import opened Semantics

  class Evaluator {
    /** symbol_table */
    var symbolTable: Table
    /** The lines print() has written, oldest first. */
    var printed: seq<string>

    function St(): State
      reads this
    {
      State(symbolTable, printed)
    }

    /** A fresh interpreter: the table A to Z, all 0, and nothing printed. */
    constructor()
      ensures St() == State(InitialTable(), [])
    {
      symbolTable := InitialTable();
      printed := [];
    }

    /** visit: dispatch on the class of the node. */
    method Visit(n: Node) returns (r: Outcome<Value>)
      modifies this
      decreases n, 2
      ensures Result(r, St()) == Eval(n, old(St()))
    {
      match n {
        case Num(v) => r := VisitNum(n);
        case String(v) => r := VisitString(n);
        case Var(v) => r := VisitVar(n);
        case Binary(op, left, right) =>
          if op == LineNum {
            r := GenericVisit(n);
          } else if op == Assign {
            r := VisitAssign(n);
          } else if op == If {
            r := VisitIf(n);
          } else {
            r := VisitOperator(n);
          }
        case Unary(op, operand) =>
          if op == Print {
            r := VisitPrint(n);
          } else if op == Let {
            r := VisitLet(n);
          } else {
            // visit_Goto, visit_Input, visit_Gosub, visit_Return,
            // visit_Clear, visit_List, visit_Run and visit_End: pass
            r := Ok(VNone);
          }
      }
    }

    /** visit applied to an operand that may not be a node. */
    method VisitOperand(o: Operand) returns (r: Outcome<Value>)
      modifies this
      decreases o, 1
      ensures Result(r, St()) == EvalOperand(o, old(St()))
    {
      match o {
        case Child(n) => r := Visit(n);
        case Children(_) => r := Raise(NoHandler("list"));
        case Plain(v) => r := Raise(NoHandler(ValueTypeName(v)));
      }
    }

    /** generic_visit */
    method GenericVisit(n: Node) returns (r: Outcome<Value>)
      ensures r == Raise(NoHandler(TypeName(n)))
      ensures !HasHandler(n) ==> Result(r, St()) == Eval(n, St())
    {
      r := Raise(NoHandler(TypeName(n)));
    }

    /** visit_Num: the stored value. */
    method VisitNum(n: Node) returns (r: Outcome<Value>)
      requires n.Num?
      ensures r == Ok(n.value)
      ensures Result(r, St()) == Eval(n, St())
    {
      r := Ok(n.value);
    }

    /** visit_String: the stored value. */
    method VisitString(n: Node) returns (r: Outcome<Value>)
      requires n.String?
      ensures r == Ok(n.value)
      ensures Result(r, St()) == Eval(n, St())
    {
      r := Ok(n.value);
    }

    /** visit_Var: the table entry of the stored name, or a KeyError. */
    method VisitVar(n: Node) returns (r: Outcome<Value>)
      requires n.Var?
      ensures Key(n.value) in symbolTable ==> r == Ok(symbolTable[Key(n.value)])
      ensures Key(n.value) !in symbolTable ==> r == Raise(KeyError(ReprValue(n.value)))
      ensures Result(r, St()) == Eval(n, St())
    {
      var k := Key(n.value);
      if k in symbolTable {
        r := Ok(symbolTable[k]);
      } else {
        r := Raise(KeyError(ReprValue(n.value)));
      }
    }

    /** visit_Add, visit_Sub, visit_Mul, visit_Div and the visits of the six
        relational classes: the left side, then the right side, then the operator. */
    method VisitOperator(n: Node) returns (r: Outcome<Value>)
      requires n.Binary? && IsOperator(n.bop)
      modifies this
      decreases n, 1
      ensures Result(r, St()) == Eval(n, old(St()))
    {
      var a := VisitOperand(n.left);
      if a.Raise? {
        return a;
      }
      var b := VisitOperand(n.right);
      if b.Raise? {
        return b;
      }
      r := Apply(n.bop, a.value, b.value);
    }

    /** visit_Assign: symbol_table[visit(left)] = visit(right), the right
        side visited first. */
    method VisitAssign(n: Node) returns (r: Outcome<Value>)
      requires n.Binary? && n.bop == Assign
      modifies this
      decreases n, 1
      ensures Result(r, St()) == Eval(n, old(St()))
    {
      var value := VisitOperand(n.right);
      if value.Raise? {
        return value;
      }
      var key := VisitOperand(n.left);
      if key.Raise? {
        return key;
      }
      symbolTable := symbolTable[Key(key.value) := value.value];
      r := Ok(VNone);
    }

    /** visit_If: the left operand through its own visit_ method, then the
        right operand when the left one's value is truthy. */
    method VisitIf(n: Node) returns (r: Outcome<Value>)
      requires n.Binary? && n.bop == If
      modifies this
      decreases n, 1
      ensures Result(r, St()) == Eval(n, old(St()))
    {
      if !(n.left.Child? && HasHandler(n.left.node)) {
        return Raise(SyntaxError(IfNoHandler));
      }
      var result := VisitOperand(n.left);
      if result.Raise? {
        return result;
      }
      if Truthy(result.value) {
        r := VisitOperand(n.right);
      } else {
        r := Ok(VNone);
      }
    }

    /** visit_Let: visits its operand for its effect. */
    method VisitLet(n: Node) returns (r: Outcome<Value>)
      requires n.Unary? && n.uop == Let
      modifies this
      decreases n, 1
      ensures Result(r, St()) == Eval(n, old(St()))
    {
      var v := VisitOperand(n.operand);
      if v.Raise? {
        return v;
      }
      r := Ok(VNone);
    }

    /** visit_Print: str() of the visit of each item of the operand, in
        order, joined into one printed line. */
    method VisitPrint(n: Node) returns (r: Outcome<Value>)
      requires n.Unary? && n.uop == Print
      modifies this
      decreases n, 1
      ensures Result(r, St()) == Eval(n, old(St()))
    {
      var parts: seq<string> := [];
      match n.operand {
        case Children(items) =>
          var i := 0;
          while i < |items|
            invariant 0 <= i <= |items|
            invariant PrintLoop(parts, items[i..], St()) == PrintItems(n.operand, old(St()))
          {
            assert items[i..][1..] == items[i + 1..];
            var v := Visit(items[i]);
            if v.Raise? {
              return v;
            }
            parts := parts + [Str(v.value)];
            i := i + 1;
          }
        case Plain(v) =>
          if !(v.VStr? && v.s == "") {
            // iterating a str yields one-character strs, which have no
            // visit_ method; any other value is not iterable
            return if v.VStr? then Raise(NoHandler("str")) else Raise(TypeError);
          }
        case Child(_) =>
          return Raise(TypeError);
      }
      printed := printed + [Concat(parts)];
      r := Ok(VNone);
    }
  }
}
