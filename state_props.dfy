/** How the visits change the interpreter's state: which visits leave it
    alone, that the table never loses a key and the printed lines only grow,
    and what Assign, If, Print, Let, LineNum and the control keywords do to
    it. */
module StateProps {
  import opened Outcomes
  import opened Numerals
  import opened BasicTypes
  import opened Semantics

  // ---------------------------------------------------------------------
  // Growth of the state

  /** b is a later state than a: every key of a is still a key, and the
      lines printed by then begin with the lines of a. */
  predicate Extends(a: State, b: State) {
    a.table.Keys <= b.table.Keys && a.out <= b.out
  }

  /** No visit removes a key from the table or takes back a printed line. */
  lemma {:induction false} EvalExtends(n: Node, st: State)
    ensures Extends(st, Eval(n, st).state)
    decreases n, 2
  {
    match n
    case Binary(op, l, r) =>
      if op == Assign {
        EvalOperandExtends(r, st);
        EvalOperandExtends(l, EvalOperand(r, st).state);
      } else if op == If {
        if l.Child? && HasHandler(l.node) {
          EvalOperandExtends(l, st);
          EvalOperandExtends(r, EvalOperand(l, st).state);
        }
      } else if op != LineNum {
        EvalOperandExtends(l, st);
        EvalOperandExtends(r, EvalOperand(l, st).state);
      }
    case Unary(op, o) =>
      if op == Print {
        PrintItemsExtends(o, st);
      } else if op == Let {
        EvalOperandExtends(o, st);
      }
    case _ =>
  }

  lemma {:induction false} EvalOperandExtends(o: Operand, st: State)
    ensures Extends(st, EvalOperand(o, st).state)
    decreases o, 1
  {
    if o.Child? {
      EvalExtends(o.node, st);
    }
  }

  lemma {:induction false} PrintItemsExtends(o: Operand, st: State)
    ensures Extends(st, PrintItems(o, st).1)
    decreases o, 1
  {
    if o.Children? {
      PrintLoopExtends([], o.nodes, st);
    }
  }

  lemma {:induction false} PrintLoopExtends(parts: seq<string>, items: seq<Node>, st: State)
    ensures Extends(st, PrintLoop(parts, items, st).1)
    decreases items, 0
  {
    if items != [] {
      var r := Eval(items[0], st);
      EvalExtends(items[0], st);
      if r.value.Ok? {
        PrintLoopExtends(parts + [Str(r.value.value)], items[1..], r.state);
      }
    }
  }

  // ---------------------------------------------------------------------
  // Visits without effect

  /** A node with no Assign and no Print inside it. */
  predicate EffectFree(n: Node)
    decreases n, 2
  {
    match n
    case Binary(op, l, r) => op != Assign && EffectFreeOperand(l) && EffectFreeOperand(r)
    case Unary(op, o) => op != Print && EffectFreeOperand(o)
    case _ => true
  }

  /** An operand whose visit has no effect; a list is never visited outside Print. */
  predicate EffectFreeOperand(o: Operand)
    decreases o, 1
  {
    o.Child? ==> EffectFree(o.node)
  }

  /** Visiting a node with no Assign and no Print changes neither the table
      nor the printed lines, whether it returns or raises. */
  lemma {:induction false} EffectFreeKeepsState(n: Node, st: State)
    requires EffectFree(n)
    ensures Eval(n, st).state == st
    decreases n, 2
  {
    match n
    case Binary(op, l, r) =>
      if op == If {
        if l.Child? && HasHandler(l.node) {
          EffectFreeOperandKeepsState(l, st);
          EffectFreeOperandKeepsState(r, st);
        }
      } else if op != LineNum {
        EffectFreeOperandKeepsState(l, st);
        EffectFreeOperandKeepsState(r, st);
      }
    case Unary(op, o) =>
      if op == Let {
        EffectFreeOperandKeepsState(o, st);
      }
    case _ =>
  }

  lemma {:induction false} EffectFreeOperandKeepsState(o: Operand, st: State)
    requires EffectFreeOperand(o)
    ensures EvalOperand(o, st).state == st
    decreases o, 1
  {
    if o.Child? {
      EffectFreeKeepsState(o.node, st);
    }
  }

  // ---------------------------------------------------------------------
  // Assign and Let

  /** Assign visits its right side before its left: when the right side
      raises, that exception ends the visit, the left side is never visited
      and nothing is stored. */
  lemma AssignRightFirst(l: Operand, r: Operand, st: State)
    requires EvalOperand(r, st).value.Raise?
    ensures Eval(Binary(Assign, l, r), st) == EvalOperand(r, st)
  {
  }

  /** A successful Assign stores the right side's value under the key the
      left side evaluates to, and changes no other entry and no printed line. */
  lemma AssignStoresOneKey(l: Operand, r: Operand, st: State, k: Value)
    requires EvalOperand(r, st).value.Ok?
    requires EvalOperand(l, EvalOperand(r, st).state).value.Ok?
    ensures
      var rr := EvalOperand(r, st);
      var lr := EvalOperand(l, rr.state);
      var res := Eval(Binary(Assign, l, r), st);
      var key := Key(lr.value.value);
      res.value == Ok(VNone) &&
      res.state.out == lr.state.out &&
      key in res.state.table && res.state.table[key] == rr.value.value &&
      (k != key ==> (k in res.state.table <==> k in lr.state.table)) &&
      (k != key && k in lr.state.table ==> res.state.table[k] == lr.state.table[k])
  {
  }

  /** With sides that have no effect of their own, Assign either stores
      exactly one entry of the table or, when a side raises, leaves the
      state as it was. */
  lemma AssignEffectFree(l: Operand, r: Operand, st: State)
    requires EffectFreeOperand(l) && EffectFreeOperand(r)
    ensures
      var res := Eval(Binary(Assign, l, r), st);
      var vr := EvalOperand(r, st).value;
      var vl := EvalOperand(l, st).value;
      (res.value.Ok? <==> vr.Ok? && vl.Ok?) &&
      (res.value.Raise? ==> res.state == st && res.value == (if vr.Raise? then vr else vl)) &&
      (res.value.Ok? ==> res.state == State(st.table[Key(vl.value) := vr.value], st.out))
  {
    EffectFreeOperandKeepsState(r, st);
    EffectFreeOperandKeepsState(l, st);
  }

  /** The form the parser tests build, Let(Assign(String(name), e)): the
      value of e is stored under the name itself. */
  lemma LetAssignString(name: string, e: Node, st: State)
    requires EffectFree(e) && Eval(e, st).value.Ok?
    ensures Eval(Unary(Let, Child(Binary(Assign, Child(String(VStr(name))), Child(e)))), st)
         == Result(Ok(VNone), State(st.table[VStr(name) := Eval(e, st).value.value], st.out))
  {
    EffectFreeKeepsState(e, st);
    var assign := Binary(Assign, Child(String(VStr(name))), Child(e));
    assert EvalOperand(Child(e), st) == Eval(e, st);
    assert EvalOperand(Child(String(VStr(name))), st) == Result(Ok(VStr(name)), st);
    assert Eval(assign, st) == Result(Ok(VNone), State(st.table[VStr(name) := Eval(e, st).value.value], st.out));
    assert EvalOperand(Child(assign), st) == Eval(assign, st);
  }

  /** Assign visits its left side too, so with a Var on the left the key is
      the variable's current value, not its name. */
  lemma AssignThroughVar(name: string, e: Node, st: State)
    requires EffectFree(e) && Eval(e, st).value.Ok?
    requires VStr(name) in st.table
    ensures Eval(Binary(Assign, Child(Var(VStr(name))), Child(e)), st)
         == Result(Ok(VNone), State(st.table[Key(st.table[VStr(name)]) := Eval(e, st).value.value], st.out))
  {
    EffectFreeKeepsState(e, st);
  }

  /** Let returns None after visiting its operand, and raises what the visit raises. */
  lemma LetVisitsOperand(o: Operand, st: State)
    ensures Eval(Unary(Let, o), st).state == EvalOperand(o, st).state
    ensures Eval(Unary(Let, o), st).value ==
            (if EvalOperand(o, st).value.Raise? then EvalOperand(o, st).value else Ok(VNone))
  {
  }

  // ---------------------------------------------------------------------
  // If

  /** If visits its right side exactly when its left side is a node with a
      visit_ method whose value is truthy, returns None with no further
      effect when that value is falsy, and raises SyntaxError without
      visiting anything when the left side has no visit_ method. */
  lemma IfCases(l: Operand, r: Operand, st: State)
    ensures !(l.Child? && HasHandler(l.node)) ==>
      Eval(Binary(If, l, r), st) == Result(Raise(SyntaxError(IfNoHandler)), st)
    ensures l.Child? && HasHandler(l.node) && EvalOperand(l, st).value.Ok? ==>
      Eval(Binary(If, l, r), st) ==
        if Truthy(EvalOperand(l, st).value.value) then EvalOperand(r, EvalOperand(l, st).state)
        else Result(Ok(VNone), EvalOperand(l, st).state)
  {
  }

  /** The SyntaxError of If comes only from a left side without a visit_
      method or from inside one of the two sides. */
  lemma IfSyntaxErrorOnlyWithoutHandler(l: Operand, r: Operand, st: State)
    requires Eval(Binary(If, l, r), st).value == Raise(SyntaxError(IfNoHandler))
    requires l.Child? && HasHandler(l.node)
    ensures EvalOperand(l, st).value == Raise(SyntaxError(IfNoHandler)) ||
            EvalOperand(r, EvalOperand(l, st).state).value == Raise(SyntaxError(IfNoHandler))
  {
  }

  /** The tests' form IF X > 2 THEN LET Y = 3 on a table holding X. */
  lemma IfGreaterThenLet(x: int, st: State)
    requires VStr("X") in st.table && st.table[VStr("X")] == VInt(x)
    ensures Eval(Binary(If, Child(Binary(GreaterThan, Child(Var(VStr("X"))), Child(Num(VInt(2))))),
                        Child(Unary(Let, Child(Binary(Assign, Child(String(VStr("Y"))), Child(Num(VInt(3)))))))), st)
         == Result(Ok(VNone), if x > 2 then State(st.table[VStr("Y") := VInt(3)], st.out) else st)
  {
    var cond := Binary(GreaterThan, Child(Var(VStr("X"))), Child(Num(VInt(2))));
    var body := Unary(Let, Child(Binary(Assign, Child(String(VStr("Y"))), Child(Num(VInt(3))))));
    assert Eval(cond, st) == Result(Ok(VBool(x > 2)), st);
    IfCases(Child(cond), Child(body), st);
    LetAssignString("Y", Num(VInt(3)), st);
  }

  // ---------------------------------------------------------------------
  // Print

  /** ''.join of a list with one more part ends in that part. */
  lemma {:induction false} ConcatSnoc(parts: seq<string>, p: string)
    ensures Concat(parts + [p]) == Concat(parts) + p
  {
    if parts != [] {
      assert (parts + [p])[1..] == parts[1..] + [p];
      ConcatSnoc(parts[1..], p);
    }
  }

  /** Every item has no effect. */
  predicate AllEffectFree(items: seq<Node>) {
    forall i :: 0 <= i < |items| ==> EffectFree(items[i])
  }

  /** Every item has a value. */
  predicate AllOk(items: seq<Node>, st: State) {
    forall i :: 0 <= i < |items| ==> Eval(items[i], st).value.Ok?
  }

  /** The str() of the value of each item, in order, for items that all have a value. */
  function ItemStrs(items: seq<Node>, st: State): (ss: seq<string>)
    requires AllOk(items, st)
    ensures |ss| == |items|
  {
    if items == [] then [] else [Str(Eval(items[0], st).value.value)] + ItemStrs(items[1..], st)
  }

  lemma {:induction false} ItemStrsAt(items: seq<Node>, st: State, i: int)
    requires AllOk(items, st) && 0 <= i < |items|
    ensures ItemStrs(items, st)[i] == Str(Eval(items[i], st).value.value)
  {
    if i > 0 {
      AllRest(items, st);
      ItemStrsAt(items[1..], st, i - 1);
    }
  }

  lemma AllRest(items: seq<Node>, st: State)
    requires items != []
    ensures AllEffectFree(items) ==> AllEffectFree(items[1..])
    ensures AllOk(items, st) <==> Eval(items[0], st).value.Ok? && AllOk(items[1..], st)
  {
    if Eval(items[0], st).value.Ok? && AllOk(items[1..], st) {
      forall i | 0 < i < |items|
        ensures Eval(items[i], st).value.Ok?
      {
        assert items[i] == items[1..][i - 1];
      }
    }
  }

  /** The loop of Print over items with no effect leaves the state as it is. */
  lemma {:induction false} PrintLoopKeepsState(parts: seq<string>, items: seq<Node>, st: State)
    requires AllEffectFree(items)
    ensures PrintLoop(parts, items, st).1 == st
    decreases items
  {
    if items != [] {
      EffectFreeKeepsState(items[0], st);
      AllRest(items, st);
      var r := Eval(items[0], st);
      if r.value.Ok? {
        PrintLoopKeepsState(parts + [Str(r.value.value)], items[1..], st);
      }
    }
  }

  /** Over items with no effect, the loop of Print succeeds exactly when
      every item has a value, and then collects str() of each value after
      the parts so far. */
  lemma {:induction false} PrintLoopCollects(parts: seq<string>, items: seq<Node>, st: State)
    requires AllEffectFree(items)
    ensures PrintLoop(parts, items, st).0.Ok? <==> AllOk(items, st)
    ensures AllOk(items, st) ==> PrintLoop(parts, items, st).0 == Ok(parts + ItemStrs(items, st))
    decreases items
  {
    if items == [] {
      assert parts + ItemStrs(items, st) == parts;
    } else {
      EffectFreeKeepsState(items[0], st);
      AllRest(items, st);
      var r := Eval(items[0], st);
      if r.value.Ok? {
        var p := Str(r.value.value);
        PrintLoopCollects(parts + [p], items[1..], st);
        assert PrintLoop(parts, items, st) == PrintLoop(parts + [p], items[1..], st);
        if AllOk(items, st) {
          assert ItemStrs(items, st) == [p] + ItemStrs(items[1..], st);
          assert parts + [p] + ItemStrs(items[1..], st) == parts + ([p] + ItemStrs(items[1..], st));
        }
      }
    }
  }

  /** Over items with no effect, a failing loop of Print raises the
      exception of the first item without a value. */
  lemma {:induction false} PrintLoopFirstFailure(parts: seq<string>, items: seq<Node>, st: State, k: nat)
    requires AllEffectFree(items)
    requires k < |items| && Eval(items[k], st).value.Raise?
    requires forall j :: 0 <= j < k ==> Eval(items[j], st).value.Ok?
    ensures PrintLoop(parts, items, st).0 == Raise(Eval(items[k], st).value.exc)
    decreases items
  {
    EffectFreeKeepsState(items[0], st);
    AllRest(items, st);
    if k > 0 {
      var r := Eval(items[0], st);
      var rest := items[1..];
      forall j | 0 <= j < k - 1
        ensures Eval(rest[j], st).value.Ok?
      {
        assert rest[j] == items[j + 1];
      }
      PrintLoopFirstFailure(parts + [Str(r.value.value)], rest, st, k - 1);
    }
  }

  /** Print of a list of items with no effect either prints the in-order
      concatenation of str() of their values as one new line, with no
      separator, or prints nothing and leaves the state as it was. */
  lemma PrintEffectFree(items: seq<Node>, st: State)
    requires AllEffectFree(items)
    ensures var res := Eval(Unary(Print, Children(items)), st);
      (res.value.Ok? <==> AllOk(items, st)) &&
      (AllOk(items, st) ==> res.state == State(st.table, st.out + [Concat(ItemStrs(items, st))])) &&
      (res.value.Raise? ==> res.state == st)
  {
    PrintLoopKeepsState([], items, st);
    PrintLoopCollects([], items, st);
    var lp := PrintLoop([], items, st);
    assert PrintItems(Children(items), st) == lp;
    if AllOk(items, st) {
      assert [] + ItemStrs(items, st) == ItemStrs(items, st);
      assert lp.0.value == ItemStrs(items, st);
      assert Eval(Unary(Print, Children(items)), st) == Result(Ok(VNone), State(lp.1.table, lp.1.out + [Concat(lp.0.value)]));
    }
  }

  /** The exception a failing Print of items with no effect raises is that
      of its first item without a value. */
  lemma PrintFirstFailure(items: seq<Node>, st: State, k: nat)
    requires AllEffectFree(items)
    requires k < |items| && Eval(items[k], st).value.Raise?
    requires forall j :: 0 <= j < k ==> Eval(items[j], st).value.Ok?
    ensures Eval(Unary(Print, Children(items)), st) == Result(Eval(items[k], st).value, st)
  {
    PrintLoopKeepsState([], items, st);
    PrintLoopFirstFailure([], items, st, k);
  }

  /** Print of an empty list prints an empty line; Print of "" does too,
      while Print of any other str or of a value that is not a list raises. */
  lemma PrintOperands(s: string, v: Value, n: Node, st: State)
    ensures Eval(Unary(Print, Children([])), st) == Result(Ok(VNone), State(st.table, st.out + [""]))
    ensures Eval(Unary(Print, Plain(VStr(""))), st) == Result(Ok(VNone), State(st.table, st.out + [""]))
    ensures s != "" ==> Eval(Unary(Print, Plain(VStr(s))), st) == Result(Raise(RuntimeError("No visit_str method")), st)
    ensures !v.VStr? ==> Eval(Unary(Print, Plain(v)), st) == Result(Raise(TypeError), st)
    ensures Eval(Unary(Print, Child(n)), st) == Result(Raise(TypeError), st)
  {
    var m := "No visit_" + "str" + " method";
    assert |m| == |"No visit_str method"|;
    assert forall i :: 0 <= i < |m| ==> m[i] == "No visit_str method"[i];
    assert m == "No visit_str method";
    assert NoHandler("str") == RuntimeError(m);
  }

  /** The tests' form PRINT "B is ", B. */
  lemma PrintStringAndVar(b: int, st: State)
    requires VStr("B") in st.table && st.table[VStr("B")] == VInt(b)
    ensures Eval(Unary(Print, Children([String(VStr("B is ")), Var(VStr("B"))])), st)
         == Result(Ok(VNone), State(st.table, st.out + ["B is " + ShowInt(b)]))
  {
    var items := [String(VStr("B is ")), Var(VStr("B"))];
    assert Eval(items[0], st).value == Ok(VStr("B is "));
    assert Eval(items[1], st).value == Ok(VInt(b));
    assert AllOk(items, st);
    PrintEffectFree(items, st);
    var ss := ItemStrs(items, st);
    assert ss == ["B is "] + [ShowInt(b)];
    ConcatSnoc(["B is "], ShowInt(b));
    assert Concat(["B is "]) == "B is ";
  }

  // ---------------------------------------------------------------------
  // No-ops and nodes without a visit_ method

  /** Goto, Input, Gosub, Return, Clear, List, Run and End return None and
      change nothing, without visiting their operand. */
  lemma ControlKeywordsNoOp(op: UnaryClass, o: Operand, st: State)
    requires op != Print && op != Let
    ensures Eval(Unary(op, o), st) == Result(Ok(VNone), st)
  {
  }

  /** LineNum has no visit_ method, so visiting it raises RuntimeError
      naming it, and changes nothing. */
  lemma LineNumRaises(l: Operand, r: Operand, st: State)
    ensures Eval(Binary(LineNum, l, r), st) == Result(Raise(RuntimeError("No visit_LineNum method")), st)
    ensures !HasHandler(Binary(LineNum, l, r)) && TypeName(Binary(LineNum, l, r)) == "LineNum"
  {
    var m := "No visit_" + "LineNum" + " method";
    assert |m| == |"No visit_LineNum method"|;
    assert forall i :: 0 <= i < |m| ==> m[i] == "No visit_LineNum method"[i];
    assert m == "No visit_LineNum method";
    assert NoHandler("LineNum") == RuntimeError(m);
    assert Eval(Binary(LineNum, l, r), st) == Result(Raise(NoHandler("LineNum")), st);
  }

  /** A list operand has no visit_ method either. */
  lemma ListOperandRaises(ns: seq<Node>, st: State)
    ensures EvalOperand(Children(ns), st) == Result(Raise(RuntimeError("No visit_list method")), st)
  {
    var m := "No visit_" + "list" + " method";
    assert |m| == |"No visit_list method"|;
    assert forall i :: 0 <= i < |m| ==> m[i] == "No visit_list method"[i];
    assert m == "No visit_list method";
  }

  /** Nor has a None operand. */
  lemma NoneOperandRaises(st: State)
    ensures EvalOperand(Plain(VNone), st) == Result(Raise(RuntimeError("No visit_NoneType method")), st)
  {
    var m := "No visit_" + "NoneType" + " method";
    assert |m| == |"No visit_NoneType method"|;
    assert forall i :: 0 <= i < |m| ==> m[i] == "No visit_NoneType method"[i];
    assert m == "No visit_NoneType method";
  }
}
