/** What the text of a check says about its code: which variables it uses, and how long it is. */
module Declared {
  import opened Syntax
  import opened Ir
  import opened IrGen
  import opened Check

  // ---------- Variables ----------

  predicate ExprDeclared(params: seq<string>, e: Expr) {
    match e
    case Ref(x) => x in params
    case Value(_) => true
    case Invoke(_, args) => forall x | x in args :: x in params
    case Unary(_, arg) => ExprDeclared(params, arg)
    case Binary(_, left, right) => ExprDeclared(params, left) && ExprDeclared(params, right)
  }

  /** Every variable that is read or assigned is a parameter. */
  predicate StmtDeclared(params: seq<string>, s: Stmt) {
    match s
    case Assign(expr, x) => ExprDeclared(params, expr) && x in params
    case If(cond, thn, els) =>
      ExprDeclared(params, cond) && StmtDeclared(params, thn) && (els.Some? ==> StmtDeclared(params, els.value))
    case Compound(stmts) => forall s' | s' in stmts :: StmtDeclared(params, s')
    case _ => true
  }

  lemma {:induction false} DeclaredConcat(params: seq<string>, a: Code, b: Code)
    ensures VariablesDeclared(params, a + b) <==> VariablesDeclared(params, a) && VariablesDeclared(params, b)
  {
    hide UsesOnly;
    assert forall i | i in a :: i in a + b;
    assert forall i | i in b :: i in a + b;
  }

  lemma {:induction false} DeclaredOne(params: seq<string>, i: Inst)
    ensures VariablesDeclared(params, [i]) <==> UsesOnly(params, i)
    ensures VariablesDeclared(params, [])
  {
    hide UsesOnly;
    assert i in [i];
  }

  lemma {:induction false} ExprUses(params: seq<string>, e: Expr, id: nat)
    ensures var g := ExprCode(e, id); NamedIn(params, g.val) && VariablesDeclared(params, g.code) <==>
      ExprDeclared(params, e)
  {
    hide VariablesDeclared;
    match e {
      case Ref(_) => DeclaredOne(params, Jump(Named("")));
      case Value(_) => DeclaredOne(params, Jump(Named("")));
      case Invoke(f, args) => DeclaredOne(params, Call(id, f, args));
      case Unary(op, arg) =>
        var x := ExprCode(arg, id);
        var i := Arith1(x.ids, op, x.val);
        ExprUses(params, arg, id);
        DeclaredOne(params, i);
        DeclaredConcat(params, x.code, [i]);
      case Binary(op, left, right) =>
        var x := ExprCode(left, id);
        var y := ExprCode(right, x.ids);
        var i := Arith2(y.ids, op, x.val, y.val);
        ExprUses(params, left, id);
        ExprUses(params, right, x.ids);
        DeclaredOne(params, i);
        DeclaredConcat(params, x.code, y.code);
        DeclaredConcat(params, x.code + y.code, [i]);
    }
  }

  lemma {:induction false} TestUses(params: seq<string>, e: Expr, t: Label, f: Label, lab: nat, id: nat)
    ensures VariablesDeclared(params, TestCode(e, t, f, lab, id).code) <==> ExprDeclared(params, e)
  {
    hide VariablesDeclared;
    var (l, op, r) := Test(e);
    var x := ExprCode(l, id);
    var y := ExprCode(r, x.ids);
    var br := Branch(op, x.val, y.val, t, f);
    ExprUses(params, l, id);
    ExprUses(params, r, x.ids);
    DeclaredOne(params, br);
    DeclaredConcat(params, x.code, y.code);
    DeclaredConcat(params, x.code + y.code, [br]);
  }

  lemma {:induction false} CondUses(params: seq<string>, e: Expr, t: Label, f: Label, lab: nat, id: nat)
    ensures VariablesDeclared(params, CondCode(e, t, f, lab, id).code) <==> ExprDeclared(params, e)
  {
    hide VariablesDeclared, TestCode;
    if e.Unary? && e.op == NOT {
      CondUses(params, e.arg, f, t, lab, id);
    } else if e.Binary? && (e.op == AND || e.op == OR) {
      var mid := Fresh(lab + 1);
      var t1, f1 := if e.op == AND then mid else t, if e.op == AND then f else mid;
      var x := CondCode(e.left, t1, f1, lab + 1, id);
      CondUses(params, e.left, t1, f1, lab + 1, id);
      CondUses(params, e.right, t, f, x.labels, x.ids);
      MarkUses(params, x.code, mid, CondCode(e.right, t, f, x.labels, x.ids).code);
    } else {
      TestUses(params, e, t, f, lab, id);
    }
  }

  lemma {:induction false} MarkUses(params: seq<string>, a: Code, l: Label, b: Code)
    ensures VariablesDeclared(params, Joined(a, l, b)) <==> VariablesDeclared(params, a) && VariablesDeclared(params, b)
  {
    DeclaredOne(params, Mark(l));
    DeclaredConcat(params, a, [Mark(l)]);
    DeclaredConcat(params, a + [Mark(l)], b);
  }

  lemma {:induction false} StmtUses(params: seq<string>, s: Stmt, lab: nat, id: nat)
    ensures VariablesDeclared(params, StmtCode(s, lab, id).code) <==> StmtDeclared(params, s)
    decreases s, 1
  {
    hide VariablesDeclared;
    match s {
      case Empty => DeclaredOne(params, Jump(Named("")));
      case Permit(p) => DeclaredOne(params, Return(Decision(p)));
      case Assign(expr, x) =>
        var v := ExprCode(expr, id);
        ExprUses(params, expr, id);
        DeclaredOne(params, Store(v.val, x));
        DeclaredConcat(params, v.code, [Store(v.val, x)]);
      case If(_, _, _) => IfUses(params, s, lab, id);
      case Compound(stmts) => BodyUses(params, stmts, lab, id);
    }
  }

  lemma {:induction false} IfUses(params: seq<string>, s: Stmt, lab: nat, id: nat)
    requires s.If?
    ensures VariablesDeclared(params, StmtCode(s, lab, id).code) <==> StmtDeclared(params, s)
    decreases s, 0
  {
    hide VariablesDeclared, CondCode, Joined;
    var t, f := Fresh(lab + 1), Fresh(lab + 2);
    var c := CondCode(s.cond, t, f, lab + 2, id);
    var th := StmtCode(s.thn, c.labels, c.ids);
    CondUses(params, s.cond, t, f, lab + 2, id);
    StmtUses(params, s.thn, c.labels, c.ids);
    DeclaredOne(params, Jump(f));
    if s.els.Some? {
      var out := Fresh(th.labels + 1);
      var el := StmtCode(s.els.value, th.labels + 1, th.ids);
      StmtUses(params, s.els.value, th.labels + 1, th.ids);
      DeclaredOne(params, Jump(out));
      DeclaredConcat(params, th.code, [Jump(out)]);
      var a := Joined(c.code, t, th.code + [Jump(out)]);
      MarkUses(params, c.code, t, th.code + [Jump(out)]);
      MarkUses(params, a, f, el.code);
      MarkUses(params, Joined(a, f, el.code), out, []);
    } else {
      MarkUses(params, c.code, t, th.code);
      MarkUses(params, Joined(c.code, t, th.code), f, []);
    }
  }

  lemma {:induction false} BodyUses(params: seq<string>, ss: seq<Stmt>, lab: nat, id: nat)
    ensures VariablesDeclared(params, BodyCode(ss, lab, id).code) <==> forall s | s in ss :: StmtDeclared(params, s)
    decreases ss, 0
  {
    hide VariablesDeclared, StmtDeclared;
    if ss == [] {
      DeclaredOne(params, Jump(Named("")));
    } else {
      var x := StmtCode(ss[0], lab, id);
      assert ss == [ss[0]] + ss[1..];
      StmtUses(params, ss[0], lab, id);
      BodyUses(params, ss[1..], x.labels, x.ids);
      DeclaredConcat(params, x.code, BodyCode(ss[1..], x.labels, x.ids).code);
    }
  }

  /** CheckVariableUse, which looks at the code, accepts exactly the checks that read and assign
      nothing but parameters, wherever their labels and identities start. */
  lemma {:induction false} DeclaredIff(ck: Check, at: Base)
    ensures VariablesDeclared(ck.params, RawCode(ck, at)) <==> StmtDeclared(ck.params, ck.body)
  {
    StmtUses(ck.params, ck.body, at.labels, at.ids);
  }

  // ---------- Lengths ----------

  function ExprLength(e: Expr): nat {
    match e
    case Ref(_) => 0
    case Value(_) => 0
    case Invoke(_, _) => 1
    case Unary(_, arg) => ExprLength(arg) + 1
    case Binary(_, left, right) => ExprLength(left) + ExprLength(right) + 1
  }

  function CondLength(e: Expr): nat {
    if e.Unary? && e.op == NOT then CondLength(e.arg)
    else if e.Binary? && (e.op == AND || e.op == OR) then CondLength(e.left) + 1 + CondLength(e.right)
    else var (l, _, r) := Test(e); ExprLength(l) + ExprLength(r) + 1
  }

  function StmtLength(s: Stmt): nat
    decreases s, 0
  {
    match s
    case Empty => 0
    case Permit(_) => 1
    case Assign(expr, _) => ExprLength(expr) + 1
    case If(cond, thn, els) => CondLength(cond) + StmtLength(thn) + 2 + if els.Some? then StmtLength(els.value) + 2
      else 0
    case Compound(stmts) => BodyLength(stmts)
  }

  function BodyLength(ss: seq<Stmt>): nat
    decreases ss, 0
  {
    if ss == [] then 0 else StmtLength(ss[0]) + BodyLength(ss[1..])
  }

  lemma {:induction false} ExprHasLength(e: Expr, id: nat)
    ensures |ExprCode(e, id).code| == ExprLength(e)
  {
    match e {
      case Unary(_, arg) => ExprHasLength(arg, id);
      case Binary(_, left, right) =>
        ExprHasLength(left, id);
        ExprHasLength(right, ExprCode(left, id).ids);
      case _ =>
    }
  }

  lemma {:induction false} CondHasLength(e: Expr, t: Label, f: Label, lab: nat, id: nat)
    ensures |CondCode(e, t, f, lab, id).code| == CondLength(e)
  {
    if e.Unary? && e.op == NOT {
      CondHasLength(e.arg, f, t, lab, id);
    } else if e.Binary? && (e.op == AND || e.op == OR) {
      var mid := Fresh(lab + 1);
      var t1, f1 := if e.op == AND then mid else t, if e.op == AND then f else mid;
      var x := CondCode(e.left, t1, f1, lab + 1, id);
      CondHasLength(e.left, t1, f1, lab + 1, id);
      CondHasLength(e.right, t, f, x.labels, x.ids);
    } else {
      var (l, _, r) := Test(e);
      ExprHasLength(l, id);
      ExprHasLength(r, ExprCode(l, id).ids);
    }
  }

  /** How much code a statement becomes does not depend on the counters. */
  lemma {:induction false} StmtHasLength(s: Stmt, lab: nat, id: nat)
    ensures |StmtCode(s, lab, id).code| == StmtLength(s)
    decreases s, 0
  {
    match s {
      case Assign(expr, _) => ExprHasLength(expr, id);
      case If(cond, thn, els) =>
        hide CondCode;
        var c := CondCode(cond, Fresh(lab + 1), Fresh(lab + 2), lab + 2, id);
        CondHasLength(cond, Fresh(lab + 1), Fresh(lab + 2), lab + 2, id);
        StmtHasLength(thn, c.labels, c.ids);
        if els.Some? {
          var th := StmtCode(thn, c.labels, c.ids);
          StmtHasLength(els.value, th.labels + 1, th.ids);
        }
      case Compound(stmts) => BodyHasLength(stmts, lab, id);
      case _ =>
    }
  }

  lemma {:induction false} BodyHasLength(ss: seq<Stmt>, lab: nat, id: nat)
    ensures |BodyCode(ss, lab, id).code| == BodyLength(ss)
    decreases ss, 0
  {
    if ss != [] {
      var x := StmtCode(ss[0], lab, id);
      StmtHasLength(ss[0], lab, id);
      BodyHasLength(ss[1..], x.labels, x.ids);
    }
  }
}
