/** IR generation as the nodes of the syntax tree do it: appending to a shared list, with the
    branch targets in mutable fields and a stack to save them on. */
module AstGen {
  import opened Syntax
  import opened Ir
  import opened IrGen

  class CodeGenMgr {
    var labelCount: nat
    /** The identity that the next instruction object gets. */
    var ids: nat
    var trueTarget: Label
    var falseTarget: Label
    var saved: seq<(Label, Label)>

    constructor ()
      ensures labelCount == 0 && ids == 0 && saved == []
    {
      labelCount, ids := 0, 0;
      trueTarget, falseTarget := Named(""), Named("");
      saved := [];
    }

    method NewLabel() returns (l: Label)
      modifies `labelCount
      ensures labelCount == old(labelCount) + 1 && l == Fresh(labelCount)
    {
      labelCount := labelCount + 1;
      l := Fresh(labelCount);
    }

    method NewId() returns (id: nat)
      modifies `ids
      ensures id == old(ids) && ids == id + 1
    {
      id := ids;
      ids := ids + 1;
    }

    method SaveBranchTarget()
      modifies `saved
      ensures saved == old(saved) + [(trueTarget, falseTarget)]
    {
      saved := saved + [(trueTarget, falseTarget)];
    }

    method RestoreBranchTarget()
      requires saved != []
      modifies `saved, `trueTarget, `falseTarget
      ensures saved == old(saved[..|saved| - 1])
      ensures (trueTarget, falseTarget) == old(saved[|saved| - 1])
    {
      var tars := saved[|saved| - 1];
      saved := saved[..|saved| - 1];
      trueTarget, falseTarget := tars.0, tars.1;
    }
  }

  /** The list of instructions that the nodes append to and the passes edit. */
  class InstList {
    var insts: Code

    constructor ()
      ensures insts == []
    {
      insts := [];
    }

    method PushBack(i: Inst)
      modifies this
      ensures insts == old(insts) + [i]
    {
      insts := insts + [i];
    }

    method Erase(k: nat)
      requires k < |insts|
      modifies this
      ensures insts == old(insts[..k] + insts[k + 1..])
    {
      insts := insts[..k] + insts[k + 1..];
    }
  }

  // ---------- Expressions and conditions ----------

  /** The operators from `EQ` to `NOT`, which produce jumping code. */
  predicate IsBoolean(op: OpCode) {
    IsCompare(op) || op == AND || op == OR || op == NOT
  }

  predicate IsCondition(e: Expr) {
    (e.Unary? || e.Binary?) && IsBoolean(e.op)
  }

  /** How many boolean connectives the expression has. */
  function Connectives(e: Expr): nat {
    match e
    case Unary(op, arg) => Connectives(arg) + if op == NOT then 1 else 0
    case Binary(op, left, right) => Connectives(left) + Connectives(right) + if op == AND || op == OR then 1 else 0
    case _ => 0
  }

  /** Whether the targets are left exchanged: NOT exchanges them in place, and only the
      restore behind a left operand undoes that. */
  predicate LeavesSwapped(e: Expr) {
    if e.Unary? && e.op == NOT then !LeavesSwapped(e.arg)
    else if e.Binary? && (e.op == AND || e.op == OR) then LeavesSwapped(e.right)
    else false
  }

  lemma {:induction false} IntHasNoConnectives(e: Expr)
    requires IntExpr(e)
    ensures Connectives(e) == 0
  {
    match e {
      case Unary(_, arg) => IntHasNoConnectives(arg);
      case Binary(_, left, right) =>
        IntHasNoConnectives(left);
        IntHasNoConnectives(right);
      case _ =>
    }
  }

  /** `GenBranchCode`: jumping code for a condition; a bare expression is compared with zero. */
  method GenBranchCode(e: Expr, code: InstList, mgr: CodeGenMgr)
    requires CondExpr(e)
    modifies code, mgr
    ensures Appended(code, mgr,
      CondCode(e, old(mgr.trueTarget), old(mgr.falseTarget), old(mgr.labelCount), old(mgr.ids)))
    ensures TargetsKept(mgr, LeavesSwapped(e))
    decreases Connectives(e), Size(e) + 3, 1
  {
    if IsCondition(e) {
      var _ := OpIRGen(e, code, mgr);
    } else {
      var exprNeZero := Binary(NE, e, Value(0));
      IntHasNoConnectives(e);
      assert Size(exprNeZero) == Size(e) + 2 && Connectives(exprNeZero) == 0;
      var _ := OpIRGen(exprNeZero, code, mgr);
    }
  }

  /** What the code of an operator node is. */
  function OpGen(e: Expr, t: Label, f: Label, lab: nat, id: nat): Gen {
    if IsCondition(e) then CondCode(e, t, f, lab, id)
    else var g := ExprCode(e, id); Gen(g.code, lab, g.ids)
  }

  /** The code that the list gained and the counters that the manager reached. */
  twostate predicate Appended(code: InstList, mgr: CodeGenMgr, g: Gen)
    reads code, mgr
  {
    code.insts == old(code.insts) + g.code && mgr.labelCount == g.labels && mgr.ids == g.ids
  }

  /** The branch targets as a condition leaves them. */
  twostate predicate TargetsKept(mgr: CodeGenMgr, swapped: bool)
    reads mgr
  {
    && mgr.saved == old(mgr.saved)
    && mgr.trueTarget == old(if swapped then mgr.falseTarget else mgr.trueTarget)
    && mgr.falseTarget == old(if swapped then mgr.trueTarget else mgr.falseTarget)
  }

  /** `OpNode::IRGen`: a condition leaves jumping code and no value, any other operator leaves
      the operand that names its value. */
  method OpIRGen(e: Expr, code: InstList, mgr: CodeGenMgr) returns (v: Option<Operand>)
    requires (e.Unary? || e.Binary?) && CondExpr(e)
    modifies code, mgr
    ensures Appended(code, mgr, OpGen(e, old(mgr.trueTarget), old(mgr.falseTarget), old(mgr.labelCount), old(mgr.ids)))
    ensures v == if IsCondition(e) then None else Some(ExprCode(e, old(mgr.ids)).val)
    ensures TargetsKept(mgr, LeavesSwapped(e))
    decreases Connectives(e), Size(e), 0
  {
    hide CondCode, ExprCode, TestCode;
    v := None;
    if e.op == AND {
      AndIRGen(e, code, mgr);
    } else if e.op == OR {
      OrIRGen(e, code, mgr);
    } else if e.op == NOT {
      NotIRGen(e, code, mgr);
    } else if IsCompare(e.op) {
      CompareIRGen(e, code, mgr);
    } else if e.Unary? {
      var operand := UnaryIRGen(e, code, mgr);
      v := Some(operand);
    } else {
      var operand := BinaryIRGen(e, code, mgr);
      v := Some(operand);
    }
  }

  // The cases of `OpNode::IRGen`, one method each.

  method AndIRGen(e: Expr, code: InstList, mgr: CodeGenMgr)
    requires e.Binary? && e.op == AND && CondExpr(e)
    modifies code, mgr
    ensures Appended(code, mgr,
      CondCode(e, old(mgr.trueTarget), old(mgr.falseTarget), old(mgr.labelCount), old(mgr.ids)))
    ensures TargetsKept(mgr, LeavesSwapped(e.right))
    decreases Connectives(e), 0, 0
  {
    ghost var t, f, lab, id := mgr.trueTarget, mgr.falseTarget, mgr.labelCount, mgr.ids;
    mgr.SaveBranchTarget();
    var trueLabel := mgr.NewLabel();
    mgr.trueTarget := trueLabel;
    ghost var x := CondCode(e.left, trueLabel, f, lab + 1, id);
    assert CondCode(e, t, f, lab, id) ==
      var y := CondCode(e.right, t, f, x.labels, x.ids); Gen(Joined(x.code, trueLabel, y.code), y.labels, y.ids);
    assert CondExpr(e.left) && CondExpr(e.right) && Connectives(e.left) < Connectives(e);
    assert Connectives(e.right) < Connectives(e);
    hide CondCode, CondExpr, Connectives, LeavesSwapped;
    GenBranchCode(e.left, code, mgr);
    mgr.RestoreBranchTarget();
    code.PushBack(Mark(trueLabel));
    GenBranchCode(e.right, code, mgr);
    ghost var y := CondCode(e.right, t, f, x.labels, x.ids);
    AppendThree(old(code.insts), x.code, [Mark(trueLabel)], y.code);
  }

  method OrIRGen(e: Expr, code: InstList, mgr: CodeGenMgr)
    requires e.Binary? && e.op == OR && CondExpr(e)
    modifies code, mgr
    ensures Appended(code, mgr,
      CondCode(e, old(mgr.trueTarget), old(mgr.falseTarget), old(mgr.labelCount), old(mgr.ids)))
    ensures TargetsKept(mgr, LeavesSwapped(e.right))
    decreases Connectives(e), 0, 0
  {
    ghost var t, f, lab, id := mgr.trueTarget, mgr.falseTarget, mgr.labelCount, mgr.ids;
    mgr.SaveBranchTarget();
    var falseLabel := mgr.NewLabel();
    mgr.falseTarget := falseLabel;
    ghost var x := CondCode(e.left, t, falseLabel, lab + 1, id);
    assert CondCode(e, t, f, lab, id) ==
      var y := CondCode(e.right, t, f, x.labels, x.ids); Gen(Joined(x.code, falseLabel, y.code), y.labels, y.ids);
    assert CondExpr(e.left) && CondExpr(e.right) && Connectives(e.left) < Connectives(e);
    assert Connectives(e.right) < Connectives(e);
    hide CondCode, CondExpr, Connectives, LeavesSwapped;
    GenBranchCode(e.left, code, mgr);
    mgr.RestoreBranchTarget();
    code.PushBack(Mark(falseLabel));
    GenBranchCode(e.right, code, mgr);
    ghost var y := CondCode(e.right, t, f, x.labels, x.ids);
    AppendThree(old(code.insts), x.code, [Mark(falseLabel)], y.code);
  }

  method NotIRGen(e: Expr, code: InstList, mgr: CodeGenMgr)
    requires e.Unary? && e.op == NOT && CondExpr(e)
    modifies code, mgr
    ensures Appended(code, mgr,
      CondCode(e, old(mgr.trueTarget), old(mgr.falseTarget), old(mgr.labelCount), old(mgr.ids)))
    ensures TargetsKept(mgr, LeavesSwapped(e))
    decreases Connectives(e), 0, 0
  {
    var trueLabel := mgr.trueTarget;
    mgr.trueTarget := mgr.falseTarget;
    mgr.falseTarget := trueLabel;
    GenBranchCode(e.arg, code, mgr);
  }

  method CompareIRGen(e: Expr, code: InstList, mgr: CodeGenMgr)
    requires e.Binary? && IsCompare(e.op) && CondExpr(e)
    modifies code, mgr
    ensures Appended(code, mgr,
      TestCode(e, old(mgr.trueTarget), old(mgr.falseTarget), old(mgr.labelCount), old(mgr.ids)))
    ensures CondCode(e, old(mgr.trueTarget), old(mgr.falseTarget), old(mgr.labelCount), old(mgr.ids))
         == TestCode(e, old(mgr.trueTarget), old(mgr.falseTarget), old(mgr.labelCount), old(mgr.ids))
    ensures TargetsKept(mgr, false)
    decreases Connectives(e), Size(e), -1
  {
    hide ExprCode;
    IntHasNoConnectives(e.left);
    IntHasNoConnectives(e.right);
    var op1 := ExprIRGen(e.left, code, mgr);
    var op2 := ExprIRGen(e.right, code, mgr);
    code.PushBack(Branch(e.op, op1, op2, mgr.trueTarget, mgr.falseTarget));
  }

  method UnaryIRGen(e: Expr, code: InstList, mgr: CodeGenMgr) returns (v: Operand)
    requires e.Unary? && e.op == UMINUS && IntExpr(e)
    modifies code, mgr
    ensures var g := ExprCode(e, old(mgr.ids));
      Appended(code, mgr, Gen(g.code, old(mgr.labelCount), g.ids)) && v == g.val
    ensures TargetsKept(mgr, false)
    decreases Connectives(e), Size(e), -1
  {
    IntHasNoConnectives(e.arg);
    var op1 := ExprIRGen(e.arg, code, mgr);
    var id := mgr.NewId();
    code.PushBack(Arith1(id, e.op, op1));
    v := Tmp(id);
  }

  method BinaryIRGen(e: Expr, code: InstList, mgr: CodeGenMgr) returns (v: Operand)
    requires e.Binary? && IntExpr(e)
    modifies code, mgr
    ensures var g := ExprCode(e, old(mgr.ids));
      Appended(code, mgr, Gen(g.code, old(mgr.labelCount), g.ids)) && v == g.val
    ensures TargetsKept(mgr, false)
    decreases Connectives(e), Size(e), -1
  {
    ghost var id0 := mgr.ids;
    IntHasNoConnectives(e.left);
    IntHasNoConnectives(e.right);
    ghost var x := ExprCode(e.left, id0);
    ghost var y := ExprCode(e.right, x.ids);
    assert ExprCode(e, id0) == ExprGen(Tmp(y.ids), x.code + y.code + [Arith2(y.ids, e.op, x.val, y.val)], y.ids + 1);
    assert Connectives(e) == 0;
    hide ExprCode, Connectives, IntExpr;
    var op1 := ExprIRGen(e.left, code, mgr);
    var op2 := ExprIRGen(e.right, code, mgr);
    var id := mgr.NewId();
    code.PushBack(Arith2(id, e.op, op1, op2));
    v := Tmp(id);
    AppendThree(old(code.insts), x.code, y.code, [Arith2(id, e.op, op1, op2)]);
  }

  lemma {:induction false} AppendThree(c: Code, x: Code, y: Code, z: Code)
    ensures c + x + y + z == c + (x + y + z)
  {
  }

  /** `IRGen` of a node that yields an integer. */
  method ExprIRGen(e: Expr, code: InstList, mgr: CodeGenMgr) returns (v: Operand)
    requires IntExpr(e)
    modifies code, mgr
    ensures var g := ExprCode(e, old(mgr.ids));
      Appended(code, mgr, Gen(g.code, old(mgr.labelCount), g.ids)) && v == g.val
    ensures TargetsKept(mgr, false)
    decreases Connectives(e), Size(e), 1
  {
    match e {
      case Ref(name) => v := Mem(name);
      case Value(n) => v := Imm(n);
      case Invoke(callee, params) =>
        var id := mgr.NewId();
        code.PushBack(Call(id, callee, params));
        v := Tmp(id);
      case _ =>
        var r := OpIRGen(e, code, mgr);
        v := r.value;
    }
  }

  // ---------- Statements ----------

  /** `IRGen` of a statement: the code is appended, and the target stack is as before. */
  method StmtIRGen(s: Stmt, code: InstList, mgr: CodeGenMgr)
    requires WellTyped(s)
    modifies code, mgr
    ensures Appended(code, mgr, StmtCode(s, old(mgr.labelCount), old(mgr.ids)))
    ensures mgr.saved == old(mgr.saved)
    decreases s, 1
  {
    match s {
      case Empty =>
      case Permit(perm) => code.PushBack(Return(Decision(perm)));
      case Assign(expr, arg) =>
        var exp := ExprIRGen(expr, code, mgr);
        code.PushBack(Store(exp, arg));
      case If(_, _, _) => IfIRGen(s, code, mgr);
      case Compound(stmts) => CompoundIRGen(stmts, code, mgr);
    }
  }

  method IfIRGen(s: Stmt, code: InstList, mgr: CodeGenMgr)
    requires s.If? && WellTyped(s)
    modifies code, mgr
    ensures Appended(code, mgr, StmtCode(s, old(mgr.labelCount), old(mgr.ids)))
    ensures mgr.saved == old(mgr.saved)
    decreases s, 0, 1
  {
    IfAppends(s, code.insts, mgr.labelCount, mgr.ids);
    assert s.els.Some? ==> WellTyped(s.els.value);
    hide ThenPart, ElsePart, StmtCode, WellTyped;
    var falseTarget := ThenIRGen(s, code, mgr);
    if s.els.Some? {
      ElseIRGen(s.els.value, falseTarget, code, mgr);
    } else {
      code.PushBack(Mark(falseTarget));
    }
  }

  function ThenPart(s: Stmt, lab: nat, id: nat): Gen
    requires s.If?
  {
    var t, f := Fresh(lab + 1), Fresh(lab + 2);
    var c := CondCode(s.cond, t, f, lab + 2, id);
    var th := StmtCode(s.thn, c.labels, c.ids);
    Gen(c.code + [Mark(t)] + th.code, th.labels, th.ids)
  }

  function ElsePart(s: Stmt, f: Label, lab: nat, id: nat): Gen {
    var out, el := Fresh(lab + 1), StmtCode(s, lab + 1, id);
    Gen([Jump(out)] + [Mark(f)] + el.code + [Mark(out)], el.labels, el.ids)
  }

  /** The two parts make up the code of the `if`. */
  lemma {:induction false} IfAppends(s: Stmt, c0: Code, lab: nat, id: nat)
    requires s.If?
    ensures var x := ThenPart(s, lab, id);
      var y := if s.els.Some? then ElsePart(s.els.value, Fresh(lab + 2), x.labels, x.ids)
        else Gen([Mark(Fresh(lab + 2))], x.labels, x.ids);
      StmtCode(s, lab, id) == Gen(x.code + y.code, y.labels, y.ids) && c0 + x.code + y.code == c0 + (x.code + y.code)
  {
    hide *;
    var x := ThenPart(s, lab, id);
    var y := if s.els.Some? then ElsePart(s.els.value, Fresh(lab + 2), x.labels, x.ids)
      else Gen([Mark(Fresh(lab + 2))], x.labels, x.ids);
    AppendThree(c0, x.code, y.code, []);
    IfUnfolds(s, lab, id);
    PartsUnfold(s, lab, id);
    var c := CondCode(s.cond, Fresh(lab + 1), Fresh(lab + 2), lab + 2, id);
    var th := StmtCode(s.thn, c.labels, c.ids);
    if s.els.Some? {
      AppendElse(c.code, Fresh(lab + 1), th.code, Fresh(th.labels + 1), Fresh(lab + 2),
        StmtCode(s.els.value, th.labels + 1, th.ids).code);
    } else {
      AppendThen(c.code, Fresh(lab + 1), th.code, Fresh(lab + 2));
    }
  }

  lemma {:induction false} PartsUnfold(s: Stmt, lab: nat, id: nat)
    requires s.If?
    ensures var t, f := Fresh(lab + 1), Fresh(lab + 2);
      var c := CondCode(s.cond, t, f, lab + 2, id);
      var th := StmtCode(s.thn, c.labels, c.ids);
      && ThenPart(s, lab, id) == Gen(c.code + [Mark(t)] + th.code, th.labels, th.ids)
      && (s.els.Some? ==>
        var out, el := Fresh(th.labels + 1), StmtCode(s.els.value, th.labels + 1, th.ids);
        ElsePart(s.els.value, f, th.labels, th.ids) ==
          Gen([Jump(out)] + [Mark(f)] + el.code + [Mark(out)], el.labels, el.ids))
  {
    hide CondCode, StmtCode;
  }

  /** The part of an `if` up to the end of its `then`. */
  method ThenIRGen(s: Stmt, code: InstList, mgr: CodeGenMgr) returns (falseTarget: Label)
    requires s.If? && WellTyped(s)
    modifies code, mgr
    ensures Appended(code, mgr, ThenPart(s, old(mgr.labelCount), old(mgr.ids)))
    ensures falseTarget == Fresh(old(mgr.labelCount) + 2)
    ensures mgr.saved == old(mgr.saved)
    decreases s, 0, 0
  {
    ghost var lab, id := mgr.labelCount, mgr.ids;
    hide CondCode, StmtCode;
    var trueTarget := mgr.NewLabel();
    falseTarget := mgr.NewLabel();
    mgr.trueTarget := trueTarget;
    mgr.falseTarget := falseTarget;
    ghost var c := CondCode(s.cond, trueTarget, falseTarget, lab + 2, id);
    GenBranchCode(s.cond, code, mgr);
    code.PushBack(Mark(trueTarget));
    StmtIRGen(s.thn, code, mgr);
    AppendThree(old(code.insts), c.code, [Mark(trueTarget)], StmtCode(s.thn, c.labels, c.ids).code);
  }

  /** The part of an `if` behind its `then`, for one that has an `else`. */
  method ElseIRGen(s: Stmt, falseTarget: Label, code: InstList, mgr: CodeGenMgr)
    requires WellTyped(s)
    modifies code, mgr
    ensures Appended(code, mgr, ElsePart(s, falseTarget, old(mgr.labelCount), old(mgr.ids)))
    ensures mgr.saved == old(mgr.saved)
    decreases s, 2
  {
    hide StmtCode, WellTyped;
    ghost var el := StmtCode(s, mgr.labelCount + 1, mgr.ids);
    var outTarget := mgr.NewLabel();
    code.PushBack(Jump(outTarget));
    code.PushBack(Mark(falseTarget));
    StmtIRGen(s, code, mgr);
    code.PushBack(Mark(outTarget));
    AppendThree(old(code.insts), [Jump(outTarget)], [Mark(falseTarget)], el.code);
    assert old(code.insts) + ([Jump(outTarget)] + [Mark(falseTarget)] + el.code) + [Mark(outTarget)]
        == old(code.insts) + ([Jump(outTarget)] + [Mark(falseTarget)] + el.code + [Mark(outTarget)]);
  }

  lemma {:induction false} AppendThen(c: Code, t: Label, th: Code, f: Label)
    ensures (c + [Mark(t)] + th) + [Mark(f)] == Joined(Joined(c, t, th), f, [])
  {
  }

  lemma {:induction false} AppendElse(c: Code, t: Label, th: Code, out: Label, f: Label, el: Code)
    ensures (c + [Mark(t)] + th) + ([Jump(out)] + [Mark(f)] + el + [Mark(out)])
         == Joined(Joined(Joined(c, t, th + [Jump(out)]), f, el), out, [])
  {
  }

  lemma {:induction false} IfUnfolds(s: Stmt, lab: nat, id: nat)
    requires s.If?
    ensures var t, f := Fresh(lab + 1), Fresh(lab + 2);
      var c := CondCode(s.cond, t, f, lab + 2, id);
      var th := StmtCode(s.thn, c.labels, c.ids);
      StmtCode(s, lab, id) ==
        if s.els.None? then Gen(Joined(Joined(c.code, t, th.code), f, []), th.labels, th.ids)
        else
          var out := Fresh(th.labels + 1);
          var el := StmtCode(s.els.value, th.labels + 1, th.ids);
          Gen(Joined(Joined(Joined(c.code, t, th.code + [Jump(out)]), f, el.code), out, []), el.labels, el.ids)
  {
    hide CondCode;
  }

  lemma {:induction false} BodySplits(ss: seq<Stmt>, k: nat, lab: nat, id: nat)
    requires k < |ss|
    ensures var g := BodyCode(ss[..k], lab, id);
      var x := StmtCode(ss[k], g.labels, g.ids);
      BodyCode(ss[..k + 1], lab, id) == Gen(g.code + x.code, x.labels, x.ids)
    decreases k
  {
    hide StmtCode;
    assert ss[..k + 1][0] == ss[0];
    if k == 0 {
      assert ss[..1][1..] == [];
      var x := StmtCode(ss[0], lab, id);
      assert BodyCode(ss[..1][1..], x.labels, x.ids).code == [];
    } else {
      var x := StmtCode(ss[0], lab, id);
      BodySplits(ss[1..], k - 1, x.labels, x.ids);
      assert ss[..k + 1][1..] == ss[1..][..k] && ss[..k][1..] == ss[1..][..k - 1];
    }
  }

  method CompoundIRGen(stmts: seq<Stmt>, code: InstList, mgr: CodeGenMgr)
    requires forall s | s in stmts :: WellTyped(s)
    modifies code, mgr
    ensures Appended(code, mgr, BodyCode(stmts, old(mgr.labelCount), old(mgr.ids)))
    ensures mgr.saved == old(mgr.saved)
    decreases stmts, 0
  {
    ghost var lab, id := mgr.labelCount, mgr.ids;
    var i := 0;
    while i < |stmts|
      invariant i <= |stmts|
      invariant var g := BodyCode(stmts[..i], lab, id);
        && code.insts == old(code.insts) + g.code
        && mgr.labelCount == g.labels && mgr.ids == g.ids
      invariant mgr.saved == old(mgr.saved)
    {
      BodySplits(stmts, i, lab, id);
      StmtIRGen(stmts[i], code, mgr);
      i := i + 1;
    }
    assert stmts[..|stmts|] == stmts;
  }
}
