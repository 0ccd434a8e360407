/** Three-address code and the tree that the lifter rebuilds from it. */
module Relift {
  import opened Syntax
  import opened Ir
  import opened IrGen
  import opened Lowering
  import opened Lifter

  /** The instructions of the code are the ones that operands refer to. */
  predicate Defines(defs: Defs, c: Code) {
    forall i | i in c :: i.Computes() && i.id in defs && defs[i.id] == i
  }

  /** Lifting is the inverse of lowering: from the operand that names its value, the tree
      rebuilt is the expression that was written. */
  lemma {:induction false} LiftingInvertsLowering(defs: Defs, e: Expr, id: nat)
    requires Grounded(defs) && Defines(defs, ExprCode(e, id).code)
    ensures Known(defs, ExprCode(e, id).val) && LiftExpr(defs, ExprCode(e, id).val) == e
  {
    var g := ExprCode(e, id);
    match e {
      case Invoke(f, params) => assert Call(id, f, params) in g.code;
      case Unary(op, arg) =>
        var x := ExprCode(arg, id);
        var i := Arith1(x.ids, op, x.val);
        assert g.code == x.code + [i] && i in g.code;
        assert forall i' | i' in x.code :: i' in g.code;
        LiftingInvertsLowering(defs, arg, id);
      case Binary(op, left, right) =>
        var x := ExprCode(left, id);
        var y := ExprCode(right, x.ids);
        var i := Arith2(y.ids, op, x.val, y.val);
        assert g.code == x.code + y.code + [i] && i in g.code;
        assert forall i' | i' in x.code :: i' in g.code;
        assert forall i' | i' in y.code :: i' in g.code;
        LiftingInvertsLowering(defs, left, id);
        LiftingInvertsLowering(defs, right, x.ids);
      case _ =>
    }
  }

  /** What the expression means, what the code leaves in the operand that names it, and what
      the rebuilt tree means are one value. */
  lemma {:induction false} ThreeValuesAgree(m: Machine, defs: Defs, e: Expr, id: nat, rest: Code, env: Env,
                                            tmp: Temps) returns (tmp': Temps)
    requires Grounded(defs) && Defines(defs, ExprCode(e, id).code)
    ensures Run(m, ExprCode(e, id).code + rest, env, tmp) == Run(m, rest, env, tmp')
    ensures Known(defs, ExprCode(e, id).val)
    ensures Val(ExprCode(e, id).val, env, tmp') == Some(Eval(m, e, env))
    ensures Eval(m, LiftExpr(defs, ExprCode(e, id).val), env) == Eval(m, e, env)
  {
    hide Run, Eval, ExprCode, LiftExpr;
    LiftingInvertsLowering(defs, e, id);
    tmp' := ExprRun(m, e, id, rest, env, tmp);
  }
}
