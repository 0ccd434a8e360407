/** IR generation preserves meaning. */
module Lowering {
  import opened Syntax
  import opened Ir
  import opened IrGen

  /** Temporaries older than `id` keep their values. */
  predicate Keeps(tmp: Temps, tmp': Temps, id: nat) {
    forall k | k in tmp && k < id :: k in tmp' && tmp'[k] == tmp[k]
  }

  predicate OlderOperand(o: Operand, id: nat) {
    o.Tmp? ==> o.id < id
  }

  /** Expression code leaves the value of the expression in the operand it names, and leaves
      older temporaries alone. */
  lemma {:induction false} ExprRun(m: Machine, e: Expr, id: nat, rest: Code, env: Env, tmp: Temps)
    returns (tmp': Temps)
    ensures Run(m, ExprCode(e, id).code + rest, env, tmp) == Run(m, rest, env, tmp')
    ensures Val(ExprCode(e, id).val, env, tmp') == Some(Eval(m, e, env))
    ensures Keeps(tmp, tmp', id) && OlderOperand(ExprCode(e, id).val, ExprCode(e, id).ids)
  {
    hide Run;
    var g := ExprCode(e, id);
    match e {
      case Ref(_) =>
        assert [] + rest == rest;
        tmp' := tmp;
      case Value(_) =>
        assert [] + rest == rest;
        tmp' := tmp;
      case Invoke(f, params) =>
        RunCompute(m, Call(id, f, params), rest, env, tmp);
        tmp' := tmp[id := Eval(m, e, env)];
      case Unary(op, arg) =>
        var x := ExprCode(arg, id);
        var i := Arith1(x.ids, op, x.val);
        assert g.code + rest == x.code + ([i] + rest);
        var t := ExprRun(m, arg, id, [i] + rest, env, tmp);
        RunCompute(m, i, rest, env, t);
        tmp' := t[x.ids := Eval(m, e, env)];
      case Binary(op, left, right) =>
        var x := ExprCode(left, id);
        var y := ExprCode(right, x.ids);
        var i := Arith2(y.ids, op, x.val, y.val);
        assert g.code + rest == x.code + (y.code + ([i] + rest));
        var t := ExprRun(m, left, id, y.code + ([i] + rest), env, tmp);
        var t' := ExprRun(m, right, x.ids, [i] + rest, env, t);
        tmp' := BinaryRun(m, i, Eval(m, left, env), Eval(m, right, env), rest, env, tmp, t, t', id, x.ids);
    }
  }

  lemma {:induction false} BinaryRun(m: Machine, i: Inst, u: Word, v: Word, rest: Code, env: Env,
                  t0: Temps, t1: Temps, t2: Temps, id: nat, mid: nat)
    returns (tmp: Temps)
    requires i.Arith2? && id <= mid <= i.id && OlderOperand(i.a, mid)
    requires Val(i.a, env, t1) == Some(u) && Val(i.b, env, t2) == Some(v)
    requires Keeps(t0, t1, id) && Keeps(t1, t2, mid)
    ensures Run(m, [i] + rest, env, t2) == Run(m, rest, env, tmp)
    ensures Keeps(t0, tmp, id) && Val(Tmp(i.id), env, tmp) == Some(m.alu(i.op, u, v))
  {
    hide Run;
    RunCompute(m, i, rest, env, t2);
    tmp := t2[i.id := m.alu(i.op, u, v)];
  }

  lemma {:induction false} ExprPairRun(m: Machine, left: Expr, right: Expr, id: nat, rest: Code, env: Env, tmp: Temps)
    returns (tmp': Temps)
    ensures var x := ExprCode(left, id);
      var y := ExprCode(right, x.ids);
      && Run(m, x.code + y.code + rest, env, tmp) == Run(m, rest, env, tmp')
      && Val(x.val, env, tmp') == Some(Eval(m, left, env))
      && Val(y.val, env, tmp') == Some(Eval(m, right, env))
  {
    hide Run, Eval, ExprCode;
    var x := ExprCode(left, id);
    var y := ExprCode(right, x.ids);
    assert x.code + y.code + rest == x.code + (y.code + rest);
    var t := ExprRun(m, left, id, y.code + rest, env, tmp);
    tmp' := ExprRun(m, right, x.ids, rest, env, t);
  }

  lemma {:induction false} TestHolds(m: Machine, e: Expr, env: Env)
    requires !(e.Unary? && e.op == NOT) && !(e.Binary? && (e.op == AND || e.op == OR))
    ensures var (l, op, r) := Test(e);
      Holds(m, e, env) == Compare(op, Eval(m, l, env), Eval(m, r, env))
  {
  }

  lemma {:induction false} TestRun(m: Machine, e: Expr, t: Label, f: Label, lab: nat, id: nat, rest: Code, env: Env)
    requires !(e.Unary? && e.op == NOT) && !(e.Binary? && (e.op == AND || e.op == OR))
    ensures Run(m, TestCode(e, t, f, lab, id).code + rest, env, map[])
         == JumpTo(m, rest, if Holds(m, e, env) then t else f, env)
  {
    hide Run, JumpTo, Compare, Holds, Test, ExprCode;
    var (l, op, r) := Test(e);
    var x := ExprCode(l, id);
    var y := ExprCode(r, x.ids);
    var br := Branch(op, x.val, y.val, t, f);
    assert TestCode(e, t, f, lab, id).code + rest == x.code + y.code + ([br] + rest);
    var tmp := ExprPairRun(m, l, r, id, [br] + rest, env, map[]);
    RunBranch(m, br, rest, env, tmp);
    TestHolds(m, e, env);
  }

  /** Short-circuit lowering: jumping code reaches its true target exactly when the
      condition holds, whatever code follows. */
  lemma {:induction false} CondRun(m: Machine, e: Expr, t: Label, f: Label, lab: nat, id: nat, rest: Code, env: Env)
    requires CondExpr(e) && Older(t, lab) && Older(f, lab)
    ensures Run(m, CondCode(e, t, f, lab, id).code + rest, env, map[])
         == JumpTo(m, rest, if Holds(m, e, env) then t else f, env)
  {
    hide Run, JumpTo, Joined, UniqueMarks, Forward, BranchesEndBlocks, MarksWithin;
    if e.Unary? && e.op == NOT {
      CondRun(m, e.arg, f, t, lab, id, rest, env);
    } else if e.Binary? && (e.op == AND || e.op == OR) {
      var mid := Fresh(lab + 1);
      var t1, f1 := if e.op == AND then mid else t, if e.op == AND then f else mid;
      var x := CondCode(e.left, t1, f1, lab + 1, id);
      var y := CondCode(e.right, t, f, x.labels, x.ids);
      CondCodeShape(e.left, t1, f1, lab + 1, id);
      CondCodeShape(e.right, t, f, x.labels, x.ids);
      JoinedApart(x.code, mid, y.code, rest);
      CondRun(m, e.left, t1, f1, lab + 1, id, [Mark(mid)] + y.code + rest, env);
      CondRun(m, e.right, t, f, x.labels, x.ids, rest, env);
      JumpOver(m, y.code, mid, if Holds(m, e.left, env) then t1 else f1, x.labels, y.labels, rest, env);
    } else {
      TestRun(m, e, t, f, lab, id, rest, env);
    }
  }

  lemma {:induction false} JoinedApart(x: Code, mid: Label, y: Code, rest: Code)
    ensures Joined(x, mid, y) + rest == x + ([Mark(mid)] + y + rest)
  {
  }

  /** Jumping at a mark lands behind it; a jump to an older label skips the code there. */
  lemma {:induction false} JumpOver(m: Machine, y: Code, mid: Label, l: Label, lo: nat, hi: nat, rest: Code, env: Env)
    requires MarksWithin(y, lo, hi) && Older(l, lo)
    ensures JumpTo(m, [Mark(mid)] + y + rest, l, env) ==
      if l == mid then Run(m, y + rest, env, map[]) else JumpTo(m, rest, l, env)
  {
    if l == mid {
      assert [Mark(mid)] + y + rest == [] + [Mark(mid)] + (y + rest);
      JumpLands(m, [], y + rest, mid, env);
    } else {
      assert Mark(l) !in [Mark(mid)] + y;
      JumpSkips(m, [Mark(mid)] + y, rest, l, env);
    }
  }

  // ---------- Statements ----------

  /** Where a run stands once a statement is done, with `rest` still ahead. */
  function Finish(m: Machine, flow: Flow, rest: Code): Outcome {
    match flow
    case Next(env) => Run(m, rest, env, map[])
    case Stop(p, env) => Returned(Decision(p), env)
  }

  /** Statement code does what the statement performs, whatever code follows: with jumps taken
      that is what the statement says. */
  lemma {:induction false} StmtRun(m: Machine, s: Stmt, lab: nat, id: nat, rest: Code, env: Env)
    requires WellTyped(s)
    ensures Run(m, StmtCode(s, lab, id).code + rest, env, map[]) == Finish(m, Performed(m, s, env), rest)
    decreases s, 1
  {
    hide JumpTo, Eval, ExprCode;
    match s {
      case Empty => assert [] + rest == rest;
      case Permit(p) => assert ([Return(Decision(p))] + rest)[0] == Return(Decision(p));
      case Assign(expr, x) => AssignRun(m, expr, x, lab, id, rest, env);
      case If(_, _, els) =>
        if els.None? {
          IfThenRun(m, s, lab, id, rest, env);
        } else {
          IfElseRun(m, s, lab, id, rest, env);
        }
      case Compound(stmts) => BodyRun(m, stmts, lab, id, rest, env);
    }
  }

  lemma {:induction false} AssignRun(m: Machine, expr: Expr, x: string, lab: nat, id: nat, rest: Code, env: Env)
    ensures Run(m, StmtCode(Assign(expr, x), lab, id).code + rest, env, map[])
         == Run(m, rest, env[x := Eval(m, expr, env)], map[])
  {
    hide Run, Eval, ExprCode;
    var g := ExprCode(expr, id);
    assert g.code + [Store(g.val, x)] + rest == g.code + ([Store(g.val, x)] + rest);
    var tmp := ExprRun(m, expr, id, [Store(g.val, x)] + rest, env, map[]);
    RunStore(m, g.val, x, rest, env, tmp);
  }

  lemma {:induction false} BodyRun(m: Machine, ss: seq<Stmt>, lab: nat, id: nat, rest: Code, env: Env)
    requires forall s | s in ss :: WellTyped(s)
    ensures Run(m, BodyCode(ss, lab, id).code + rest, env, map[]) == Finish(m, PerformedAll(m, ss, env), rest)
    decreases ss, 0
  {
    hide Run, WellTyped;
    if ss == [] {
      assert [] + rest == rest;
    } else {
      var x := StmtCode(ss[0], lab, id);
      var y := BodyCode(ss[1..], x.labels, x.ids);
      assert x.code + y.code + rest == x.code + (y.code + rest);
      StmtRun(m, ss[0], lab, id, y.code + rest, env);
      var flow := Performed(m, ss[0], env);
      if flow.Next? {
        BodyRun(m, ss[1..], x.labels, x.ids, rest, flow.env);
      }
    }
  }

  lemma {:induction false} IfThenRun(m: Machine, s: Stmt, lab: nat, id: nat, rest: Code, env: Env)
    requires s.If? && s.els.None? && WellTyped(s)
    ensures Run(m, StmtCode(s, lab, id).code + rest, env, map[]) == Finish(m, Performed(m, s, env), rest)
    decreases s, 0
  {
    hide Run, JumpTo, UniqueMarks, Forward, BranchesEndBlocks, MarksWithin, OpenEnd;
    var t, f := Fresh(lab + 1), Fresh(lab + 2);
    var c := CondCode(s.cond, t, f, lab + 2, id);
    var th := StmtCode(s.thn, c.labels, c.ids);
    CondCodeShape(s.cond, t, f, lab + 2, id);
    StmtCodeShape(s.thn, c.labels, c.ids);
    var tail := [Mark(f)] + rest;
    assert StmtCode(s, lab, id).code + rest == c.code + ([Mark(t)] + th.code + tail);
    CondRun(m, s.cond, t, f, lab + 2, id, [Mark(t)] + th.code + tail, env);
    var flow := if Holds(m, s.cond, env) then Performed(m, s.thn, env) else Next(env);
    JumpOver(m, th.code, t, if Holds(m, s.cond, env) then t else f, c.labels, th.labels, tail, env);
    StmtRun(m, s.thn, c.labels, c.ids, tail, env);
    RunMark(m, f, rest, flow.env, map[]);
    LandHere(m, f, rest, env);
  }

  lemma {:induction false} LandHere(m: Machine, l: Label, rest: Code, env: Env)
    ensures JumpTo(m, [Mark(l)] + rest, l, env) == Run(m, rest, env, map[])
  {
    assert [] + [Mark(l)] + rest == [Mark(l)] + rest;
    JumpLands(m, [], rest, l, env);
  }

  /** The code from the jump around the `else` to the end of the statement. */
  function ElseTail(el: Code, f: Label, out: Label, rest: Code): Code {
    [Jump(out)] + ([Mark(f)] + el + ([Mark(out)] + rest))
  }

  lemma {:induction false} AroundElse(m: Machine, el: Code, f: Label, out: Label, lo: nat, hi: nat, rest: Code,
                                      env: Env)
    requires MarksWithin(el, lo, hi) && Older(out, lo) && f != out
    ensures Run(m, ElseTail(el, f, out, rest), env, map[]) ==
      if m.jumps then Run(m, rest, env, map[]) else Run(m, el + ([Mark(out)] + rest), env, map[])
  {
    hide Run, JumpTo;
    var tail := [Mark(f)] + el + ([Mark(out)] + rest);
    RunJump(m, out, tail, env, map[]);
    if m.jumps {
      JumpOver(m, el, f, out, lo, hi, [Mark(out)] + rest, env);
      LandHere(m, out, rest, env);
    } else {
      assert tail == [Mark(f)] + (el + ([Mark(out)] + rest));
      RunMark(m, f, el + ([Mark(out)] + rest), env, map[]);
    }
  }

  lemma {:induction false} IntoElse(m: Machine, el: Code, f: Label, out: Label, lo: nat, hi: nat, rest: Code, env: Env)
    requires MarksWithin(el, lo, hi) && Older(f, lo)
    ensures JumpTo(m, ElseTail(el, f, out, rest), f, env) == Run(m, el + ([Mark(out)] + rest), env, map[])
  {
    hide Run, JumpTo;
    JumpSkips(m, [Jump(out)], [Mark(f)] + el + ([Mark(out)] + rest), f, env);
    JumpOver(m, el, f, f, lo, hi, [Mark(out)] + rest, env);
  }

  lemma {:induction false} IfElseRun(m: Machine, s: Stmt, lab: nat, id: nat, rest: Code, env: Env)
    requires s.If? && s.els.Some? && WellTyped(s)
    ensures Run(m, StmtCode(s, lab, id).code + rest, env, map[]) == Finish(m, Performed(m, s, env), rest)
    decreases s, 0
  {
    hide Run, JumpTo, UniqueMarks, Forward, BranchesEndBlocks, MarksWithin, OpenEnd;
    var t, f := Fresh(lab + 1), Fresh(lab + 2);
    var c := CondCode(s.cond, t, f, lab + 2, id);
    var th := StmtCode(s.thn, c.labels, c.ids);
    var out := Fresh(th.labels + 1);
    var el := StmtCode(s.els.value, th.labels + 1, th.ids);
    CondCodeShape(s.cond, t, f, lab + 2, id);
    StmtCodeShape(s.thn, c.labels, c.ids);
    StmtCodeShape(s.els.value, th.labels + 1, th.ids);
    var tail := ElseTail(el.code, f, out, rest);
    IfElseApart(c.code, t, th.code, f, el.code, out, rest);
    hide ElseTail, Joined;
    CondRun(m, s.cond, t, f, lab + 2, id, [Mark(t)] + th.code + tail, env);
    JumpOver(m, th.code, t, if Holds(m, s.cond, env) then t else f, c.labels, th.labels, tail, env);
    if Holds(m, s.cond, env) {
      StmtRun(m, s.thn, c.labels, c.ids, tail, env);
      var flow := Performed(m, s.thn, env);
      if flow.Next? {
        AroundElse(m, el.code, f, out, th.labels + 1, el.labels, rest, flow.env);
        ElseRun(m, s.els.value, out, th.labels + 1, th.ids, rest, flow.env);
      }
    } else {
      IntoElse(m, el.code, f, out, th.labels + 1, el.labels, rest, env);
      ElseRun(m, s.els.value, out, th.labels + 1, th.ids, rest, env);
    }
  }

  lemma {:induction false} ElseRun(m: Machine, s: Stmt, out: Label, lab: nat, id: nat, rest: Code, env: Env)
    requires WellTyped(s)
    ensures Run(m, StmtCode(s, lab, id).code + ([Mark(out)] + rest), env, map[]) ==
      Finish(m, Performed(m, s, env), rest)
    decreases s, 2
  {
    hide Run, StmtCode, Performed, WellTyped;
    StmtRun(m, s, lab, id, [Mark(out)] + rest, env);
    var flow := Performed(m, s, env);
    RunMark(m, out, rest, flow.env, map[]);
  }

  lemma {:induction false} IfElseApart(c: Code, t: Label, th: Code, f: Label, el: Code, out: Label, rest: Code)
    ensures Joined(Joined(Joined(c, t, th + [Jump(out)]), f, el), out, []) + rest
         == c + ([Mark(t)] + th + ElseTail(el, f, out, rest))
  {
  }
}
