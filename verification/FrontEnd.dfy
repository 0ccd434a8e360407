/** The front end: IR generation and the passes on linear code. */
module FrontEnd {
  import opened Syntax
  import opened Ir
  import opened IrGen
  import opened Lowering
  import opened Merge
  import opened DeadCode
  import opened BpfGen
  import opened Generated
  import opened Preserved

  /** `SyscallCheck::IRGen` up to BuildCFG: generate, merge labels, eliminate dead code. */
  function FrontCode(s: Stmt, lab: nat, id: nat): Code {
    Live(Merged(StmtCode(s, lab, id).code))
  }

  // ---------- The front end ----------

  lemma {:induction false} NoLeadingJump(s: Stmt, lab: nat, id: nat)
    requires WellTyped(s)
    ensures var c := StmtCode(s, lab, id).code; c != [] ==> !c[0].Jump?
    decreases s, 0
  {
    match s {
      case Assign(expr, x) =>
        ExprCodeStraight(expr, id);
        var c := ExprCode(expr, id).code;
        if c != [] {
          assert c[0].Computes();
        }
      case If(cond, _, _) => NoJumpInCond(cond, Fresh(lab + 1), Fresh(lab + 2), lab + 2, id);
      case Compound(stmts) => NoLeadingJumpAll(stmts, lab, id);
      case _ =>
    }
  }

  lemma {:induction false} NoLeadingJumpAll(ss: seq<Stmt>, lab: nat, id: nat)
    requires forall s | s in ss :: WellTyped(s)
    ensures var c := BodyCode(ss, lab, id).code; c != [] ==> !c[0].Jump?
    decreases ss, 0
  {
    hide WellTyped;
    if ss != [] {
      NoLeadingJump(ss[0], lab, id);
      var x := StmtCode(ss[0], lab, id);
      NoLeadingJumpAll(ss[1..], x.labels, x.ids);
    }
  }

  lemma {:induction false} NoJumpInCond(e: Expr, t: Label, f: Label, lab: nat, id: nat)
    ensures CondCode(e, t, f, lab, id).code != [] && !CondCode(e, t, f, lab, id).code[0].Jump?
  {
    if e.Unary? && e.op == NOT {
      NoJumpInCond(e.arg, f, t, lab, id);
    } else if e.Binary? && (e.op == AND || e.op == OR) {
      var mid := Fresh(lab + 1);
      NoJumpInCond(e.left, if e.op == AND then mid else t, if e.op == AND then f else mid, lab + 1, id);
    } else {
      var (l, op, r) := Test(e);
      var x := ExprCode(l, id);
      var y := ExprCode(r, x.ids);
      ExprCodeStraight(l, id);
      ExprCodeStraight(r, x.ids);
      var c := x.code + y.code;
      if c != [] {
        assert c[0] in c && c[0].Computes();
      }
    }
  }

  /** What the front end leaves for the back ends. */
  predicate FrontShape(c: Code) {
    && UniqueMarks(c) && Forward(c, {}) && EndsEndBlocks(c) && NoJumps(c) && Disciplined(c, [])
    && (forall i | i in c && i.Mark? :: i.lbl.Fresh?)
  }

  lemma {:induction false} GeneratedIsSound(s: Stmt, lab: nat, id: nat)
    ensures Disciplined(StmtCode(s, lab, id).code, []) && Ascending(StmtCode(s, lab, id).code, id)
  {
    var g := StmtCode(s, lab, id);
    assert Sound([], [], g.ids);
    hide Sound, StmtCode;
    StmtSound(s, lab, id, [], id);
    assert g.code + [] == g.code;
  }

  lemma {:induction false} FrontShapeHolds(s: Stmt, lab: nat, id: nat)
    requires WellTyped(s)
    ensures FrontShape(FrontCode(s, lab, id))
    ensures forall k | 0 <= k < |FrontCode(s, lab, id)| :: Justified(FrontCode(s, lab, id), k)
  {
    hide StmtCode, Disciplined, UniqueMarks, Forward, Justified, Ascending;
    var c := StmtCode(s, lab, id).code;
    var m := Machine((f, vs) => 0, (op, x, y) => 0, true);
    StmtCodeShape(s, lab, id);
    assert WellFormed(c);
    NoLeadingJump(s, lab, id);
    MergedHead(c);
    MergePreserves(m, c, map[]);
    LivePreserves(m, Merged(c), map[]);
    GeneratedIsSound(s, lab, id);
    PassesKeepDiscipline(c);
    PassesKeepInstructions(c);
  }

  lemma {:induction false} MergedHead(c: Code)
    requires c != [] ==> !c[0].Jump?
    ensures Merged(c) != [] ==> !Merged(c)[0].Jump?
  {
    if c != [] {
      assert Strip(c, false)[0] == c[0];
    }
  }

  function Finished(flow: Flow): Outcome {
    match flow
    case Next(env) => FellOff(env)
    case Stop(p, env) => Returned(Decision(p), env)
  }

  /** The front end, exactly: for every well-typed body its code does what the body performs
      where unconditional jumps are not taken, since all of them are deleted. */
  lemma {:induction false} FrontRuns(m: Machine, s: Stmt, lab: nat, id: nat, env: Env)
    requires m.jumps && WellTyped(s)
    ensures Run(m, FrontCode(s, lab, id), env, map[]) == Finished(Performed(m.(jumps := false), s, env))
  {
    hide StmtCode, Run, Performed, UniqueMarks, Forward, Justified, WellTyped;
    var c := StmtCode(s, lab, id).code;
    StmtCodeShape(s, lab, id);
    assert WellFormed(c);
    NoLeadingJump(s, lab, id);
    MergedHead(c);
    var mi := m.(jumps := false);
    StmtRun(mi, s, lab, id, [], env);
    assert c + [] == c;
    MergePreserves(mi, c, env);
    LivePreserves(m, Merged(c), env);
    assert Finish(mi, Performed(mi, s, env), []) ==
      Finished(Performed(mi, s, env)) by { FinishAtEnd(mi, Performed(mi, s, env)); }
  }

  lemma {:induction false} FinishAtEnd(m: Machine, flow: Flow)
    ensures Finish(m, flow, []) == Finished(flow)
  {
  }

  /** The front end preserves the meaning of every well-typed body on the arguments on which no
      deleted jump is missed. */
  lemma {:induction false} FrontPreserves(m: Machine, s: Stmt, lab: nat, id: nat, env: Env)
    requires m.jumps && WellTyped(s) && JumpsHarmless(m.(jumps := false), s, env)
    ensures Run(m, FrontCode(s, lab, id), env, map[]) == Finished(Exec(m, s, env))
  {
    hide Run, FrontCode, Exec, Performed, WellTyped;
    HarmlessIsExec(m.(jumps := false), s, env);
    SameMeaning(m, m.(jumps := false), s, env);
    FrontRuns(m, s, lab, id, env);
  }

  lemma {:induction false} SameValue(m: Machine, m': Machine, e: Expr, env: Env)
    requires m' == m.(jumps := m'.jumps)
    ensures Eval(m', e, env) == Eval(m, e, env)
  {
    match e {
      case Unary(_, arg) => SameValue(m, m', arg, env);
      case Binary(_, left, right) =>
        SameValue(m, m', left, env);
        SameValue(m, m', right, env);
      case _ =>
    }
  }

  lemma {:induction false} SameTruth(m: Machine, m': Machine, e: Expr, env: Env)
    requires m' == m.(jumps := m'.jumps)
    ensures Holds(m', e, env) == Holds(m, e, env)
  {
    hide Eval, Compare;
    match e {
      case Unary(op, arg) =>
        SameTruth(m, m', arg, env);
        SameValue(m, m', e, env);
      case Binary(_, left, right) =>
        SameTruth(m, m', left, env);
        SameTruth(m, m', right, env);
        SameValue(m, m', left, env);
        SameValue(m, m', right, env);
        SameValue(m, m', e, env);
      case _ => SameValue(m, m', e, env);
    }
  }

  /** What a statement means does not depend on jumps. */
  lemma {:induction false} SameMeaning(m: Machine, m': Machine, s: Stmt, env: Env)
    requires m' == m.(jumps := m'.jumps)
    ensures Exec(m', s, env) == Exec(m, s, env)
    decreases s, 0
  {
    hide Eval, Holds;
    match s {
      case Assign(expr, _) => SameValue(m, m', expr, env);
      case If(cond, thn, els) =>
        SameTruth(m, m', cond, env);
        SameMeaning(m, m', thn, env);
        if els.Some? {
          SameMeaning(m, m', els.value, env);
        }
      case Compound(stmts) => SameMeaningAll(m, m', stmts, env);
      case _ =>
    }
  }

  lemma {:induction false} SameMeaningAll(m: Machine, m': Machine, ss: seq<Stmt>, env: Env)
    requires m' == m.(jumps := m'.jumps)
    ensures ExecAll(m', ss, env) == ExecAll(m, ss, env)
    decreases ss, 0
  {
    if ss != [] {
      SameMeaning(m, m', ss[0], env);
      var flow := Exec(m, ss[0], env);
      if flow.Next? {
        SameMeaningAll(m, m', ss[1..], flow.env);
      }
    }
  }
}
