/** The lifted text does what the blocks do. */
module LifterProof {
  import opened Syntax
  import opened Ir
  import opened Cfg
  import opened Lifter

  // ---------- Labels in the text ----------

  /** No line labels a block that is reached by `goto`. */
  predicate InlineLabelsOnly(x: Job, ls: Lines) {
    forall l | l in ls && l.LabelC? :: Inlined(x, l.lbl)
  }

  lemma {:induction false} CodeLabels(x: Job, k: nat, ps: seq<PCode>)
    requires WellFormedJob(x) && k in x.lifted && TargetsFrom(x, k, ps)
    ensures InlineLabelsOnly(x, CodeLines(x, k, ps))
    decreases |x.bs| - k, |ps|
  {
    assert k < |x.bs|;
    hide Inlined, Refs, WellFormedJob;
    if ps != [] {
      assert ps[0] in ps && TargetsFrom(x, k, ps[1..]);
      CodeLabels(x, k, ps[1..]);
      if ps[0].PIf? {
        ArmLabels(x, k, ps[0].t);
        ArmLabels(x, k, ps[0].f);
      }
    }
  }

  lemma {:induction false} ArmLabels(x: Job, k: nat, l: Label)
    requires WellFormedJob(x) && k in x.lifted
    requires Find(x.bs, k + 1, l).Some? && Find(x.bs, k + 1, l).value in x.lifted
    ensures InlineLabelsOnly(x, ArmLines(x, k, l))
    decreases |x.bs| - k, 0
  {
    hide Refs;
    if Inlined(x, l) {
      var j := Find(x.bs, k + 1, l).value;
      LiftedTargets(x, j, x.bs[j].insts);
      CodeLabels(x, j, BlockCode(x, j));
    }
  }

  // ---------- Arms are balanced ----------

  /** The lines of the first statement of a block's code. */
  function HeadLines(x: Job, k: nat, ps: seq<PCode>): Lines
    requires WellFormedJob(x) && k in x.lifted && TargetsFrom(x, k, ps) && ps != []
  {
    assert ps[0] in ps;
    match ps[0]
    case PIf(l, op, r, t, f) => [IfC(l, op, r)] + ArmLines(x, k, t) + [ElseC] + ArmLines(x, k, f) + [EndC]
    case PGoto(t) => [GotoC(t)]
    case PAllow => [AllowC]
    case PDeny => [DenyC]
    case PAssign(dst, expr) => [AssignC(dst, expr), WriteBack(x, dst, expr)]
  }

  lemma {:induction false} CodeSplit(x: Job, k: nat, ps: seq<PCode>, tail: Lines)
    requires WellFormedJob(x) && k in x.lifted && TargetsFrom(x, k, ps) && ps != []
    ensures TargetsFrom(x, k, ps[1..])
    ensures CodeLines(x, k, ps) + tail == HeadLines(x, k, ps) + (CodeLines(x, k, ps[1..]) + tail)
  {
    assert ps[0] in ps;
    hide ArmLines, WellFormedJob;
  }

  lemma {:induction false} SkipCode(x: Job, k: nat, ps: seq<PCode>, tail: Lines, depth: nat)
    requires WellFormedJob(x) && k in x.lifted && TargetsFrom(x, k, ps)
    ensures SkipArm(CodeLines(x, k, ps) + tail, depth) == SkipArm(tail, depth)
    decreases |x.bs| - k, |ps|, 1
  {
    assert k < |x.bs|;
    hide WellFormedJob;
    if ps == [] {
      assert [] + tail == tail;
    } else {
      CodeSplit(x, k, ps, tail);
      hide CodeLines;
      SkipHead(x, k, ps, CodeLines(x, k, ps[1..]) + tail, depth);
      SkipCode(x, k, ps[1..], tail, depth);
    }
  }

  lemma {:induction false} SkipHead(x: Job, k: nat, ps: seq<PCode>, rest: Lines, depth: nat)
    requires WellFormedJob(x) && k in x.lifted && TargetsFrom(x, k, ps) && ps != []
    ensures SkipArm(HeadLines(x, k, ps) + rest, depth) == SkipArm(rest, depth)
    decreases |x.bs| - k, |ps|, 0
  {
    assert ps[0] in ps && k < |x.bs|;
    hide WellFormedJob, ArmLines, SkipArm;
    match ps[0] {
      case PIf(l, op, r, t, f) =>
        assert HeadLines(x, k, ps) == [IfC(l, op, r)] + ArmLines(x, k, t) + [ElseC] + ArmLines(x, k, f) + [EndC];
        SkipIf(x, k, l, op, r, t, f, rest, depth);
      case PAssign(dst, expr) =>
        var back := WriteBack(x, dst, expr);
        assert HeadLines(x, k, ps) + rest == [AssignC(dst, expr)] + ([back] + rest);
        SkipLine(AssignC(dst, expr), [back] + rest, depth);
        SkipLine(back, rest, depth);
      case _ => SkipLine(HeadLines(x, k, ps)[0], rest, depth);
    }
  }

  lemma {:induction false} SkipIf(x: Job, k: nat, l: Expr, op: OpCode, r: Expr, t: Label, f: Label, rest: Lines,
                                  depth: nat)
    requires WellFormedJob(x) && k in x.lifted
    requires Find(x.bs, k + 1, t).Some? && Find(x.bs, k + 1, t).value in x.lifted
    requires Find(x.bs, k + 1, f).Some? && Find(x.bs, k + 1, f).value in x.lifted
    ensures SkipArm([IfC(l, op, r)] + ArmLines(x, k, t) + [ElseC] + ArmLines(x, k, f) + [EndC] + rest, depth) ==
      SkipArm(rest, depth)
    decreases |x.bs| - k, 0, 1
  {
    hide WellFormedJob, ArmLines, SkipArm;
    var armT, armF := ArmLines(x, k, t), ArmLines(x, k, f);
    var end := [EndC] + rest;
    var els := [ElseC] + (armF + end);
    assert [IfC(l, op, r)] + armT + [ElseC] + armF + [EndC] + rest == [IfC(l, op, r)] + (armT + els);
    SkipLine(IfC(l, op, r), armT + els, depth);
    SkipArmLines(x, k, t, els, depth + 1);
    SkipLine(ElseC, armF + end, depth + 1);
    SkipArmLines(x, k, f, end, depth + 1);
    SkipLine(EndC, rest, depth + 1);
  }

  lemma {:induction false} SkipLine(l: Line, rest: Lines, depth: nat)
    ensures SkipArm([l] + rest, depth) ==
      if l.IfC? then SkipArm(rest, depth + 1)
      else if l.EndC? then if depth == 0 then rest else SkipArm(rest, depth - 1)
      else if l.ElseC? && depth == 0 then rest
      else SkipArm(rest, depth)
  {
    assert ([l] + rest)[1..] == rest;
  }

  lemma {:induction false} SkipArmLines(x: Job, k: nat, l: Label, tail: Lines, depth: nat)
    requires WellFormedJob(x) && k in x.lifted
    requires Find(x.bs, k + 1, l).Some? && Find(x.bs, k + 1, l).value in x.lifted
    ensures SkipArm(ArmLines(x, k, l) + tail, depth) == SkipArm(tail, depth)
    decreases |x.bs| - k, 0, 0
  {
    hide Refs;
    if Inlined(x, l) {
      var j := Find(x.bs, k + 1, l).value;
      LiftedTargets(x, j, x.bs[j].insts);
      var code := CodeLines(x, j, BlockCode(x, j));
      var lab := BlockLabel(x, x.bs[j].label_);
      assert BlockLines(x, j) + tail == lab + (code + tail);
      SkipCode(x, j, BlockCode(x, j), tail, depth);
      if lab == [] {
        assert [] + (code + tail) == code + tail;
      } else {
        SkipLine(lab[0], code + tail, depth);
      }
    } else {
      SkipLine(GotoC(l), tail, depth);
    }
  }

  // ---------- Expressions ----------

  /** Every live temporary holds the value of its re-lifted tree. */
  predicate TreesAgree(m: Machine, defs: Defs, env: Env, tmp: Temps)
    requires Grounded(defs)
  {
    forall id | id in tmp :: id in defs && Eval(m, LiftExpr(defs, Tmp(id)), env) == tmp[id]
  }

  /** The code's own instructions are the ones its operands refer to. */
  predicate DefsMatch(defs: Defs, c: Code) {
    forall i | i in c && i.Computes() :: i.id in defs && defs[i.id] == i
  }

  /** An operand's value and the value of its re-lifted tree coincide where it is used. */
  lemma {:induction false} OperandAgrees(m: Machine, defs: Defs, o: Operand, env: Env, tmp: Temps)
    requires Grounded(defs) && Known(defs, o) && TreesAgree(m, defs, env, tmp) && Val(o, env, tmp).Some?
    ensures Eval(m, LiftExpr(defs, o), env) == Val(o, env, tmp).value
  {
  }

  lemma {:induction false} ComputeAgrees(m: Machine, defs: Defs, i: Inst, env: Env, tmp: Temps)
    requires Grounded(defs) && i.Computes() && i.id in defs && defs[i.id] == i
    requires TreesAgree(m, defs, env, tmp) && Result(m, i, env, tmp).Some?
    ensures TreesAgree(m, defs, env, tmp[i.id := Result(m, i, env, tmp).value])
  {
    var v := Result(m, i, env, tmp).value;
    assert RefersBelow(i, i.id, defs);
    assert Eval(m, LiftExpr(defs, Tmp(i.id)), env) == v by {
      match i
      case Arith1(_, _, a) => OperandAgrees(m, defs, a, env, tmp);
      case Arith2(_, _, a, b) => OperandAgrees(m, defs, a, env, tmp); OperandAgrees(m, defs, b, env, tmp);
      case Call(_, _, _) =>
    }
  }

  /** The expression mentions the argument. */
  predicate Reads(e: Expr, x: string) {
    match e
    case Ref(y) => y == x
    case Value(_) => false
    case Invoke(_, params) => x in params
    case Unary(_, arg) => Reads(arg, x)
    case Binary(_, left, right) => Reads(left, x) || Reads(right, x)
  }

  lemma {:induction false} UnreadUnchanged(m: Machine, e: Expr, env: Env, x: string, v: Word)
    requires !Reads(e, x)
    ensures Eval(m, e, env[x := v]) == Eval(m, e, env)
  {
    match e {
      case Invoke(f, params) => assert ParamValues(params, env[x := v]) == ParamValues(params, env);
      case Unary(_, arg) => UnreadUnchanged(m, arg, env, x, v);
      case Binary(_, left, right) => UnreadUnchanged(m, left, env, x, v); UnreadUnchanged(m, right, env, x, v);
      case _ =>
    }
  }

  /** After an assignment and its write-back the argument has its new value exactly when it
      is memory, or evaluating the expression again still gives that value. */
  lemma {:induction false} WriteBackIsRightIff(m: Machine, x: Job, dst: string, e: Expr, rest: Lines, loc: Env,
      regs: Env)
    ensures var v := Eval(m, e, loc);
      var back := if dst in x.copied then v else Eval(m, e, loc[dst := v]);
      && RunC(m, [AssignC(dst, e), WriteBack(x, dst, e)] + rest, loc, regs) ==
         RunC(m, rest, loc[dst := v], regs[dst := back])
      && (back == v <==> dst in x.copied || Eval(m, e, loc[dst := v]) == v)
      && (!Reads(e, dst) ==> back == v)
  {
    var v := Eval(m, e, loc);
    var ls := [AssignC(dst, e), WriteBack(x, dst, e)] + rest;
    assert ls[1..] == [WriteBack(x, dst, e)] + rest && ls[1..][1..] == rest;
    if !Reads(e, dst) {
      UnreadUnchanged(m, e, loc, dst, v);
    }
  }

  /** Assignments that survive their write-back: to memory, or of an expression that does
      not read what it assigns. */
  predicate SafeStore(copied: set<string>, defs: Defs, i: Inst)
    requires Grounded(defs) && OperandsKnown(defs, i)
  {
    i.Store? ==> i.dst in copied || !Reads(LiftExpr(defs, i.src), i.dst)
  }

  // ---------- Where a `goto` leads ----------

  /** From `tail` every `goto` out of block `k` reaches its block. */
  predicate GoodTail(x: Job, k: nat, tail: Lines)
    requires WellFormedJob(x)
  {
    forall j: nat | k < j < |x.bs| && j in x.lifted && Refs(x, 0, x.bs[j].label_) > 1 :: Reaches(x, j, tail)
  }

  predicate Reaches(x: Job, j: nat, tail: Lines)
    requires WellFormedJob(x) && j < |x.bs| && j in x.lifted
  {
    LiftedTargets(x, j, x.bs[j].insts);
    LabelC(x.bs[j].label_) in tail &&
    AfterLabel(tail, x.bs[j].label_) == CodeLines(x, j, BlockCode(x, j)) + ProgramLines(x, j + 1)
  }

  lemma {:induction false} AfterLabelConcat(a: Lines, b: Lines, l: Label)
    requires LabelC(l) in a + b
    ensures AfterLabel(a + b, l) == if LabelC(l) in a then AfterLabel(a, l) + b else AfterLabel(b, l)
  {
    if a == [] {
      assert a + b == b;
    } else {
      assert (a + b)[1..] == a[1..] + b;
      if a[0] != LabelC(l) {
        AfterLabelConcat(a[1..], b, l);
      }
    }
  }

  lemma {:induction false} ReachBehind(x: Job, j: nat, prefix: Lines, tail: Lines)
    requires WellFormedJob(x) && j < |x.bs| && j in x.lifted
    requires Reaches(x, j, tail) && LabelC(x.bs[j].label_) !in prefix
    ensures Reaches(x, j, prefix + tail)
  {
    hide WellFormedJob, CodeLines, BlockCode, ProgramLines;
    AfterLabelConcat(prefix, tail, x.bs[j].label_);
  }

  lemma {:induction false} GoodTailBehind(x: Job, k: nat, prefix: Lines, tail: Lines)
    requires WellFormedJob(x) && GoodTail(x, k, tail) && InlineLabelsOnly(x, prefix)
    ensures GoodTail(x, k, prefix + tail)
  {
    hide WellFormedJob, Reaches;
    forall j: nat | k < j < |x.bs| && j in x.lifted && Refs(x, 0, x.bs[j].label_) > 1
      ensures Reaches(x, j, prefix + tail)
    {
      ReachBehind(x, j, prefix, tail);
    }
  }

  /** The lines of a block that stands on its own in the text. */
  lemma {:induction false} TopLines(x: Job, k: nat)
    requires WellFormedJob(x) && k < |x.bs| && k in x.lifted && !Inlined(x, x.bs[k].label_)
    ensures TargetsFrom(x, k, BlockCode(x, k))
    ensures var code := CodeLines(x, k, BlockCode(x, k));
      var lab := BlockLabel(x, x.bs[k].label_);
      && ProgramLines(x, k) == lab + (code + ProgramLines(x, k + 1))
      && InlineLabelsOnly(x, code)
  {
    LiftedTargets(x, k, x.bs[k].insts);
    CodeLabels(x, k, BlockCode(x, k));
    hide Inlined, CodeLines, BlockCode, BlockLabel;
  }

  lemma {:induction false} ReachHere(x: Job, j: nat)
    requires WellFormedJob(x) && j < |x.bs| && j in x.lifted && Refs(x, 0, x.bs[j].label_) > 1
    ensures Reaches(x, j, ProgramLines(x, j))
  {
    TopLines(x, j);
    hide ProgramLines, CodeLines, BlockCode, WellFormedJob;
    var l := x.bs[j].label_;
    var rest := CodeLines(x, j, BlockCode(x, j)) + ProgramLines(x, j + 1);
    assert BlockLabel(x, l) == [LabelC(l)];
    assert ([LabelC(l)] + rest)[1..] == rest;
  }

  lemma {:induction false} ReachFurther(x: Job, k: nat, j: nat)
    requires WellFormedJob(x) && DistinctLabels(x.bs) && k < j < |x.bs| && j in x.lifted
    requires Refs(x, 0, x.bs[j].label_) > 1 && Reaches(x, j, ProgramLines(x, k + 1))
    ensures Reaches(x, j, ProgramLines(x, k))
  {
    var more := ProgramLines(x, k + 1);
    if k in x.lifted && !Inlined(x, x.bs[k].label_) {
      TopLines(x, k);
      hide ProgramLines, CodeLines, BlockCode, WellFormedJob, Refs, Reaches;
      var code, lab := CodeLines(x, k, BlockCode(x, k)), BlockLabel(x, x.bs[k].label_);
      assert LabelC(x.bs[j].label_) !in lab + code;
      assert lab + (code + more) == (lab + code) + more;
      ReachBehind(x, j, lab + code, more);
    } else {
      hide WellFormedJob, Refs, Reaches, BlockLines;
      assert [] + more == more;
    }
  }

  /** The text from block `k` on reaches every later block that is gone to. */
  lemma {:induction false} ProgramReaches(x: Job, k: nat, j: nat)
    requires WellFormedJob(x) && DistinctLabels(x.bs) && k <= j < |x.bs| && j in x.lifted
    requires Refs(x, 0, x.bs[j].label_) > 1
    ensures Reaches(x, j, ProgramLines(x, k))
    decreases j - k
  {
    hide WellFormedJob, Refs, Reaches, ProgramLines, DistinctLabels;
    if k == j {
      ReachHere(x, j);
    } else {
      ProgramReaches(x, k + 1, j);
      ReachFurther(x, k, j);
    }
  }

  lemma {:induction false} ProgramIsGoodTail(x: Job, k: nat)
    requires WellFormedJob(x) && DistinctLabels(x.bs) && k < |x.bs|
    ensures GoodTail(x, k, ProgramLines(x, k + 1))
  {
    hide WellFormedJob, Refs, Reaches;
    forall j: nat | k < j < |x.bs| && j in x.lifted && Refs(x, 0, x.bs[j].label_) > 1
      ensures Reaches(x, j, ProgramLines(x, k + 1))
    {
      ProgramReaches(x, k + 1, j);
    }
  }
}
