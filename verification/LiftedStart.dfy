/** Starting the lifted text at a hand-off label. */
module LiftedStart {
  import opened Syntax
  import opened Ir
  import opened Cfg
  import opened Lifter
  import opened LifterProof
  import opened LiftedRun
  import opened LifterGen
  import opened Layout

  // ---------- Branches are last ----------

  /** A branch is the last statement of its block. */
  lemma {:induction false} BranchIsLast(x: Job, k: nat, i: nat)
    requires Runnable(x) && k in x.lifted && i < |BlockCode(x, k)|
    ensures BlockCode(x, k)[i].PIf? ==> i == |BlockCode(x, k)| - 1
  {
    if BlockCode(x, k)[i].PIf? {
      LastOfLifted(x, x.bs[k].insts, i);
    }
  }

  lemma {:induction false} LastOfLifted(x: Job, c: Code, i: nat)
    requires Grounded(x.defs) && AllKnown(x.defs, c) && (forall n | 0 <= n < |c| - 1 :: !c[n].Ends())
    requires i < |LiftInsts(x.defs, c)| && LiftInsts(x.defs, c)[i].PIf?
    ensures i == |LiftInsts(x.defs, c)| - 1
  {
    assert c[0] in c && AllKnown(x.defs, c[1..]);
    var rest := LiftInsts(x.defs, c[1..]);
    if |c| > 1 {
      assert !c[0].Ends();
      if Lifts(c[0]) {
        assert LiftInsts(x.defs, c) == [LiftInst(x.defs, c[0])] + rest;
        LastOfLifted(x, c[1..], i - 1);
      } else {
        assert LiftInsts(x.defs, c) == [] + rest == rest;
        LastOfLifted(x, c[1..], i);
      }
    } else {
      assert c[1..] == [] && rest == [];
    }
  }

  /** Statements of the end of block `k`. */
  predicate EndsBlock(x: Job, k: nat, ps: seq<PCode>)
    requires WellFormedJob(x) && k in x.lifted
  {
    (forall p | p in ps :: p in BlockCode(x, k)) && forall n | 0 <= n < |ps| - 1 :: !ps[n].PIf?
  }

  lemma {:induction false} BlockEnds(x: Job, k: nat)
    requires Runnable(x) && k in x.lifted
    ensures EndsBlock(x, k, BlockCode(x, k))
  {
    forall n | 0 <= n < |BlockCode(x, k)| - 1
      ensures !BlockCode(x, k)[n].PIf?
    {
      BranchIsLast(x, k, n);
    }
  }

  // ---------- Where a label is found ----------

  /** Behind its label stands the code of block `j`, in its place in the text. */
  ghost predicate StartsBlock(x: Job, j: nat, ls: Lines, tail: Lines)
    requires WellFormedJob(x) && j < |x.bs| && j in x.lifted
  {
    LiftedTargets(x, j, x.bs[j].insts);
    && LabelC(x.bs[j].label_) in ls && InText(x, j, tail)
    && AfterLabel(ls, x.bs[j].label_) == CodeLines(x, j, BlockCode(x, j)) + tail
  }

  lemma {:induction false} StartsBehind(x: Job, j: nat, prefix: Lines, ls: Lines, tail: Lines)
    requires WellFormedJob(x) && j < |x.bs| && j in x.lifted
    requires StartsBlock(x, j, ls, tail) && LabelC(x.bs[j].label_) !in prefix
    ensures StartsBlock(x, j, prefix + ls, tail)
  {
    hide WellFormedJob, CodeLines, BlockCode, InText;
    AfterLabelConcat(prefix, ls, x.bs[j].label_);
  }

  /** In the lines of one block, its own label or a label inlined in its code. */
  lemma {:induction false} FindInBlock(x: Job, k: nat, tail: Lines, j: nat) returns (tail': Lines)
    requires WellFormedJob(x) && DistinctLabels(x.bs) && InText(x, k, tail) && k in x.lifted && j < |x.bs|
    requires j in x.lifted
    requires LabelC(x.bs[j].label_) in BlockLines(x, k)
    ensures StartsBlock(x, j, BlockLines(x, k) + tail, tail')
    decreases |x.bs| - k, 2, 0
  {
    LiftedTargets(x, k, x.bs[k].insts);
    assert k < |x.bs|;
    hide WellFormedJob, CodeLines, BlockCode, InText, StartsBlock;
    var lab, code := BlockLabel(x, x.bs[k].label_), CodeLines(x, k, BlockCode(x, k));
    assert BlockLines(x, k) + tail == lab + (code + tail);
    if LabelC(x.bs[j].label_) in lab {
      assert j == k;
      tail' := tail;
      FoundHere(x, k, code, tail);
    } else {
      BlockInText(x, k, tail);
      BlockEnds(x, k);
      tail' := FindInCode(x, k, BlockCode(x, k), tail, j);
      StartsBehind(x, j, lab, code + tail, tail');
    }
  }

  lemma {:induction false} BlockInText(x: Job, k: nat, tail: Lines)
    requires InText(x, k, tail)
    ensures Runnable(x)
  {
  }

  lemma {:induction false} FoundHere(x: Job, k: nat, code: Lines, tail: Lines)
    requires WellFormedJob(x) && k < |x.bs| && k in x.lifted && InText(x, k, tail)
    requires TargetsFrom(x, k, BlockCode(x, k)) && code == CodeLines(x, k, BlockCode(x, k))
    requires LabelC(x.bs[k].label_) in BlockLabel(x, x.bs[k].label_)
    ensures StartsBlock(x, k, BlockLabel(x, x.bs[k].label_) + (code + tail), tail)
  {
    hide WellFormedJob, CodeLines, BlockCode, InText;
    var ls := [LabelC(x.bs[k].label_)] + (code + tail);
    assert ls[1..] == code + tail;
  }

  /** In the code of a block a label can only be in a branch, which is its last statement. */
  lemma {:induction false} FindInCode(x: Job, k: nat, ps: seq<PCode>, tail: Lines, j: nat) returns (tail': Lines)
    requires WellFormedJob(x) && DistinctLabels(x.bs) && InText(x, k, tail) && k in x.lifted && j < |x.bs|
    requires j in x.lifted
    requires TargetsFrom(x, k, ps) && EndsBlock(x, k, ps) && LabelC(x.bs[j].label_) in CodeLines(x, k, ps)
    ensures StartsBlock(x, j, CodeLines(x, k, ps) + tail, tail')
    decreases |x.bs| - k, 1, |ps|
  {
    assert ps != [] && k < |x.bs|;
    var l := LabelC(x.bs[j].label_);
    CodeSplit(x, k, ps, tail);
    CodeSplit(x, k, ps, []);
    assert l in HeadLines(x, k, ps) || l in CodeLines(x, k, ps[1..]);
    hide WellFormedJob, InText, StartsBlock, CodeLines;
    var rest := CodeLines(x, k, ps[1..]);
    if l in HeadLines(x, k, ps) {
      OnlyIfsLabel(x, k, ps, l);
      assert ps[1..] == [];
      NothingBehind(x, k, ps[1..], tail);
      assert ps[0] in ps;
      tail' := FindInIf(x, k, ps, tail, j);
    } else {
      tail' := FindInCode(x, k, ps[1..], tail, j);
      StartsBehind(x, j, HeadLines(x, k, ps), rest + tail, tail');
    }
  }

  lemma {:induction false} NothingBehind(x: Job, k: nat, ps: seq<PCode>, tail: Lines)
    requires WellFormedJob(x) && k in x.lifted && TargetsFrom(x, k, ps) && ps == []
    ensures CodeLines(x, k, ps) + tail == tail
  {
    hide WellFormedJob;
    assert [] + tail == tail;
  }

  lemma {:induction false} FindInIf(x: Job, k: nat, ps: seq<PCode>, tail: Lines, j: nat) returns (tail': Lines)
    requires WellFormedJob(x) && DistinctLabels(x.bs) && InText(x, k, tail) && k in x.lifted && j < |x.bs|
    requires j in x.lifted
    requires TargetsFrom(x, k, ps) && ps != [] && ps[0] in BlockCode(x, k)
    requires LabelC(x.bs[j].label_) in HeadLines(x, k, ps)
    ensures StartsBlock(x, j, HeadLines(x, k, ps) + tail, tail')
    decreases |x.bs| - k, 1, 0
  {
    hide WellFormedJob, InText, StartsBlock, ArmLines, Inlined, HeadLines, TargetsFrom;
    var l, p := LabelC(x.bs[j].label_), ps[0];
    IfHead(x, k, ps, l, tail);
    var armT, armF := ArmLines(x, k, p.t), ArmLines(x, k, p.f);
    if l in armT {
      var els := [ElseC] + armF + [EndC];
      ElseIsGood(x, k, p.f, tail);
      ArmIsReferred(x, k, p, p.t);
      tail' := FindInArm(x, k, p.t, els + tail, j);
      StartsBehind(x, j, [IfC(p.l, p.op, p.r)], armT + (els + tail), tail');
    } else {
      EndIsGood(x, k, tail);
      ArmIsReferred(x, k, p, p.f);
      tail' := FindInArm(x, k, p.f, [EndC] + tail, j);
      StartsBehind(x, j, [IfC(p.l, p.op, p.r)] + armT + [ElseC], armF + ([EndC] + tail), tail');
    }
  }

  lemma {:induction false} OnlyIfsLabel(x: Job, k: nat, ps: seq<PCode>, l: Line)
    requires WellFormedJob(x) && k in x.lifted && TargetsFrom(x, k, ps) && ps != []
    requires l in HeadLines(x, k, ps) && l.LabelC?
    ensures ps[0].PIf?
  {
    assert ps[0] in ps;
    hide WellFormedJob, ArmLines;
  }

  lemma {:induction false} IfLinesApart(i: Line, armT: Lines, armF: Lines, tail: Lines, l: Line)
    requires l.LabelC? && i.IfC? && l in [i] + armT + [ElseC] + armF + [EndC]
    ensures l in armT || l in armF
    ensures [i] + armT + [ElseC] + armF + [EndC] + tail == [i] + (armT + ([ElseC] + armF + [EndC] + tail))
    ensures [i] + armT + [ElseC] + armF + [EndC] + tail == [i] + armT + [ElseC] + (armF + ([EndC] + tail))
  {
  }

  lemma {:induction false} IfHead(x: Job, k: nat, ps: seq<PCode>, l: Line, tail: Lines)
    requires WellFormedJob(x) && k in x.lifted && TargetsFrom(x, k, ps) && ps != []
    requires l in HeadLines(x, k, ps) && l.LabelC?
    ensures ps[0].PIf? && k < |x.bs|
    ensures var p := ps[0];
      && Find(x.bs, k + 1, p.t).Some? && Find(x.bs, k + 1, p.t).value in x.lifted
      && Find(x.bs, k + 1, p.f).Some? && Find(x.bs, k + 1, p.f).value in x.lifted
    ensures var p := ps[0];
      var iff, armT, armF := [IfC(p.l, p.op, p.r)], ArmLines(x, k, p.t), ArmLines(x, k, p.f);
      && HeadLines(x, k, ps) + tail == iff + (armT + ([ElseC] + armF + [EndC] + tail))
      && HeadLines(x, k, ps) + tail == iff + armT + [ElseC] + (armF + ([EndC] + tail))
      && (l in armT || l in armF)
  {
    OnlyIfsLabel(x, k, ps, l);
    var p := ps[0];
    assert p in ps;
    var armT, armF := ArmLines(x, k, p.t), ArmLines(x, k, p.f);
    assert HeadLines(x, k, ps) == [IfC(p.l, p.op, p.r)] + armT + [ElseC] + armF + [EndC] by {
      hide WellFormedJob, ArmLines, TargetsFrom;
    }
    hide WellFormedJob, ArmLines, HeadLines, TargetsFrom;
    IfLinesApart(IfC(p.l, p.op, p.r), armT, armF, tail, l);
  }

  lemma {:induction false} FindInArm(x: Job, k: nat, l: Label, tail: Lines, j: nat) returns (tail': Lines)
    requires WellFormedJob(x) && DistinctLabels(x.bs) && InText(x, k, tail) && k in x.lifted && j < |x.bs|
    requires j in x.lifted
    requires Find(x.bs, k + 1, l).Some? && Find(x.bs, k + 1, l).value in x.lifted
    requires Refers(x, k, Find(x.bs, k + 1, l).value)
    requires LabelC(x.bs[j].label_) in ArmLines(x, k, l)
    ensures StartsBlock(x, j, ArmLines(x, k, l) + tail, tail')
    decreases |x.bs| - k, 0, 0
  {
    hide WellFormedJob, Reaches, StartsBlock, BlockLines, Runnable, Leads, TopOf, Refers;
    var i := Find(x.bs, k + 1, l).value;
    RunnableIsReady(x);
    InlinedTop(x, k, i);
    assert GoodTail(x, i, tail);
    tail' := FindInBlock(x, i, tail, j);
  }

  lemma {:induction false} FindInProgram(x: Job, n: nat, j: nat) returns (tail: Lines)
    requires Runnable(x) && WellFormedJob(x) && DistinctLabels(x.bs) && n <= |x.bs| && j < |x.bs| && j in x.lifted
    requires LabelC(x.bs[j].label_) in ProgramLines(x, n)
    ensures StartsBlock(x, j, ProgramLines(x, n), tail)
    decreases |x.bs| - n
  {
    assert n < |x.bs|;
    hide WellFormedJob, StartsBlock, BlockLines, Inlined, InText, Runnable;
    var more := ProgramLines(x, n + 1);
    if n in x.lifted && !Inlined(x, x.bs[n].label_) && LabelC(x.bs[j].label_) in BlockLines(x, n) {
      TopInText(x, n);
      tail := FindInBlock(x, n, more, j);
    } else {
      tail := FindInProgram(x, n + 1, j);
      var here := if n in x.lifted && !Inlined(x, x.bs[n].label_) then BlockLines(x, n) else [];
      StartsBehind(x, j, here, more, tail);
    }
  }

  lemma {:induction false} TopInText(x: Job, n: nat)
    requires Runnable(x) && WellFormedJob(x) && n < |x.bs| && n in x.lifted && !Inlined(x, x.bs[n].label_)
    ensures InText(x, n, ProgramLines(x, n + 1))
  {
    ProgramIsGoodTail(x, n);
    hide WellFormedJob, GoodTail, ProgramLines, Inlined;
  }

  // ---------- Every lifted block is in the text ----------

  predicate AllIn(a: Lines, b: Lines) {
    forall l | l in a :: l in b
  }

  lemma {:induction false} ArmInHead(x: Job, k: nat, ps: seq<PCode>, l: Label)
    requires WellFormedJob(x) && k in x.lifted && TargetsFrom(x, k, ps) && ps != []
    requires ps[0].PIf? && (l == ps[0].t || l == ps[0].f)
    ensures Find(x.bs, k + 1, l).Some? && Find(x.bs, k + 1, l).value in x.lifted
    ensures AllIn(ArmLines(x, k, l), HeadLines(x, k, ps))
  {
    assert ps[0] in ps;
    hide WellFormedJob, ArmLines;
    var p := ps[0];
    var iff, armT, armF := [IfC(p.l, p.op, p.r)], ArmLines(x, k, p.t), ArmLines(x, k, p.f);
    assert HeadLines(x, k, ps) == iff + armT + ([ElseC] + armF + [EndC]);
  }

  /** A branch's arms are in the lines of its block. */
  lemma {:induction false} ArmInCode(x: Job, k: nat, c: Code, i: Inst, l: Label)
    requires WellFormedJob(x) && k in x.lifted && AllKnown(x.defs, c)
    requires i in c && i.Branch? && l in i.Targets() && forall i' | i' in c :: i' in x.bs[k].insts
    ensures Find(x.bs, k + 1, l).Some? && Find(x.bs, k + 1, l).value in x.lifted
    ensures TargetsFrom(x, k, LiftInsts(x.defs, c)) && AllIn(ArmLines(x, k, l), CodeLines(x, k, LiftInsts(x.defs, c)))
  {
    LiftedTargets(x, k, c);
    assert k < |x.bs| && c[0] in c && AllKnown(x.defs, c[1..]);
    var ps, ps' := LiftInsts(x.defs, c), LiftInsts(x.defs, c[1..]);
    LiftedTargets(x, k, c[1..]);
    if c[0] == i {
      assert ps == [LiftInst(x.defs, i)] + ps';
      hide LiftInsts, WellFormedJob, ArmLines;
      ArmInHead(x, k, ps, l);
      CodeSplit(x, k, ps, []);
      hide CodeLines, HeadLines, TargetsFrom;
      assert CodeLines(x, k, ps) + [] == CodeLines(x, k, ps);
    } else {
      ArmInCode(x, k, c[1..], i, l);
      if Lifts(c[0]) {
        assert ps == [LiftInst(x.defs, c[0])] + ps';
        hide LiftInsts, WellFormedJob, ArmLines;
        CodeSplit(x, k, ps, []);
        hide CodeLines, HeadLines, TargetsFrom;
        assert ps[1..] == ps' && CodeLines(x, k, ps) + [] == CodeLines(x, k, ps);
      } else {
        assert ps == [] + ps' == ps';
      }
    }
  }

  lemma {:induction false} TopInProgram(x: Job, n: nat, k: nat)
    requires WellFormedJob(x) && n <= k < |x.bs| && k in x.lifted && !Inlined(x, x.bs[k].label_)
    ensures AllIn(BlockLines(x, k), ProgramLines(x, n))
    decreases k - n
  {
    hide WellFormedJob, BlockLines, Inlined;
    if n < k {
      TopInProgram(x, n + 1, k);
    }
  }

  /** No block is lost: the lines of each lifted block are in the text. */
  lemma {:induction false} BlockInProgram(x: Job, k: nat)
    requires Ready(x) && NoJumpsIn(x) && k < |x.bs| && k in x.lifted
    ensures AllIn(BlockLines(x, k), ProgramLines(x, 0))
    decreases k
  {
    if Inlined(x, x.bs[k].label_) {
      var l := x.bs[k].label_;
      var r, i := SomeReference(x, 0, l);
      assert i.Branch? by { assert !i.Jump?; }
      assert Find(x.bs, r + 1, l).Some?;
      assert Find(x.bs, r + 1, l).value == k;
      hide Refs, ProgramLines, BlockCode, CodeLines, TargetsFrom, NoJumpsIn;
      ArmInCode(x, r, x.bs[r].insts, i, l);
      BlockInProgram(x, r);
      assert BlockCode(x, r) == LiftInsts(x.defs, x.bs[r].insts) by { BlockCodeIs(x, r); }
      assert ArmLines(x, r, l) == BlockLines(x, k);
    } else {
      TopInProgram(x, 0, k);
    }
  }

  // ---------- The theorem ----------

  /** Started behind the label of any lifted block that has one, the text does what its reading
      says. */
  lemma {:induction false} TextReadsFrom(m: Machine, x: Job, j: nat, loc: Env, regs: Env)
    requires Runnable(x) && Ready(x) && j < |x.bs| && j in x.lifted
    requires x.bs[j].label_ in x.iface || Refs(x, 0, x.bs[j].label_) > 1
    requires ReadText(m, x, j, loc, regs) != CStuck
    ensures LabelC(x.bs[j].label_) in ProgramLines(x, 0)
    ensures RunC(m, AfterLabel(ProgramLines(x, 0), x.bs[j].label_), loc, regs) == ReadText(m, x, j, loc, regs)
  {
    var l := LabelC(x.bs[j].label_);
    assert NoJumpsIn(x);
    hide Runnable, Refs, CodeLines, RunC, ProgramLines, BlockCode, ReadText;
    BlockInProgram(x, j);
    LiftedTargets(x, j, x.bs[j].insts);
    assert l in BlockLines(x, j);
    var tail := FindInProgram(x, 0, j);
    BlockReads(m, x, j, tail, loc, regs);
  }

  /** And where what is performed is written as it is meant, it makes the decision and leaves the
      arguments that the blocks make and leave. */
  lemma {:induction false} LiftedFrom(m: Machine, x: Job, j: nat, env: Env)
    requires m.jumps && Runnable(x) && Ready(x) && j < |x.bs| && j in x.lifted && TextRight(m, x, j, env)
    requires x.bs[j].label_ in x.iface || Refs(x, 0, x.bs[j].label_) > 1
    requires Decided(RunFrom(m, x.bs, j, env))
    ensures LabelC(x.bs[j].label_) in ProgramLines(x, 0)
    ensures RunC(m, AfterLabel(ProgramLines(x, 0), x.bs[j].label_), env, env) == InC(RunFrom(m, x.bs, j, env))
  {
    hide *;
    RightText(m, x, j, env);
    RulesIsNotStuck(RunFrom(m, x.bs, j, env));
    TextReadsFrom(m, x, j, env, env);
  }

  lemma {:induction false} RulesIsNotStuck(o: Outcome)
    requires Decided(o)
    ensures InC(o) != CStuck
  {
  }
}
