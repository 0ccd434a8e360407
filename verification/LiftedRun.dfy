/** What the lifted text does, exactly, and when that is what the blocks do. */
module LiftedRun {
  import opened Syntax
  import opened Ir
  import opened Cfg
  import opened Lifter
  import opened LifterProof
  import opened Layout

  /** Branches and returns are last. */
  predicate EndsLast(c: Code) {
    forall k | 0 <= k < |c| - 1 :: !c[k].Ends()
  }

  predicate PlainCode(c: Code) {
    forall i | i in c :: !i.Jump? && (i.Return? ==> i.val.Decision?)
  }

  /** What lifting assumes of the code of a block. */
  predicate Liftable(defs: Defs, c: Code) {
    EndsLast(c) && NoMarks(c) && DefsMatch(defs, c) && PlainCode(c)
  }

  predicate Runnable(x: Job) {
    Ready(x) && MarkFree(x.bs) && forall k | k in x.lifted :: Liftable(x.defs, x.bs[k].insts)
  }

  lemma {:induction false} LiftableTail(defs: Defs, c: Code)
    requires Liftable(defs, c) && c != []
    ensures Liftable(defs, c[1..])
  {
  }

  // ---------- The reading of the text ----------

  /** How the text of some code ends: it runs out, goes to a label, or decides. */
  datatype TextExit = Out(loc: Env, regs: Env) | To(lbl: Label, loc: Env, regs: Env) | Ends(o: COutcome)

  /** An assignment changes the variable, and then the argument: memory is copied back, and a
      register gets the value of the expression evaluated once more. */
  function ReadInsts(m: Machine, x: Job, c: Code, loc: Env, tmp: Temps, regs: Env): TextExit
    requires Grounded(x.defs) && AllKnown(x.defs, c)
  {
    if c == [] then Out(loc, regs)
    else
      var i, rest := c[0], c[1..];
      assert i in c && AllKnown(x.defs, rest);
      match i
      case Branch(op, a, b, t, f) =>
        var va, vb := Val(a, loc, tmp), Val(b, loc, tmp);
        if va.Some? && vb.Some? then To(if Compare(op, va.value, vb.value) then t else f, loc, regs) else Ends(CStuck)
      case Store(src, dst) =>
        var v := Val(src, loc, tmp);
        if v.Some? then
          var back := if dst in x.copied then v.value else Eval(m, LiftExpr(x.defs, src), loc[dst := v.value]);
          ReadInsts(m, x, rest, loc[dst := v.value], map[], regs[dst := back])
        else Ends(CStuck)
      case Return(val) => if val.Decision? then Ends(Done(val.perm, regs)) else Ends(CStuck)
      case Jump(_) => Ends(CStuck)
      case Mark(_) => Ends(CStuck)
      case _ =>
        var v := Result(m, i, loc, tmp);
        if v.Some? then ReadInsts(m, x, rest, loc, tmp[i.id := v.value], regs) else Ends(CStuck)
  }

  /** The text from block `k` on, block by block: what a block runs on into is what the layout
      of the text puts there. */
  function ReadText(m: Machine, x: Job, k: nat, loc: Env, regs: Env): COutcome
    requires Ready(x) && (k == |x.bs| || (k < |x.bs| && k in x.lifted))
    decreases if k < |x.bs| then |x.bs| - TopOf(x, k) else 0, |x.bs| - k
  {
    if k == |x.bs| then FellOut
    else
      match ReadInsts(m, x, x.bs[k].insts, loc, map[], regs)
      case Out(loc', regs') => ReadText(m, x, TextNext(x, k), loc', regs')
      case To(l, loc', regs') =>
        var j := Find(x.bs, k + 1, l);
        if j.Some? && j.value in x.lifted && Refers(x, k, j.value) then
          (if Inlined(x, x.bs[j.value].label_) then InlinedTop(x, k, j.value); ReadText(m, x, j.value, loc', regs')
           else ReadText(m, x, j.value, loc', regs'))
        else CStuck
      case Ends(o) => o
  }

  /** The same from the end of some code of block `k`. */
  function Onward(m: Machine, x: Job, k: nat, e: TextExit): COutcome
    requires Ready(x) && k < |x.bs| && k in x.lifted
  {
    match e
    case Out(loc, regs) => ReadText(m, x, TextNext(x, k), loc, regs)
    case To(l, loc, regs) =>
      var j := Find(x.bs, k + 1, l);
      if j.Some? && j.value in x.lifted && Refers(x, k, j.value) then ReadText(m, x, j.value, loc, regs) else CStuck
    case Ends(o) => o
  }

  // ---------- The text does what its reading says ----------

  /** From `tail` control leaves the block at the top `t` behind. */
  ghost predicate Leads(x: Job, t: nat, tail: Lines)
    requires WellFormedJob(x) && t < |x.bs|
  {
    forall m, loc, regs :: RunC(m, tail, loc, regs) == RunC(m, ProgramLines(x, t + 1), loc, regs)
  }

  lemma {:induction false} LeadsEnd(x: Job, t: nat, tail: Lines)
    requires WellFormedJob(x) && t < |x.bs| && Leads(x, t, tail)
    ensures Leads(x, t, [EndC] + tail)
  {
    hide WellFormedJob, ProgramLines, RunC;
    forall m, loc, regs
      ensures RunC(m, [EndC] + tail, loc, regs) == RunC(m, ProgramLines(x, t + 1), loc, regs)
    {
      EndLine(m, tail, loc, regs);
    }
  }

  lemma {:induction false} EndLine(m: Machine, rest: Lines, loc: Env, regs: Env)
    ensures RunC(m, [EndC] + rest, loc, regs) == RunC(m, rest, loc, regs)
    ensures RunC(m, [ElseC] + rest, loc, regs) == RunC(m, SkipArm(rest, 0), loc, regs)
  {
    assert ([EndC] + rest)[1..] == rest && ([ElseC] + rest)[1..] == rest;
  }

  /** Behind the true arm the text goes on behind the whole `if`. */
  lemma {:induction false} LeadsElse(x: Job, k: nat, f: Label, t: nat, tail: Lines)
    requires WellFormedJob(x) && k in x.lifted && t < |x.bs| && Leads(x, t, tail)
    requires Find(x.bs, k + 1, f).Some? && Find(x.bs, k + 1, f).value in x.lifted
    ensures Leads(x, t, [ElseC] + ArmLines(x, k, f) + [EndC] + tail)
  {
    hide WellFormedJob, ProgramLines, ArmLines, RunC;
    var armF, end := ArmLines(x, k, f), [EndC] + tail;
    assert [ElseC] + armF + [EndC] + tail == [ElseC] + (armF + end);
    SkipArmLines(x, k, f, end, 0);
    SkipLine(EndC, tail, 0);
    forall m, loc, regs
      ensures RunC(m, [ElseC] + (armF + end), loc, regs) == RunC(m, ProgramLines(x, t + 1), loc, regs)
    {
      EndLine(m, armF + end, loc, regs);
    }
  }

  lemma {:induction false} RunnableIsReady(x: Job)
    requires Runnable(x)
    ensures Ready(x) && WellFormedJob(x) && DistinctLabels(x.bs)
    ensures forall k | k in x.lifted :: k < |x.bs|
  {
  }

  /** Around block `k` in the text. */
  ghost predicate InText(x: Job, k: nat, tail: Lines) {
    Runnable(x) && k in x.lifted && k < |x.bs| && GoodTail(x, k, tail) && Leads(x, TopOf(x, k), tail)
  }

  lemma {:induction false} BlockReads(m: Machine, x: Job, k: nat, tail: Lines, loc: Env, regs: Env)
    requires InText(x, k, tail) && ReadText(m, x, k, loc, regs) != CStuck
    ensures TargetsFrom(x, k, BlockCode(x, k))
    ensures RunC(m, CodeLines(x, k, BlockCode(x, k)) + tail, loc, regs) == ReadText(m, x, k, loc, regs)
    decreases |x.bs| - TopOf(x, k), |x.bs| - k, 2, 0, 0
  {
    var c := x.bs[k].insts;
    LiftedTargets(x, k, c);
    hide TopOf, TextNext, ReadInsts, InText;
    CodeReads(m, x, k, c, tail, loc, map[], regs);
  }

  lemma {:induction false} CodeReads(m: Machine, x: Job, k: nat, c: Code, tail: Lines, loc: Env, tmp: Temps, regs: Env)
    requires InText(x, k, tail) && (forall i | i in c :: i in x.bs[k].insts)
    requires AllKnown(x.defs, c) && Liftable(x.defs, c) && TreesAgree(m, x.defs, loc, tmp)
    requires Onward(m, x, k, ReadInsts(m, x, c, loc, tmp, regs)) != CStuck
    ensures TargetsFrom(x, k, LiftInsts(x.defs, c))
    ensures RunC(m, CodeLines(x, k, LiftInsts(x.defs, c)) + tail, loc, regs) ==
      Onward(m, x, k, ReadInsts(m, x, c, loc, tmp, regs))
    decreases |x.bs| - TopOf(x, k), |x.bs| - k, 1, |c|, 1
  {
    LiftedTargets(x, k, c);
    if c == [] {
      hide GoodTail, TopOf, Runnable, RunC;
      assert [] + tail == tail;
      OutReads(m, x, k, tail, loc, regs);
    } else {
      var i := c[0];
      assert i in c && !i.Mark? && !i.Jump?;
      assert i.Ends() ==> c == [i];
      hide ReadInsts, LiftInsts, Liftable, RunC, CodeLines, TreesAgree, GoodTail, Runnable, Onward, Leads, TopOf,
        InText;
      if i.Ends() {
        LastReads(m, x, k, i, tail, loc, tmp, regs);
      } else if i.Store? {
        StoreReads(m, x, k, c, tail, loc, tmp, regs);
      } else {
        ComputeReads(m, x, k, c, tail, loc, tmp, regs);
      }
    }
  }

  /** Behind a block that runs out, the text goes on with the next block at the top. */
  lemma {:induction false} OutReads(m: Machine, x: Job, k: nat, tail: Lines, loc: Env, regs: Env)
    requires InText(x, k, tail) && ReadText(m, x, TextNext(x, k), loc, regs) != CStuck
    ensures RunC(m, tail, loc, regs) == ReadText(m, x, TextNext(x, k), loc, regs)
    decreases |x.bs| - TopOf(x, k), |x.bs| - k, 1, 0, 0
  {
    hide *;
    JobIsWellFormed(x, k, tail);
    NextIs(x, k);
    LeadsOn(m, x, TopOf(x, k), tail, loc, regs);
    ProgramReads(m, x, TopOf(x, k) + 1, loc, regs);
  }

  lemma {:induction false} NextIs(x: Job, k: nat)
    requires Ready(x) && k in x.lifted && k < |x.bs|
    ensures TextNext(x, k) == NextTop(x, TopOf(x, k) + 1)
  {
    hide Ready, TopOf;
  }

  lemma {:induction false} LeadsOn(m: Machine, x: Job, t: nat, tail: Lines, loc: Env, regs: Env)
    requires WellFormedJob(x) && t < |x.bs| && Leads(x, t, tail)
    ensures RunC(m, tail, loc, regs) == RunC(m, ProgramLines(x, t + 1), loc, regs)
  {
    hide RunC, ProgramLines, WellFormedJob;
  }

  lemma {:induction false} ProgramReads(m: Machine, x: Job, n: nat, loc: Env, regs: Env)
    requires Runnable(x) && n <= |x.bs| && ReadText(m, x, NextTop(x, n), loc, regs) != CStuck
    ensures RunC(m, ProgramLines(x, n), loc, regs) == ReadText(m, x, NextTop(x, n), loc, regs)
    decreases |x.bs| - n, |x.bs| + 1, 0, 0, 0
  {
    hide ReadText, Refs, BlockCode, CodeLines, BlockLabel;
    RunnableIsReady(x);
    if n < |x.bs| {
      if IsTop(x, n) {
        hide ProgramLines, RunC, Ready, WellFormedJob, Runnable;
        TopLines(x, n);
        ProgramIsGoodTail(x, n);
        var tail := ProgramLines(x, n + 1);
        assert TopOf(x, n) == n && Leads(x, n, tail);
        BlockReads(m, x, n, tail, loc, regs);
        LabelOnly(x, n);
        LabelLines(m, BlockLabel(x, x.bs[n].label_), CodeLines(x, n, BlockCode(x, n)) + tail, loc, regs);
      } else {
        hide RunC, Ready, WellFormedJob, Runnable, Inlined, BlockLines;
        assert [] + ProgramLines(x, n + 1) == ProgramLines(x, n + 1);
        ProgramReads(m, x, n + 1, loc, regs);
      }
    } else {
      TextEnds(m, x, loc, regs);
    }
  }

  lemma {:induction false} TextEnds(m: Machine, x: Job, loc: Env, regs: Env)
    requires Ready(x)
    ensures ReadText(m, x, |x.bs|, loc, regs) == FellOut
  {
  }

  lemma {:induction false} LabelOnly(x: Job, k: nat)
    requires k < |x.bs|
    ensures forall l | l in BlockLabel(x, x.bs[k].label_) :: l.LabelC?
  {
  }

  lemma {:induction false} ComputeReads(m: Machine, x: Job, k: nat, c: Code, tail: Lines, loc: Env, tmp: Temps,
                                        regs: Env)
    requires InText(x, k, tail) && (forall i | i in c :: i in x.bs[k].insts) && c != [] && c[0].Computes()
    requires AllKnown(x.defs, c) && Liftable(x.defs, c) && TreesAgree(m, x.defs, loc, tmp)
    requires Onward(m, x, k, ReadInsts(m, x, c, loc, tmp, regs)) != CStuck
    ensures TargetsFrom(x, k, LiftInsts(x.defs, c))
    ensures RunC(m, CodeLines(x, k, LiftInsts(x.defs, c)) + tail, loc, regs) ==
      Onward(m, x, k, ReadInsts(m, x, c, loc, tmp, regs))
    decreases |x.bs| - TopOf(x, k), |x.bs| - k, 1, |c|, 0
  {
    hide *;
    JobIsWellFormed(x, k, tail);
    OnwardEnds(m, x, k, ReadInsts(m, x, c, loc, tmp, regs));
    ComputeFacts(m, x, k, c, loc, tmp, regs);
    var v := Result(m, c[0], loc, tmp).value;
    CodeReads(m, x, k, c[1..], tail, loc, tmp[c[0].id := v], regs);
  }

  lemma {:induction false} OnwardEnds(m: Machine, x: Job, k: nat, e: TextExit)
    requires Ready(x) && k < |x.bs| && k in x.lifted
    ensures Onward(m, x, k, e) != CStuck ==> e != Ends(CStuck)
  {
    hide ReadText, TextNext, Refers;
  }

  lemma {:induction false} JobIsWellFormed(x: Job, k: nat, tail: Lines)
    requires InText(x, k, tail)
    ensures Ready(x) && WellFormedJob(x) && Grounded(x.defs) && k < |x.bs| && k in x.lifted
    ensures AllKnown(x.defs, x.bs[k].insts)
    ensures MarkFree(x.bs) && GoodTail(x, k, tail) && Leads(x, TopOf(x, k), tail) && Runnable(x)
  {
  }

  /** What a computation in front of lifted code does: nothing in the text. */
  lemma {:induction false} ComputeFacts(m: Machine, x: Job, k: nat, c: Code, loc: Env, tmp: Temps, regs: Env)
    requires Ready(x) && k in x.lifted && k < |x.bs| && (forall i | i in c :: i in x.bs[k].insts) && c != []
    requires c[0].Computes()
    requires AllKnown(x.defs, c) && Liftable(x.defs, c) && TreesAgree(m, x.defs, loc, tmp)
    requires ReadInsts(m, x, c, loc, tmp, regs) != Ends(CStuck)
    ensures TargetsFrom(x, k, LiftInsts(x.defs, c)) && AllKnown(x.defs, c[1..]) && Liftable(x.defs, c[1..])
    ensures (forall i | i in c[1..] :: i in x.bs[k].insts) && LiftInsts(x.defs, c) == LiftInsts(x.defs, c[1..])
    ensures (c[0].Arith1? || c[0].Arith2? || c[0].Call?) && Result(m, c[0], loc, tmp).Some?
    ensures var tmp' := tmp[c[0].id := Result(m, c[0], loc, tmp).value];
      TreesAgree(m, x.defs, loc, tmp') && ReadInsts(m, x, c, loc, tmp, regs) == ReadInsts(m, x, c[1..], loc, tmp', regs)
  {
    var i := c[0];
    assert i in c;
    LiftedTargets(x, k, c);
    LiftableTail(x.defs, c);
    assert i.id in x.defs && x.defs[i.id] == i;
    assert [] + LiftInsts(x.defs, c[1..]) == LiftInsts(x.defs, c[1..]);
    ComputeAgrees(m, x.defs, i, loc, tmp);
    hide TargetsFrom, Ready, Liftable, TreesAgree;
  }

  lemma {:induction false} StoreReads(m: Machine, x: Job, k: nat, c: Code, tail: Lines, loc: Env, tmp: Temps, regs: Env)
    requires InText(x, k, tail) && (forall i | i in c :: i in x.bs[k].insts) && c != [] && c[0].Store?
    requires AllKnown(x.defs, c) && Liftable(x.defs, c) && TreesAgree(m, x.defs, loc, tmp)
    requires Onward(m, x, k, ReadInsts(m, x, c, loc, tmp, regs)) != CStuck
    ensures TargetsFrom(x, k, LiftInsts(x.defs, c))
    ensures RunC(m, CodeLines(x, k, LiftInsts(x.defs, c)) + tail, loc, regs) ==
      Onward(m, x, k, ReadInsts(m, x, c, loc, tmp, regs))
    decreases |x.bs| - TopOf(x, k), |x.bs| - k, 1, |c|, 0
  {
    hide *;
    JobIsWellFormed(x, k, tail);
    var i := c[0];
    OnwardEnds(m, x, k, ReadInsts(m, x, c, loc, tmp, regs));
    StoreFacts(m, x, k, c, loc, tmp, regs);
    var ps, e := LiftInsts(x.defs, c), LiftExpr(x.defs, i.src);
    var v := Eval(m, e, loc);
    var back := if i.dst in x.copied then v else Eval(m, e, loc[i.dst := v]);
    CodeReads(m, x, k, c[1..], tail, loc[i.dst := v], map[], regs[i.dst := back]);
    CodeSplit(x, k, ps, tail);
    assert ps[1..] == LiftInsts(x.defs, c[1..]);
    AssignLines(x, k, ps);
    WriteBackIsRightIff(m, x, i.dst, e, CodeLines(x, k, ps[1..]) + tail, loc, regs);
  }

  /** Code that runs out, of a block that neither branches nor returns, goes on at whatever line
      stands behind it in the text, with what it assigned. */
  lemma {:induction false} RunsOut(m: Machine, x: Job, k: nat, c: Code, tail: Lines, loc: Env, tmp: Temps, regs: Env)
    requires Ready(x) && k in x.lifted && k < |x.bs| && (forall i | i in c :: i in x.bs[k].insts)
    requires AllKnown(x.defs, c) && Liftable(x.defs, c) && TreesAgree(m, x.defs, loc, tmp)
    requires ReadInsts(m, x, c, loc, tmp, regs).Out?
    ensures TargetsFrom(x, k, LiftInsts(x.defs, c))
    ensures var e := ReadInsts(m, x, c, loc, tmp, regs);
      RunC(m, CodeLines(x, k, LiftInsts(x.defs, c)) + tail, loc, regs) == RunC(m, tail, e.loc, e.regs)
    decreases |c|
  {
    hide RunC, LiftExpr, Eval, TreesAgree, Liftable, Ready, TargetsFrom;
    assert WellFormedJob(x) && Grounded(x.defs) by { ReadyParts(x); }
    LiftedTargets(x, k, c);
    if c == [] {
      assert CodeLines(x, k, []) + tail == tail;
    } else if c[0].Computes() {
      ComputeFacts(m, x, k, c, loc, tmp, regs);
      hide ReadInsts, LiftInsts, CodeLines, AllKnown;
      RunsOut(m, x, k, c[1..], tail, loc, tmp[c[0].id := Result(m, c[0], loc, tmp).value], regs);
    } else {
      StoreFacts(m, x, k, c, loc, tmp, regs);
      hide ReadInsts, LiftInsts, CodeLines, AllKnown;
      var ps, e := LiftInsts(x.defs, c), LiftExpr(x.defs, c[0].src);
      var v := Eval(m, e, loc);
      var back := if c[0].dst in x.copied then v else Eval(m, e, loc[c[0].dst := v]);
      RunsOut(m, x, k, c[1..], tail, loc[c[0].dst := v], map[], regs[c[0].dst := back]);
      CodeSplit(x, k, ps, tail);
      assert ps[1..] == LiftInsts(x.defs, c[1..]);
      AssignLines(x, k, ps);
      WriteBackIsRightIff(m, x, c[0].dst, e, CodeLines(x, k, ps[1..]) + tail, loc, regs);
    }
  }

  lemma {:induction false} ReadyParts(x: Job)
    requires Ready(x)
    ensures WellFormedJob(x) && Grounded(x.defs)
  {
  }

  /** What a store in front of lifted code does, and what it becomes. */
  lemma {:induction false} StoreFacts(m: Machine, x: Job, k: nat, c: Code, loc: Env, tmp: Temps, regs: Env)
    requires Ready(x) && k in x.lifted && k < |x.bs| && (forall i | i in c :: i in x.bs[k].insts) && c != []
    requires c[0].Store?
    requires AllKnown(x.defs, c) && Liftable(x.defs, c) && TreesAgree(m, x.defs, loc, tmp)
    requires ReadInsts(m, x, c, loc, tmp, regs) != Ends(CStuck)
    ensures Known(x.defs, c[0].src) && AllKnown(x.defs, c[1..]) && Liftable(x.defs, c[1..])
    ensures TargetsFrom(x, k, LiftInsts(x.defs, c)) && TargetsFrom(x, k, LiftInsts(x.defs, c[1..]))
    ensures forall i | i in c[1..] :: i in x.bs[k].insts
    ensures var e := LiftExpr(x.defs, c[0].src);
      var v := Eval(m, e, loc);
      var back := if c[0].dst in x.copied then v else Eval(m, e, loc[c[0].dst := v]);
      && ReadInsts(m, x, c, loc, tmp, regs) ==
         ReadInsts(m, x, c[1..], loc[c[0].dst := v], map[], regs[c[0].dst := back])
      && LiftInsts(x.defs, c) == [PAssign(c[0].dst, e)] + LiftInsts(x.defs, c[1..])
      && TreesAgree(m, x.defs, loc[c[0].dst := v], map[])
  {
    var i := c[0];
    assert i in c;
    LiftedTargets(x, k, c);
    LiftableTail(x.defs, c);
    LiftedTargets(x, k, c[1..]);
    assert Val(i.src, loc, tmp).Some?;
    OperandAgrees(m, x.defs, i.src, loc, tmp);
    hide Ready, LiftExpr, Eval, TargetsFrom, Liftable;
  }

  lemma {:induction false} AssignLines(x: Job, k: nat, ps: seq<PCode>)
    requires WellFormedJob(x) && k in x.lifted && TargetsFrom(x, k, ps) && ps != [] && ps[0].PAssign?
    ensures HeadLines(x, k, ps) == [AssignC(ps[0].dst, ps[0].expr), WriteBack(x, ps[0].dst, ps[0].expr)]
  {
    hide WellFormedJob, WriteBack;
  }

  lemma {:induction false} LastReads(m: Machine, x: Job, k: nat, i: Inst, tail: Lines, loc: Env, tmp: Temps, regs: Env)
    requires InText(x, k, tail) && i.Ends() && !i.Jump? && i in x.bs[k].insts
    requires AllKnown(x.defs, [i]) && Liftable(x.defs, [i]) && TreesAgree(m, x.defs, loc, tmp)
    requires Onward(m, x, k, ReadInsts(m, x, [i], loc, tmp, regs)) != CStuck
    ensures TargetsFrom(x, k, LiftInsts(x.defs, [i]))
    ensures RunC(m, CodeLines(x, k, LiftInsts(x.defs, [i])) + tail, loc, regs) ==
      Onward(m, x, k, ReadInsts(m, x, [i], loc, tmp, regs))
    decreases |x.bs| - TopOf(x, k), |x.bs| - k, 1, 0, 1
  {
    hide *;
    JobIsWellFormed(x, k, tail);
    LastFacts(m, x, k, i, loc, tmp, regs);
    var p := LiftInst(x.defs, i);
    if i.Branch? {
      IfElseReads(m, x, k, i, p.l, p.r, tail, loc, regs);
    } else {
      DecisionLine(m, x, k, i, p, tail, loc, regs);
    }
    OnlyHead(x, k, p, tail);
  }

  /** The block that a branch of block `k` goes to. */
  predicate GoesOn(x: Job, k: nat, l: Label)
    requires k < |x.bs|
  {
    Find(x.bs, k + 1, l).Some? && Find(x.bs, k + 1, l).value in x.lifted && Refers(x, k, Find(x.bs, k + 1, l).value)
  }

  /** The last instruction of a block and what it becomes. */
  lemma {:induction false} LastFacts(m: Machine, x: Job, k: nat, i: Inst, loc: Env, tmp: Temps, regs: Env)
    requires Ready(x) && k in x.lifted && k < |x.bs| && i in x.bs[k].insts && i.Ends() && !i.Jump?
    requires AllKnown(x.defs, [i]) && Liftable(x.defs, [i]) && TreesAgree(m, x.defs, loc, tmp)
    requires Onward(m, x, k, ReadInsts(m, x, [i], loc, tmp, regs)) != CStuck
    ensures OperandsKnown(x.defs, i) && Lifts(i) && LiftInsts(x.defs, [i]) == [LiftInst(x.defs, i)]
    ensures TargetsFrom(x, k, [LiftInst(x.defs, i)])
    ensures (i.Branch? || i.Return?) && (i.Return? ==> i.val.Decision?)
    ensures i.Return? ==> Onward(m, x, k, ReadInsts(m, x, [i], loc, tmp, regs)) == Done(i.val.perm, regs)
    ensures i.Branch? ==>
      var p := LiftInst(x.defs, i);
      var to := if Compare(i.op, Eval(m, p.l, loc), Eval(m, p.r, loc)) then i.t else i.f;
      && p == PIf(p.l, i.op, p.r, i.t, i.f) && GoesOn(x, k, to)
      && Onward(m, x, k, ReadInsts(m, x, [i], loc, tmp, regs)) == ReadText(m, x, Find(x.bs, k + 1, to).value, loc, regs)
  {
    assert i in [i];
    LiftedTargets(x, k, [i]);
    assert [i][1..] == [];
    if i.Branch? {
      OperandAgrees(m, x.defs, i.a, loc, tmp);
      OperandAgrees(m, x.defs, i.b, loc, tmp);
    }
    hide Ready, LiftExpr, Eval, TargetsFrom, ReadText, Compare, TreesAgree, Liftable, TextNext, Find, Refers;
  }

  lemma {:induction false} OnlyHead(x: Job, k: nat, p: PCode, tail: Lines)
    requires WellFormedJob(x) && k in x.lifted && TargetsFrom(x, k, [p])
    ensures CodeLines(x, k, [p]) + tail == HeadLines(x, k, [p]) + tail
  {
    hide WellFormedJob, ArmLines;
    CodeSplit(x, k, [p], tail);
    assert [p][1..] == [] && [] + tail == tail;
  }

  lemma {:induction false} DecisionLine(m: Machine, x: Job, k: nat, i: Inst, p: PCode, tail: Lines, loc: Env, regs: Env)
    requires WellFormedJob(x) && k in x.lifted && OperandsKnown(x.defs, i) && TargetsFrom(x, k, [p])
    requires i.Return? && i.val.Decision? && p == LiftInst(x.defs, i)
    ensures RunC(m, HeadLines(x, k, [p]) + tail, loc, regs) == Done(i.val.perm, regs)
  {
    hide WellFormedJob, TargetsFrom;
    assert HeadLines(x, k, [p]) + tail == [if i.val.perm.Allow? then AllowC else DenyC] + tail;
  }

  /** The lines of an `if`, and where they lead: the true arm stands in front of `els`, the false
      one in front of the closing brace. */
  lemma {:induction false} IfElseLines(m: Machine, x: Job, k: nat, i: Inst, l: Expr, r: Expr, tail: Lines, loc: Env,
                                       regs: Env)
    requires InText(x, k, tail) && i.Branch? && i in x.bs[k].insts && WellFormedJob(x)
    requires TargetsFrom(x, k, [PIf(l, i.op, r, i.t, i.f)])
    ensures Find(x.bs, k + 1, i.t).Some? && Find(x.bs, k + 1, i.t).value in x.lifted
    ensures Find(x.bs, k + 1, i.f).Some? && Find(x.bs, k + 1, i.f).value in x.lifted
    ensures var els := [ElseC] + ArmLines(x, k, i.f) + [EndC];
      RunC(m, HeadLines(x, k, [PIf(l, i.op, r, i.t, i.f)]) + tail, loc, regs) ==
      if Compare(i.op, Eval(m, l, loc), Eval(m, r, loc)) then RunC(m, ArmLines(x, k, i.t) + (els + tail), loc, regs)
      else RunC(m, ArmLines(x, k, i.f) + ([EndC] + tail), loc, regs)
  {
    hide *;
    JobIsWellFormed(x, k, tail);
    IfHeadLines(x, k, i, l, r);
    var end, armT, armF := [EndC] + tail, ArmLines(x, k, i.t), ArmLines(x, k, i.f);
    var els := [ElseC] + armF + [EndC];
    assert [IfC(l, i.op, r)] + armT + [ElseC] + armF + [EndC] + tail == [IfC(l, i.op, r)] + (armT + (els + tail));
    IfLine(m, l, i.op, r, armT + (els + tail), loc, regs);
    SkipArmLines(x, k, i.t, els + tail, 0);
    assert els + tail == [ElseC] + (armF + end);
    SkipLine(ElseC, armF + end, 0);
  }

  lemma {:induction false} IfHeadLines(x: Job, k: nat, i: Inst, l: Expr, r: Expr)
    requires WellFormedJob(x) && k in x.lifted && k < |x.bs| && i.Branch?
    requires TargetsFrom(x, k, [PIf(l, i.op, r, i.t, i.f)])
    ensures Find(x.bs, k + 1, i.t).Some? && Find(x.bs, k + 1, i.t).value in x.lifted
    ensures Find(x.bs, k + 1, i.f).Some? && Find(x.bs, k + 1, i.f).value in x.lifted
    ensures HeadLines(x, k, [PIf(l, i.op, r, i.t, i.f)]) ==
      [IfC(l, i.op, r)] + ArmLines(x, k, i.t) + [ElseC] + ArmLines(x, k, i.f) + [EndC]
  {
    hide WellFormedJob, ArmLines;
    var p := PIf(l, i.op, r, i.t, i.f);
    assert p in [p];
  }

  /** The nested `if` of a branch runs the arm that the condition picks. */
  lemma {:induction false} IfElseReads(m: Machine, x: Job, k: nat, i: Inst, l: Expr, r: Expr, tail: Lines, loc: Env,
                                       regs: Env)
    requires InText(x, k, tail) && i.Branch? && i in x.bs[k].insts && WellFormedJob(x)
    requires TargetsFrom(x, k, [PIf(l, i.op, r, i.t, i.f)])
    requires var to := if Compare(i.op, Eval(m, l, loc), Eval(m, r, loc)) then i.t else i.f;
      GoesOn(x, k, to) && ReadText(m, x, Find(x.bs, k + 1, to).value, loc, regs) != CStuck
    ensures var to := if Compare(i.op, Eval(m, l, loc), Eval(m, r, loc)) then i.t else i.f;
      RunC(m, HeadLines(x, k, [PIf(l, i.op, r, i.t, i.f)]) + tail, loc, regs) ==
        ReadText(m, x, Find(x.bs, k + 1, to).value, loc, regs)
    decreases |x.bs| - TopOf(x, k), |x.bs| - k, 1, 0, 0
  {
    hide *;
    JobIsWellFormed(x, k, tail);
    IfElseLines(m, x, k, i, l, r, tail, loc, regs);
    BranchTargets(i);
    if Compare(i.op, Eval(m, l, loc), Eval(m, r, loc)) {
      ElseIsGood(x, k, i.f, tail);
      ArmReads(m, x, k, i, i.t, [ElseC] + ArmLines(x, k, i.f) + [EndC] + tail, loc, regs);
    } else {
      EndIsGood(x, k, tail);
      ArmReads(m, x, k, i, i.f, [EndC] + tail, loc, regs);
    }
  }

  lemma {:induction false} BranchTargets(i: Inst)
    requires i.Branch?
    ensures i.t in i.Targets() && i.f in i.Targets()
  {
  }

  lemma {:induction false} ElseIsGood(x: Job, k: nat, f: Label, tail: Lines)
    requires InText(x, k, tail) && WellFormedJob(x)
    requires Find(x.bs, k + 1, f).Some? && Find(x.bs, k + 1, f).value in x.lifted
    ensures InText(x, k, [ElseC] + ArmLines(x, k, f) + [EndC] + tail)
  {
    hide Runnable, GoodTail, ArmLines, Inlined, WellFormedJob, Leads, TopOf, Ready;
    JobIsWellFormed(x, k, tail);
    var els := [ElseC] + ArmLines(x, k, f) + [EndC];
    ArmLabels(x, k, f);
    assert InlineLabelsOnly(x, els);
    GoodTailBehind(x, k, els, tail);
    LeadsElse(x, k, f, TopOf(x, k), tail);
  }

  lemma {:induction false} EndIsGood(x: Job, k: nat, tail: Lines)
    requires InText(x, k, tail) && WellFormedJob(x)
    ensures InText(x, k, [EndC] + tail)
  {
    hide Runnable, GoodTail, Inlined, WellFormedJob, Leads, TopOf, Ready;
    JobIsWellFormed(x, k, tail);
    GoodTailBehind(x, k, [EndC], tail);
    LeadsEnd(x, TopOf(x, k), tail);
  }

  lemma {:induction false} ArmReads(m: Machine, x: Job, k: nat, i: Inst, l: Label, tail: Lines, loc: Env, regs: Env)
    requires InText(x, k, tail) && i in x.bs[k].insts && l in i.Targets() && WellFormedJob(x)
    requires GoesOn(x, k, l) && ReadText(m, x, Find(x.bs, k + 1, l).value, loc, regs) != CStuck
    ensures RunC(m, ArmLines(x, k, l) + tail, loc, regs) == ReadText(m, x, Find(x.bs, k + 1, l).value, loc, regs)
    decreases |x.bs| - TopOf(x, k), |x.bs| - k, 0, 1, 0
  {
    ReferenceCounts(x, 0, k, i, l);
    hide RunC, BlockCode, CodeLines, ReadText, Refs, InText, WellFormedJob;
    if Inlined(x, l) {
      InlinedArmReads(m, x, k, l, tail, loc, regs);
    } else {
      GotoArmReads(m, x, k, l, tail, loc, regs);
    }
  }

  lemma {:induction false} InlinedArmReads(m: Machine, x: Job, k: nat, l: Label, tail: Lines, loc: Env, regs: Env)
    requires InText(x, k, tail) && Inlined(x, l) && WellFormedJob(x)
    requires GoesOn(x, k, l) && ReadText(m, x, Find(x.bs, k + 1, l).value, loc, regs) != CStuck
    ensures RunC(m, ArmLines(x, k, l) + tail, loc, regs) == ReadText(m, x, Find(x.bs, k + 1, l).value, loc, regs)
    decreases |x.bs| - TopOf(x, k), |x.bs| - k, 0, 0, 0
  {
    hide *;
    JobIsWellFormed(x, k, tail);
    var j := GoesTo(x, k, l);
    InlinedTop(x, k, j);
    InlinedInText(x, k, j, tail);
    BlockReads(m, x, j, tail, loc, regs);
    var code, lab := CodeLines(x, j, BlockCode(x, j)), BlockLabel(x, l);
    LabelOnly(x, j);
    InlinedArm(x, k, l, j);
    assert (lab + code) + tail == lab + (code + tail);
    LabelLines(m, lab, code + tail, loc, regs);
  }

  lemma {:induction false} GoesTo(x: Job, k: nat, l: Label) returns (j: nat)
    requires k < |x.bs| && GoesOn(x, k, l)
    ensures Find(x.bs, k + 1, l) == Some(j) && k < j < |x.bs| && j in x.lifted && x.bs[j].label_ == l && Refers(x, k, j)
  {
    hide Refers;
    j := Find(x.bs, k + 1, l).value;
  }

  lemma {:induction false} InlinedInText(x: Job, k: nat, j: nat, tail: Lines)
    requires InText(x, k, tail) && k < j < |x.bs| && j in x.lifted && Ready(x) && TopOf(x, j) == TopOf(x, k)
    ensures InText(x, j, tail)
  {
    hide TopOf, Leads, Runnable, Ready, Reaches;
    JobIsWellFormed(x, k, tail);
    hide WellFormedJob;
    assert GoodTail(x, j, tail);
  }

  lemma {:induction false} InlinedArm(x: Job, k: nat, l: Label, j: nat)
    requires WellFormedJob(x) && k in x.lifted && Find(x.bs, k + 1, l) == Some(j) && j in x.lifted && Inlined(x, l)
    requires x.bs[j].label_ == l
    requires TargetsFrom(x, j, BlockCode(x, j))
    ensures ArmLines(x, k, l) == BlockLabel(x, l) + CodeLines(x, j, BlockCode(x, j))
  {
    hide WellFormedJob, Inlined, CodeLines, BlockCode, BlockLabel, TargetsFrom;
  }

  lemma {:induction false} GotoArmReads(m: Machine, x: Job, k: nat, l: Label, tail: Lines, loc: Env, regs: Env)
    requires InText(x, k, tail) && Refs(x, 0, l) > 1 && WellFormedJob(x)
    requires GoesOn(x, k, l) && ReadText(m, x, Find(x.bs, k + 1, l).value, loc, regs) != CStuck
    ensures RunC(m, ArmLines(x, k, l) + tail, loc, regs) == ReadText(m, x, Find(x.bs, k + 1, l).value, loc, regs)
    decreases |x.bs| - TopOf(x, k), |x.bs| - k, 0, 0, 0
  {
    hide *;
    JobIsWellFormed(x, k, tail);
    var j := GoesTo(x, k, l);
    GoodTailReaches(x, k, j, tail);
    TopInText(x, j);
    BlockReads(m, x, j, ProgramLines(x, j + 1), loc, regs);
    GotoArm(x, k, l);
    GotoLine(m, l, tail, loc, regs);
  }

  lemma {:induction false} TopInText(x: Job, j: nat)
    requires Runnable(x) && Ready(x) && WellFormedJob(x) && j < |x.bs| && j in x.lifted
    requires Refs(x, 0, x.bs[j].label_) > 1
    ensures TopOf(x, j) == j && InText(x, j, ProgramLines(x, j + 1))
  {
    hide ProgramLines, Runnable, WellFormedJob, Refs, GoodTail;
    assert DistinctLabels(x.bs) by { hide DistinctLabels; }
    ProgramIsGoodTail(x, j);
    hide Ready;
    assert Leads(x, j, ProgramLines(x, j + 1));
  }

  lemma {:induction false} GotoArm(x: Job, k: nat, l: Label)
    requires WellFormedJob(x) && k in x.lifted && Find(x.bs, k + 1, l).Some? && Find(x.bs, k + 1, l).value in x.lifted
    requires Refs(x, 0, l) > 1
    ensures ArmLines(x, k, l) == [GotoC(l)]
  {
    hide WellFormedJob, Refs;
  }

  lemma {:induction false} GoodTailReaches(x: Job, k: nat, j: nat, tail: Lines)
    requires WellFormedJob(x) && GoodTail(x, k, tail) && k < j < |x.bs| && j in x.lifted
    requires Refs(x, 0, x.bs[j].label_) > 1
    ensures TargetsFrom(x, j, BlockCode(x, j)) && LabelC(x.bs[j].label_) in tail
    ensures AfterLabel(tail, x.bs[j].label_) == CodeLines(x, j, BlockCode(x, j)) + ProgramLines(x, j + 1)
  {
    LiftedTargets(x, j, x.bs[j].insts);
    assert Reaches(x, j, tail);
  }

  lemma {:induction false} GotoLine(m: Machine, l: Label, rest: Lines, loc: Env, regs: Env)
    requires LabelC(l) in rest
    ensures RunC(m, [GotoC(l)] + rest, loc, regs) == RunC(m, AfterLabel(rest, l), loc, regs)
  {
    assert ([GotoC(l)] + rest)[1..] == rest;
  }

  lemma {:induction false} IfLine(m: Machine, l: Expr, op: OpCode, r: Expr, rest: Lines, loc: Env, regs: Env)
    ensures RunC(m, [IfC(l, op, r)] + rest, loc, regs) ==
      RunC(m, if Compare(op, Eval(m, l, loc), Eval(m, r, loc)) then rest else SkipArm(rest, 0), loc, regs)
  {
    hide Compare, Eval;
    assert ([IfC(l, op, r)] + rest)[1..] == rest;
  }

  lemma {:induction false} LabelLines(m: Machine, lab: Lines, rest: Lines, loc: Env, regs: Env)
    requires forall l | l in lab :: l.LabelC?
    ensures RunC(m, lab + rest, loc, regs) == RunC(m, rest, loc, regs)
  {
    if lab == [] {
      assert lab + rest == rest;
    } else {
      assert lab[0] in lab;
      assert (lab + rest)[1..] == lab[1..] + rest;
      LabelLines(m, lab[1..], rest, loc, regs);
    }
  }

  // ---------- When the text does what the blocks do ----------

  predicate Decided(o: Outcome) {
    o.Returned? && o.val.Decision?
  }

  function InC(o: Outcome): COutcome
    requires Decided(o)
  {
    Done(o.val.perm, o.env)
  }

  /** Every assignment that is performed survives its write-back. */
  predicate StoresRight(m: Machine, x: Job, c: Code, env: Env, tmp: Temps)
    requires Grounded(x.defs) && AllKnown(x.defs, c)
  {
    if c == [] then true
    else
      var i, rest := c[0], c[1..];
      assert i in c && AllKnown(x.defs, rest);
      match i
      case Store(src, dst) =>
        var v := Val(src, env, tmp);
        v.Some? ==>
          && (dst in x.copied || Eval(m, LiftExpr(x.defs, src), env[dst := v.value]) == v.value)
          && StoresRight(m, x, rest, env[dst := v.value], map[])
      case Arith1(_, _, _) => var v := Result(m, i, env, tmp); v.Some? ==>
        StoresRight(m, x, rest, env, tmp[i.id := v.value])
      case Arith2(_, _, _, _) => var v := Result(m, i, env, tmp); v.Some? ==>
        StoresRight(m, x, rest, env, tmp[i.id := v.value])
      case Call(_, _, _) => var v := Result(m, i, env, tmp); v.Some? ==>
        StoresRight(m, x, rest, env, tmp[i.id := v.value])
      case _ => true
  }

  /** On these arguments the blocks from `k` on are written as they are meant: no assignment is
      lost, and a block that runs on is followed in the text by the next one. */
  predicate TextRight(m: Machine, x: Job, k: nat, env: Env)
    requires Ready(x) && k < |x.bs| && k in x.lifted
    decreases |x.bs| - k
  {
    && StoresRight(m, x, x.bs[k].insts, env, map[])
    && match RunBlock(m, x.bs[k].insts, env, map[])
       case Falls(e) => TextNext(x, k) == k + 1 && (k + 1 < |x.bs| ==> TextRight(m, x, k + 1, e))
       case Goes(l, e) =>
         var j := Find(x.bs, k + 1, l);
         j.Some? && j.value in x.lifted ==> TextRight(m, x, j.value, e)
       case Ended(_) => true
  }

  /** The code of a block whose assignments survive reads as it runs. */
  lemma {:induction false} InstsRight(m: Machine, x: Job, c: Code, env: Env, tmp: Temps)
    requires Grounded(x.defs) && AllKnown(x.defs, c) && PlainCode(c) && StoresRight(m, x, c, env, tmp)
    requires TreesAgree(m, x.defs, env, tmp) && DefsMatch(x.defs, c)
    ensures match RunBlock(m, c, env, tmp)
      case Falls(e) => ReadInsts(m, x, c, env, tmp, env) == Out(e, e)
      case Goes(l, e) => ReadInsts(m, x, c, env, tmp, env) == To(l, e, e)
      case Ended(o) => Decided(o) ==> ReadInsts(m, x, c, env, tmp, env) == Ends(InC(o))
  {
    if c != [] {
      var i := c[0];
      assert i in c && AllKnown(x.defs, c[1..]) && PlainCode(c[1..]);
      hide LiftExpr, Eval, Compare;
      if i.Store? && Val(i.src, env, tmp).Some? {
        var v := Val(i.src, env, tmp).value;
        InstsRight(m, x, c[1..], env[i.dst := v], map[]);
      } else if i.Computes() && Result(m, i, env, tmp).Some? {
        ComputeAgrees(m, x.defs, i, env, tmp);
        hide TreesAgree;
        InstsRight(m, x, c[1..], env, tmp[i.id := Result(m, i, env, tmp).value]);
      }
    }
  }

  /** Where all that is performed is written as it is meant, the text reads as the blocks run. */
  lemma {:induction false} RightText(m: Machine, x: Job, k: nat, env: Env)
    requires m.jumps && Runnable(x) && k < |x.bs| && k in x.lifted
    requires TextRight(m, x, k, env) && Decided(RunFrom(m, x.bs, k, env))
    ensures ReadText(m, x, k, env, env) == InC(RunFrom(m, x.bs, k, env))
    decreases |x.bs| - k
  {
    StepBlock(m, x.bs, k, env);
    RunnableIsReady(x);
    assert AllKnown(x.defs, x.bs[k].insts);
    InstsRight(m, x, x.bs[k].insts, env, map[]);
    var e := RunBlock(m, x.bs[k].insts, env, map[]);
    if e.Falls? {
      NothingDecides(m, x.bs, e.env);
      hide RunFrom, RunBlock, ReadInsts, TopOf, Liftable, StoresRight;
      RightText(m, x, k + 1, e.env);
    } else if e.Goes? {
      var j := Find(x.bs, k + 1, e.lbl).value;
      GoesReferred(m, x, k, env);
      hide RunFrom, RunBlock, ReadInsts, TopOf, Liftable, StoresRight, Refers, Inlined;
      RightText(m, x, j, e.env);
    }
  }

  lemma {:induction false} NothingDecides(m: Machine, bs: Blocks, env: Env)
    ensures !Decided(RunFrom(m, bs, |bs|, env))
  {
    assert bs[|bs|..] == [];
  }

  /** Where a block's run goes, it refers to. */
  lemma {:induction false} GoesReferred(m: Machine, x: Job, k: nat, env: Env)
    requires Runnable(x) && k < |x.bs| && k in x.lifted && RunBlock(m, x.bs[k].insts, env, map[]).Goes?
    ensures var l := RunBlock(m, x.bs[k].insts, env, map[]).lbl;
      Find(x.bs, k + 1, l).Some? && Find(x.bs, k + 1, l).value in x.lifted && Refers(x, k, Find(x.bs, k + 1, l).value)
  {
    var l := RunBlock(m, x.bs[k].insts, env, map[]).lbl;
    GoesHasSlot(m, x.bs[k].insts, env, map[]);
    var i := SomeSlot(x.bs[k].insts, l);
    hide RunBlock, Slots;
    assert Find(x.bs, k + 1, l).Some?;
  }

  // ---------- Blocks that are always written as they are meant ----------

  /** Assignments that survive their write-back: to memory, or of an expression that does not
      read what it assigns. */
  predicate SafeCode(copied: set<string>, defs: Defs, c: Code)
    requires Grounded(defs) && AllKnown(defs, c)
  {
    forall i | i in c :: SafeStore(copied, defs, i)
  }

  lemma {:induction false} SafeIsRight(m: Machine, x: Job, c: Code, env: Env, tmp: Temps)
    requires Grounded(x.defs) && AllKnown(x.defs, c) && SafeCode(x.copied, x.defs, c)
    requires TreesAgree(m, x.defs, env, tmp) && DefsMatch(x.defs, c)
    ensures StoresRight(m, x, c, env, tmp)
  {
    if c != [] {
      var i := c[0];
      assert i in c && AllKnown(x.defs, c[1..]) && SafeCode(x.copied, x.defs, c[1..]);
      hide LiftExpr, Eval, Compare, Reads;
      if i.Store? && Val(i.src, env, tmp).Some? {
        var v := Val(i.src, env, tmp).value;
        OperandAgrees(m, x.defs, i.src, env, tmp);
        if i.dst !in x.copied {
          UnreadUnchanged(m, LiftExpr(x.defs, i.src), env, i.dst, v);
        }
        SafeIsRight(m, x, c[1..], env[i.dst := v], map[]);
      } else if i.Computes() && Result(m, i, env, tmp).Some? {
        ComputeAgrees(m, x.defs, i, env, tmp);
        hide TreesAgree;
        SafeIsRight(m, x, c[1..], env, tmp[i.id := Result(m, i, env, tmp).value]);
      }
    }
  }

  /** The block ends in a branch or a return, or the text goes on with the next block. */
  predicate FollowsOn(x: Job, k: nat)
    requires Ready(x) && k < |x.bs| && k in x.lifted
  {
    FallsThrough(x.bs[k].insts) ==> TextNext(x, k) == k + 1
  }

  /** Blocks whose assignments are safe, and that are followed by what they run on into, are
      written as they are meant, whatever the arguments are. */
  lemma {:induction false} SafeTextIsRight(m: Machine, x: Job, k: nat, env: Env)
    requires Runnable(x) && k < |x.bs| && k in x.lifted
    requires forall j | j in x.lifted :: SafeCode(x.copied, x.defs, x.bs[j].insts) && FollowsOn(x, j)
    ensures TextRight(m, x, k, env)
    decreases |x.bs| - k
  {
    RunnableIsReady(x);
    SafeIsRight(m, x, x.bs[k].insts, env, map[]);
    hide SafeCode, TopOf;
    var e := RunBlock(m, x.bs[k].insts, env, map[]);
    if e.Falls? {
      FallsIsFallThrough(m, x.bs[k].insts, env, map[]);
      hide RunBlock, StoresRight, FallsThrough;
      assert FollowsOn(x, k);
      if k + 1 < |x.bs| {
        SafeTextIsRight(m, x, k + 1, e.env);
      }
    } else if e.Goes? {
      hide RunBlock, StoresRight, FallsThrough;
      var j := Find(x.bs, k + 1, e.lbl);
      if j.Some? && j.value in x.lifted {
        SafeTextIsRight(m, x, j.value, e.env);
      }
    }
  }
}
