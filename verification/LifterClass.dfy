/** The lifter itself: its fields, and the methods that fill them. */
module LifterClass {
  import opened Syntax
  import opened Ir
  import opened Cfg
  import opened Colouring
  import opened Lifter
  import opened LifterProof
  import opened LiftedRun
  import opened LiftedStart
  import opened Layout
  import opened LifterGen

  function CountOf(cnt: map<Label, nat>, l: Label): nat {
    if l in cnt then cnt[l] else 0
  }

  function Bump(cnt: map<Label, nat>, l: Label): map<Label, nat> {
    cnt[l := CountOf(cnt, l) + 1]
  }

  /** The reference counts once the blocks before `n` were lifted. */
  ghost predicate CountsUpTo(x: Job, n: nat, cnt: map<Label, nat>)
    requires n <= |x.bs|
  {
    forall l :: CountOf(cnt, l) + Refs(x, n, l) == Refs(x, 0, l)
  }

  /** The code of the lifted blocks before `n`. */
  predicate CodesUpTo(x: Job, n: nat, codes: map<Label, seq<PCode>>)
    requires WellFormedJob(x) && n <= |x.bs|
  {
    forall k | k in x.lifted && k < n :: x.bs[k].label_ in codes && codes[x.bs[k].label_] == BlockCode(x, k)
  }

  /** The labels of the lifted blocks before `n`, in order. */
  function OrderUpTo(x: Job, n: nat): seq<Label>
    requires n <= |x.bs|
  {
    if n == 0 then [] else OrderUpTo(x, n - 1) + if n - 1 in x.lifted then [x.bs[n - 1].label_] else []
  }

  /** How often the instruction names the label as a target. */
  function Hits(i: Inst, l: Label): nat {
    if i.Branch? then (if i.t == l then 1 else 0) + (if i.f == l then 1 else 0)
    else if i.Jump? && i.t == l then 1 else 0
  }

  class IRLifter {
    var codeBlocks: map<Label, seq<PCode>>
    var blockRefCnt: map<Label, nat>
    var used: set<Label>
    var blockOrder: seq<Label>
    var cCode: Lines
    const interfacePoints: set<Label>
    const copied: set<string>

    constructor (interfacePoints: set<Label>, copied: set<string>)
      ensures codeBlocks == map[] && blockRefCnt == map[] && used == {} && blockOrder == [] && cCode == []
      ensures this.interfacePoints == interfacePoints && this.copied == copied
    {
      codeBlocks, blockRefCnt, used, blockOrder, cCode := map[], map[], {}, [], [];
      this.interfacePoints, this.copied := interfacePoints, copied;
    }

    /** The lifter has lifted the blocks of the job that come before `n`. */
    ghost predicate Lifted(x: Job, n: nat)
      requires WellFormedJob(x) && n <= |x.bs|
      reads `codeBlocks, `blockRefCnt, `blockOrder
    {
      && interfacePoints == x.iface && copied == x.copied
      && CountsUpTo(x, n, blockRefCnt) && CodesUpTo(x, n, codeBlocks) && blockOrder == OrderUpTo(x, n)
    }

    /** `__LiftInst`: the code of one branch, store or return; branches count their targets. */
    method LiftInst(inst: Inst, defs: Defs) returns (pcode: PCode)
      requires Grounded(defs) && OperandsKnown(defs, inst) && Lifts(inst)
      modifies `blockRefCnt
      ensures pcode == Lifter.LiftInst(defs, inst)
      ensures forall l :: CountOf(blockRefCnt, l) == CountOf(old(blockRefCnt), l) + Count(inst.Targets(), l)
    {
      forall l
        ensures Count(inst.Targets(), l) == Hits(inst, l)
      {
        CountTargets(inst, l);
      }
      hide Count;
      if inst.Branch? {
        pcode := PIf(LiftExpr(defs, inst.a), inst.op, LiftExpr(defs, inst.b), inst.t, inst.f);
        blockRefCnt := Bump(blockRefCnt, inst.t);
        blockRefCnt := Bump(blockRefCnt, inst.f);
      } else if inst.Jump? {
        pcode := PGoto(inst.t);
        blockRefCnt := Bump(blockRefCnt, inst.t);
      } else if inst.Return? {
        if inst.val == Decision(Allow) {
          pcode := PAllow;
        } else {
          pcode := PDeny;
        }
      } else {
        pcode := PAssign(inst.dst, LiftExpr(defs, inst.src));
      }
    }

    /** Lifts one block: its code, its place in the order, and the references it makes. */
    method LiftBasicBlock(b: Block, defs: Defs)
      requires Grounded(defs) && AllKnown(defs, b.insts)
      modifies `codeBlocks, `blockRefCnt, `blockOrder
      ensures codeBlocks == old(codeBlocks)[b.label_ := LiftInsts(defs, b.insts)]
      ensures blockOrder == old(blockOrder) + [b.label_]
      ensures forall l :: CountOf(blockRefCnt, l) == CountOf(old(blockRefCnt), l) + Slots(b.insts, l)
    {
      var code: seq<PCode> := [];
      blockOrder := blockOrder + [b.label_];
      var n := 0;
      while n < |b.insts|
        invariant n <= |b.insts| && AllKnown(defs, b.insts[n..])
        invariant codeBlocks == old(codeBlocks) && blockOrder == old(blockOrder) + [b.label_]
        invariant code + LiftInsts(defs, b.insts[n..]) == LiftInsts(defs, b.insts)
        invariant forall l ::
          CountOf(blockRefCnt, l) + Slots(b.insts[n..], l) == CountOf(old(blockRefCnt), l) + Slots(b.insts, l)
      {
        var inst := b.insts[n];
        assert inst in b.insts;
        LiftStep(defs, b.insts, n, code);
        SlotsStep(b.insts, n);
        hide *;
        if inst.Branches() || inst.Store? || inst.Return? {
          var pcode := LiftInst(inst, defs);
          code := code + [pcode];
        } else {
          assert code + [] == code;
        }
        n := n + 1;
      }
      assert b.insts[n..] == [] && code + [] == code;
      codeBlocks := codeBlocks[b.label_ := code];
    }

    /** Lifts the blocks that the tracer runs, in program order.  One that the tracer would enter
        in its middle is reported as unsupported and left out. */
    method GenPtraceCode(bs: Blocks, ptrace: PtraceBlocks, defs: Defs, ghost x: Job) returns (supported: bool)
      requires Ready(x) && x.bs == bs && x.defs == defs
      requires forall k :: k in x.lifted <==> k in ptrace && ptrace[k] == 0
      requires Lifted(x, 0)
      modifies `codeBlocks, `blockRefCnt, `blockOrder
      ensures Lifted(x, |bs|)
      ensures supported <==> forall k | k in ptrace && k < |bs| :: ptrace[k] == 0
    {
      var n := 0;
      supported := true;
      while n < |bs|
        invariant n <= |bs| && WellFormedJob(x)
        invariant CountsUpTo(x, n, blockRefCnt) && CodesUpTo(x, n, codeBlocks) && blockOrder == OrderUpTo(x, n)
        invariant supported <==> forall k | k in ptrace && k < n :: ptrace[k] == 0
      {
        hide *;
        ghost var cnt, codes := blockRefCnt, codeBlocks;
        BlockLifts(x, n);
        if n in ptrace {
          if ptrace[n] == 0 {
            LiftBasicBlock(bs[n], defs);
          } else {
            supported := false;
          }
        }
        LiftedNext(x, n, cnt, codes, blockRefCnt, codeBlocks);
        n := n + 1;
      }
    }

    /** What the methods below rely on: everything has been lifted. */
    ghost predicate Prepared(x: Job)
      reads `codeBlocks, `blockRefCnt, `blockOrder
    {
      Ready(x) && Runnable(x) && Lifted(x, |x.bs|)
    }

    /** The labels marked as used are those of the blocks in `s`. */
    ghost predicate Marked(x: Job, s: set<nat>)
      reads `used
    {
      (forall j | j in s :: j in x.lifted && j < |x.bs|) && used == LabelsOf(x, s)
    }

    /** `GenCode`: the blocks in order, without those that were written with another one. */
    method GenCode(ghost x: Job)
      requires Prepared(x) && used == {} && cCode == []
      modifies `used, `cCode
      ensures WellFormedJob(x) && cCode == ProgramLines(x, 0)
      ensures forall j | j in x.lifted :: j < |x.bs|
      ensures used == LabelsOf(x, x.lifted)
    {
      hide *;
      ghost var s: set<nat> := {};
      ghost var n := 0;
      var k := 0;
      PreparedFacts(x);
      NothingWritten(x);
      NothingMapped(x);
      while k < |blockOrder|
        invariant Prepared(x) && Marked(x, s) && n <= |x.bs|
        invariant k == |OrderUpTo(x, n)| && blockOrder == OrderUpTo(x, |x.bs|)
        invariant Between(x, s, n)
        invariant cCode + ProgramLines(x, n) == ProgramLines(x, 0)
        decreases |blockOrder| - k
      {
        ghost var m := NextLifted(x, n, k);
        SkipUnlifted(x, n, m);
        var label_ := blockOrder[k];
        KnownBlock(x, m);
        TopNext(x, s, n, m, cCode);
        IsMarked(x, s, m);
        if label_ !in used {
          GenBasicBlockCode(codeBlocks[label_], label_, x, m, s);
          s := s + UsedBlock(x, m);
        }
        n := m + 1;
        k := k + 1;
      }
      OrderGrows(x, n, |x.bs|);
      AllOrdered(x, n);
      AllWritten(x, s, n);
      SkipUnlifted(x, n, |x.bs|);
      ProgramEnds(x, cCode);
      MarkedLabels(x, s);
    }

    lemma {:induction false} NothingMapped(x: Job)
      requires used == {}
      ensures Marked(x, {})
    {
    }

    lemma {:induction false} MarkedLabels(x: Job, s: set<nat>)
      requires Marked(x, s)
      ensures (forall j | j in s :: j < |x.bs|) && used == LabelsOf(x, s)
    {
    }

    lemma {:induction false} PreparedFacts(x: Job)
      requires Prepared(x)
      ensures Ready(x) && Runnable(x) && WellFormedJob(x) && blockOrder == OrderUpTo(x, |x.bs|)
      ensures interfacePoints == x.iface && copied == x.copied && CountsUpTo(x, |x.bs|, blockRefCnt)
    {
    }

    lemma {:induction false} KnownBlock(x: Job, k: nat)
      requires Prepared(x) && k in x.lifted
      ensures k < |x.bs| && x.bs[k].label_ in codeBlocks && codeBlocks[x.bs[k].label_] == BlockCode(x, k)
    {
      ReadyIsWellFormed(x);
    }

    lemma {:induction false} IsMarked(x: Job, s: set<nat>, k: nat)
      requires Ready(x) && k in x.lifted && k < |x.bs| && Marked(x, s)
      ensures x.bs[k].label_ in used <==> k in s
    {
    }

    /** `GenBasicBlockCode`: marks the block, writes its label if something else goes there,
        and writes its code, which it does for no block twice. */
    method GenBasicBlockCode(bb: seq<PCode>, label_: Label, ghost x: Job, ghost k: nat, ghost s: set<nat>)
      requires Prepared(x) && Marked(x, s) && Due(x, s, k) && label_ == x.bs[k].label_ && bb == BlockCode(x, k)
      requires label_ !in used
      modifies `used, `cCode
      ensures Marked(x, s + UsedBlock(x, k)) && cCode == old(cCode) + BlockLines(x, k)
      decreases |x.bs| - k, 1
    {
      PreparedFacts(x);
      LabelIsUnused(x, s, k);
      LiftedTargets(x, k, x.bs[k].insts);
      hide Prepared, Ready, Runnable, Due, BlockCode, BlockLines, BlockLabel, UsedCode, UsedBlock, CodeLines,
        LabelsOf, CountsUpTo, TargetsFrom, WellFormedJob, HeadLines, UsedArm;
      used := used + {label_};
      if label_ in interfacePoints || CountOf(blockRefCnt, label_) > 1 {
        cCode := cCode + [LabelC(label_)];
      }
      ghost var start := cCode;
      LabelWritten(x, k, old(cCode), start, blockRefCnt);
      GenStatements(bb, x, k, s);
      BlockWritten(x, k, start, old(cCode), cCode, s);
    }

    /** The loop over the statements of a block. */
    method GenStatements(bb: seq<PCode>, ghost x: Job, ghost k: nat, ghost s: set<nat>)
      requires Prepared(x) && Marked(x, s + {k}) && Due(x, s, k) && bb == BlockCode(x, k) && TargetsFrom(x, k, bb)
      modifies `used, `cCode
      ensures Marked(x, s + {k} + UsedCode(x, k, bb)) && cCode == old(cCode) + CodeLines(x, k, bb)
      decreases |x.bs| - k, 0, 2
    {
      hide *;
      PreparedFacts(x);
      DueFacts(x, s, k);
      ghost var w, start := s + {k}, cCode;
      var i := 0;
      assert bb[0..] == bb;
      while i < |bb|
        invariant i <= |bb| && TargetsFrom(x, k, bb[i..]) && Prepared(x) && Marked(x, w)
        invariant cCode + CodeLines(x, k, bb[i..]) == start + CodeLines(x, k, bb)
        invariant w + UsedCode(x, k, bb[i..]) == s + {k} + UsedCode(x, k, bb)
        invariant i < |bb| ==> w == s + {k}
      {
        var pcode := bb[i];
        CodeNext(x, k, bb, i, cCode, w);
        BranchIsLast(x, k, i);
        if pcode.PIf? {
          GenIf(pcode, x, k, s, bb[i..]);
          w := w + UsedArm(x, k, pcode.t) + UsedArm(x, k, pcode.f);
        } else {
          GenStatement(pcode, x, k, bb[i..]);
        }
        i := i + 1;
      }
      CodeEnds(x, k, bb[i..], cCode, w);
    }

    /** A statement that is not a branch. */
    method GenStatement(pcode: PCode, ghost x: Job, ghost k: nat, ghost ps: seq<PCode>)
      requires WellFormedJob(x) && k in x.lifted && TargetsFrom(x, k, ps) && ps != [] && ps[0] == pcode && !pcode.PIf?
      requires copied == x.copied
      modifies `cCode
      ensures cCode == old(cCode) + HeadLines(x, k, ps)
    {
      hide WellFormedJob, TargetsFrom;
      if pcode.PGoto? {
        cCode := cCode + [GotoC(pcode.t)];
      } else if pcode.PAllow? {
        cCode := cCode + [AllowC];
      } else if pcode.PDeny? {
        cCode := cCode + [DenyC];
      } else {
        cCode := cCode + [AssignC(pcode.dst, pcode.expr)];
        if pcode.dst in copied {
          cCode := cCode + [CopyBackC(pcode.dst)];
        } else {
          cCode := cCode + [SetArgC(pcode.dst, pcode.expr)];
        }
      }
    }

    /** A branch with its two arms. */
    method GenIf(p: PCode, ghost x: Job, ghost k: nat, ghost s: set<nat>, ghost ps: seq<PCode>)
      requires Prepared(x) && Marked(x, s + {k}) && Due(x, s, k) && p in BlockCode(x, k) && p.PIf?
      requires TargetsFrom(x, k, ps) && ps != [] && ps[0] == p
      modifies `used, `cCode
      ensures Find(x.bs, k + 1, p.t).Some? && Find(x.bs, k + 1, p.t).value in x.lifted
      ensures Find(x.bs, k + 1, p.f).Some? && Find(x.bs, k + 1, p.f).value in x.lifted
      ensures Marked(x, s + {k} + UsedArm(x, k, p.t) + UsedArm(x, k, p.f))
      ensures cCode == old(cCode) + HeadLines(x, k, ps)
      decreases |x.bs| - k, 0, 1
    {
      hide *;
      PreparedFacts(x);
      DueFacts(x, s, k);
      ArmsAreLifted(x, s, k, p);
      if Inlined(x, p.t) {
        TrueArmIsDue(x, s, k, p);
      }
      if Inlined(x, p.f) {
        FalseArmIsDue(x, s, k, p);
      }
      HeadOfIf(x, k, ps);
      cCode := cCode + [IfC(p.l, p.op, p.r)];
      GenArm(p.t, x, k, s + {k});
      cCode := cCode + [ElseC];
      GenArm(p.f, x, k, s + {k} + UsedArm(x, k, p.t));
      cCode := cCode + [EndC];
      IfWritten(old(cCode), IfC(p.l, p.op, p.r), ArmLines(x, k, p.t), ArmLines(x, k, p.f));
    }

    /** One arm: the block itself if nothing else goes there, and otherwise a `goto`. */
    method GenArm(l: Label, ghost x: Job, ghost k: nat, ghost s: set<nat>)
      requires Prepared(x) && Marked(x, s) && k in x.lifted
      requires Find(x.bs, k + 1, l).Some? && Find(x.bs, k + 1, l).value in x.lifted
      requires Inlined(x, l) ==> Due(x, s, Find(x.bs, k + 1, l).value)
      modifies `used, `cCode
      ensures Marked(x, s + UsedArm(x, k, l)) && cCode == old(cCode) + ArmLines(x, k, l)
      decreases |x.bs| - k, 0, 0
    {
      PreparedFacts(x);
      CountIsRefs(x, blockRefCnt, l);
      ghost var j := Find(x.bs, k + 1, l).value;
      KnownBlock(x, j);
      hide Prepared, Runnable, Ready, Due, BlockCode, CountsUpTo, BlockLines, UsedBlock, LabelsOf;
      if CountOf(blockRefCnt, l) == 1 {
        DueIsUnmarked(x, s, j);
        GenBasicBlockCode(codeBlocks[l], l, x, j, s);
      } else {
        cCode := cCode + [GotoC(l)];
        assert s + {} == s;
      }
    }

    lemma {:induction false} DueIsUnmarked(x: Job, s: set<nat>, k: nat)
      requires Ready(x) && Marked(x, s) && Due(x, s, k)
      ensures x.bs[k].label_ !in used
    {
      LabelIsUnused(x, s, k);
    }
  }

  /** What is known between two blocks at the top: those before `n` are written, nothing that
      is inlined in a written block is missing, and the rest of what is written is inlined. */
  predicate Between(x: Job, s: set<nat>, n: nat) {
    && (forall j | j in s :: j in x.lifted) && (forall j | j in s :: j < |x.bs|)
    && ReferredBefore(x, s) && Complete(x, s)
    && (forall j | j in x.lifted && j < n :: j in s)
    && (forall j | j in s :: j < n || Inlined(x, x.bs[j].label_))
  }

  lemma {:induction false} LiftStep(defs: Defs, c: Code, n: nat, done: seq<PCode>)
    requires Grounded(defs) && n < |c| && AllKnown(defs, c[n..])
    ensures AllKnown(defs, c[n + 1..]) && OperandsKnown(defs, c[n])
    ensures done + LiftInsts(defs, c[n..]) ==
      done + (if Lifts(c[n]) then [Lifter.LiftInst(defs, c[n])] else []) + LiftInsts(defs, c[n + 1..])
    ensures Lifts(c[n]) <==> c[n].Branches() || c[n].Store? || c[n].Return?
  {
    assert c[n..][0] == c[n] && c[n..][1..] == c[n + 1..];
    assert c[n] in c[n..];
  }

  lemma {:induction false} SlotsStep(c: Code, n: nat)
    requires n < |c|
    ensures forall l :: Slots(c[n..], l) == Count(c[n].Targets(), l) + Slots(c[n + 1..], l)
    ensures !c[n].Branches() ==> forall l :: Count(c[n].Targets(), l) == 0
  {
    hide Count;
    assert c[n..][0] == c[n] && c[n..][1..] == c[n + 1..];
    forall l
      ensures !c[n].Branches() ==> Count(c[n].Targets(), l) == 0
    {
      NoSlots(c[n], l);
    }
  }

  lemma {:induction false} NoSlots(i: Inst, l: Label)
    ensures !i.Branches() ==> Count(i.Targets(), l) == 0
  {
  }

  lemma {:induction false} BlockLifts(x: Job, n: nat)
    requires Ready(x) && n < |x.bs|
    ensures WellFormedJob(x) && Grounded(x.defs)
    ensures n in x.lifted ==> AllKnown(x.defs, x.bs[n].insts) && BlockCode(x, n) == LiftInsts(x.defs, x.bs[n].insts)
  {
  }

  /** One more block of the job has been lifted, or is none of the tracer's. */
  lemma {:induction false} LiftedNext(x: Job, n: nat, cnt: map<Label, nat>, codes: map<Label, seq<PCode>>,
                                      cnt': map<Label, nat>, codes': map<Label, seq<PCode>>)
    requires Ready(x) && n < |x.bs| && CountsUpTo(x, n, cnt) && CodesUpTo(x, n, codes)
    requires if n in x.lifted then
        (forall l :: CountOf(cnt', l) == CountOf(cnt, l) + Slots(x.bs[n].insts, l)) &&
          codes' == codes[x.bs[n].label_ := BlockCode(x, n)]
      else cnt' == cnt && codes' == codes
    ensures CountsUpTo(x, n + 1, cnt') && CodesUpTo(x, n + 1, codes')
    ensures OrderUpTo(x, n + 1) == OrderUpTo(x, n) + if n in x.lifted then [x.bs[n].label_] else []
  {
    hide Slots, BlockCode;
  }

  // ---------- The order of the blocks ----------

  lemma {:induction false} OrderGrows(x: Job, n: nat, m: nat)
    requires n <= m <= |x.bs|
    ensures OrderUpTo(x, n) <= OrderUpTo(x, m)
  {
    if n < m {
      OrderGrows(x, n, m - 1);
    }
  }

  /** The block whose label is at position `k` of the order. */
  lemma {:induction false} NextLifted(x: Job, n: nat, k: nat) returns (m: nat)
    requires n <= |x.bs| && k == |OrderUpTo(x, n)| < |OrderUpTo(x, |x.bs|)|
    ensures n <= m < |x.bs| && m in x.lifted && forall j | n <= j < m :: j !in x.lifted
    ensures OrderUpTo(x, |x.bs|)[k] == x.bs[m].label_ && |OrderUpTo(x, m + 1)| == k + 1
    decreases |x.bs| - n
  {
    if n in x.lifted {
      m := n;
      OrderGrows(x, n + 1, |x.bs|);
    } else {
      m := NextLifted(x, n + 1, k);
    }
  }

  lemma {:induction false} AllOrdered(x: Job, n: nat)
    requires n <= |x.bs| && |OrderUpTo(x, n)| == |OrderUpTo(x, |x.bs|)|
    ensures forall j | n <= j < |x.bs| :: j !in x.lifted
    decreases |x.bs| - n
  {
    if n < |x.bs| {
      OrderGrows(x, n, n + 1);
      OrderGrows(x, n + 1, |x.bs|);
      AllOrdered(x, n + 1);
    }
  }

  lemma {:induction false} SkipUnlifted(x: Job, n: nat, m: nat)
    requires WellFormedJob(x) && n <= m <= |x.bs| && forall j | n <= j < m :: j !in x.lifted
    ensures ProgramLines(x, n) == ProgramLines(x, m)
    decreases m - n
  {
    hide WellFormedJob, Inlined, BlockLines;
    if n < m {
      SkipUnlifted(x, n + 1, m);
      assert [] + ProgramLines(x, n + 1) == ProgramLines(x, n + 1);
    }
  }

  lemma {:induction false} NothingWritten(x: Job)
    requires Ready(x)
    ensures Between(x, {}, 0) && LabelsOf(x, {}) == {} && OrderUpTo(x, 0) == []
    ensures [] + ProgramLines(x, 0) == ProgramLines(x, 0)
  {
  }

  // ---------- Blocks at the top ----------

  lemma {:induction false} RunnableHasNoJumps(x: Job)
    requires Runnable(x)
    ensures NoJumpsIn(x)
  {
  }

  /** When its turn comes, a block has been written already exactly if it is inlined. */
  lemma {:induction false} InlinedIsWritten(x: Job, s: set<nat>, m: nat)
    requires Ready(x) && m in x.lifted && m < |x.bs| && Inlined(x, x.bs[m].label_)
    requires (forall j | j in s :: j in x.lifted) && (forall j | j in s :: j < |x.bs|) && Complete(x, s)
    requires forall j | j in x.lifted && j < m :: j in s
    ensures m in s
  {
    var l := x.bs[m].label_;
    var r, i := SomeReference(x, 0, l);
    assert Find(x.bs, r + 1, l).Some?;
    assert Find(x.bs, r + 1, l).value == m;
    hide Slots, Refs;
    SlotsHave(x.bs[r].insts, i, l);
  }

  lemma {:induction false} DueFacts(x: Job, s: set<nat>, k: nat)
    requires Due(x, s, k)
    ensures k in x.lifted && k < |x.bs|
  {
  }

  lemma {:induction false} AllWritten(x: Job, s: set<nat>, n: nat)
    requires Between(x, s, n) && (forall j | j in x.lifted :: j < |x.bs|)
    requires forall j | n <= j < |x.bs| :: j !in x.lifted
    ensures s == x.lifted
  {
    hide ReferredBefore, Complete, Inlined;
    assert forall j | j in x.lifted :: j < n;
  }

  lemma {:induction false} ProgramEnds(x: Job, done: Lines)
    requires WellFormedJob(x)
    ensures done + ProgramLines(x, |x.bs|) == done
  {
  }

  lemma {:induction false} TopNext(x: Job, s: set<nat>, n: nat, m: nat, done: Lines)
    requires Ready(x) && Runnable(x) && n <= m < |x.bs| && m in x.lifted && (forall j | n <= j < m :: j !in x.lifted)
    requires Between(x, s, n)
    ensures WellFormedJob(x)
    ensures m in s ==> done + ProgramLines(x, m) == done + ProgramLines(x, m + 1) && Between(x, s, m + 1)
    ensures m !in s ==>
      && Due(x, s, m) && done + ProgramLines(x, m) == done + BlockLines(x, m) + ProgramLines(x, m + 1)
      && Between(x, s + UsedBlock(x, m), m + 1)
  {
    hide *;
    ReadyIsWellFormed(x);
    if m in s {
      TopIsInlined(x, s, n, m);
    } else {
      TopIsDue(x, s, n, m);
      TopIsWritten(x, s, n, m);
    }
    TopLinesOf(x, m, done);
  }

  lemma {:induction false} TopLinesOf(x: Job, m: nat, done: Lines)
    requires WellFormedJob(x) && m < |x.bs| && m in x.lifted
    ensures done + ProgramLines(x, m) ==
      if Inlined(x, x.bs[m].label_) then done + ProgramLines(x, m + 1)
        else done + BlockLines(x, m) + ProgramLines(x, m + 1)
  {
    hide Inlined, BlockLines, WellFormedJob;
    var rest := ProgramLines(x, m + 1);
    assert [] + rest == rest;
    assert done + (BlockLines(x, m) + rest) == done + BlockLines(x, m) + rest;
  }

  lemma {:induction false} TopIsInlined(x: Job, s: set<nat>, n: nat, m: nat)
    requires Between(x, s, n) && n <= m < |x.bs| && m in s && (forall j | n <= j < m :: j !in x.lifted)
    ensures Inlined(x, x.bs[m].label_) && Between(x, s, m + 1)
  {
    hide ReferredBefore, Complete, Inlined;
  }

  lemma {:induction false} TopIsDue(x: Job, s: set<nat>, n: nat, m: nat)
    requires Ready(x) && Between(x, s, n) && n <= m < |x.bs| && m in x.lifted
    requires (forall j | n <= j < m :: j !in x.lifted) && m !in s
    ensures !Inlined(x, x.bs[m].label_) && Due(x, s, m)
  {
    hide Ready, ReferredBefore, Complete, Refers, Inlined;
    if Inlined(x, x.bs[m].label_) {
      InlinedIsWritten(x, s, m);
    }
  }

  lemma {:induction false} TopIsWritten(x: Job, s: set<nat>, n: nat, m: nat)
    requires Ready(x) && Runnable(x) && Between(x, s, n) && n <= m < |x.bs| && m in x.lifted
    requires (forall j | n <= j < m :: j !in x.lifted)
    requires !Inlined(x, x.bs[m].label_)
    ensures Between(x, s + UsedBlock(x, m), m + 1)
  {
    RunnableHasNoJumps(x);
    ReadyIsWellFormed(x);
    hide Runnable, Ready, ReferredBefore, Complete, Refers, Inlined, UsedCode, BlockCode, NoJumpsIn, WellFormedJob;
    ReferredGrows(x, s, m);
    CompleteGrows(x, s, m);
    var s' := s + UsedBlock(x, m);
    assert m in UsedBlock(x, m);
    forall j | j in x.lifted && j < m + 1
      ensures j in s'
    {
      assert j < n || j == m;
    }
    hide UsedBlock;
    forall j | j in s'
      ensures j < m + 1 || Inlined(x, x.bs[j].label_)
    {
      if j in UsedBlock(x, m) {
        BlockWrites(x, m, j);
      }
    }
  }

  lemma {:induction false} LabelIsUnused(x: Job, s: set<nat>, k: nat)
    requires Ready(x) && Due(x, s, k)
    ensures forall j | j in s + {k} :: j in x.lifted && j < |x.bs|
    ensures x.bs[k].label_ !in LabelsOf(x, s) && LabelsOf(x, s + {k}) == LabelsOf(x, s) + {x.bs[k].label_}
  {
    hide ReferredBefore, Refers, Inlined;
  }

  lemma {:induction false} CountIsRefs(x: Job, cnt: map<Label, nat>, l: Label)
    requires CountsUpTo(x, |x.bs|, cnt)
    ensures CountOf(cnt, l) == Refs(x, 0, l)
  {
    assert Refs(x, |x.bs|, l) == 0;
  }

  // ---------- The code of one block ----------

  lemma {:induction false} LabelWritten(x: Job, k: nat, before: Lines, after: Lines, cnt: map<Label, nat>)
    requires k < |x.bs| && CountsUpTo(x, |x.bs|, cnt)
    requires var l := x.bs[k].label_;
      after == if l in x.iface || CountOf(cnt, l) > 1 then before + [LabelC(l)] else before
    ensures after == before + BlockLabel(x, x.bs[k].label_)
  {
    CountIsRefs(x, cnt, x.bs[k].label_);
    assert before + [] == before;
  }

  lemma {:induction false} BlockWritten(x: Job, k: nat, start: Lines, before: Lines, after: Lines, s: set<nat>)
    requires WellFormedJob(x) && k in x.lifted && TargetsFrom(x, k, BlockCode(x, k))
    requires start == before + BlockLabel(x, x.bs[k].label_) && after == start + CodeLines(x, k, BlockCode(x, k))
    ensures after == before + BlockLines(x, k)
    ensures UsedBlock(x, k) == {k} + UsedCode(x, k, BlockCode(x, k))
    ensures s + UsedBlock(x, k) == s + {k} + UsedCode(x, k, BlockCode(x, k))
  {
    hide CodeLines, BlockCode, BlockLabel, UsedCode, WellFormedJob;
  }

  lemma {:induction false} CodeNext(x: Job, k: nat, ps: seq<PCode>, i: nat, done: Lines, w: set<nat>)
    requires WellFormedJob(x) && k in x.lifted && i < |ps| && TargetsFrom(x, k, ps[i..])
    ensures TargetsFrom(x, k, ps[i + 1..]) && ps[i] in ps && ps[i..][0] == ps[i]
    ensures done + CodeLines(x, k, ps[i..]) == done + HeadLines(x, k, ps[i..]) + CodeLines(x, k, ps[i + 1..])
    ensures ps[i].PIf? ==>
      && Find(x.bs, k + 1, ps[i].t).Some? && Find(x.bs, k + 1, ps[i].t).value in x.lifted
      && Find(x.bs, k + 1, ps[i].f).Some? && Find(x.bs, k + 1, ps[i].f).value in x.lifted
    ensures w + UsedCode(x, k, ps[i..]) ==
      (if ps[i].PIf? then w + UsedArm(x, k, ps[i].t) + UsedArm(x, k, ps[i].f) else w) + UsedCode(x, k, ps[i + 1..])
  {
    assert ps[i..][0] == ps[i] && ps[i..][1..] == ps[i + 1..];
    assert ps[i] in ps[i..];
    hide WellFormedJob, ArmLines, UsedArm;
    CodeSplit(x, k, ps[i..], []);
    assert CodeLines(x, k, ps[i..]) + [] == CodeLines(x, k, ps[i..]);
    assert CodeLines(x, k, ps[i + 1..]) + [] == CodeLines(x, k, ps[i + 1..]);
  }

  lemma {:induction false} IfWritten(done: Lines, head: Line, t: Lines, f: Lines)
    ensures done + [head] + t + [ElseC] + f + [EndC] == done + ([head] + t + [ElseC] + f + [EndC])
  {
  }

  lemma {:induction false} CodeEnds(x: Job, k: nat, ps: seq<PCode>, done: Lines, w: set<nat>)
    requires WellFormedJob(x) && k in x.lifted && ps == []
    ensures TargetsFrom(x, k, ps) && done + CodeLines(x, k, ps) == done && w + UsedCode(x, k, ps) == w
  {
  }

  lemma {:induction false} HeadOfIf(x: Job, k: nat, ps: seq<PCode>)
    requires WellFormedJob(x) && k in x.lifted && TargetsFrom(x, k, ps) && ps != [] && ps[0].PIf?
    ensures var p := ps[0];
      && Find(x.bs, k + 1, p.t).Some? && Find(x.bs, k + 1, p.t).value in x.lifted
      && Find(x.bs, k + 1, p.f).Some? && Find(x.bs, k + 1, p.f).value in x.lifted
      && HeadLines(x, k, ps) == [IfC(p.l, p.op, p.r)] + ArmLines(x, k, p.t) + [ElseC] + ArmLines(x, k, p.f) + [EndC]
  {
    assert ps[0] in ps;
    hide WellFormedJob, ArmLines;
  }
}
