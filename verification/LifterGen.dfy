/** The lifter as it works: reference counts, blocks marked as used, text appended. */
module LifterGen {
  import opened Syntax
  import opened Ir
  import opened Cfg
  import opened Lifter
  import opened Layout

  // ---------- Which blocks are written with which ----------

  /** The blocks whose text is written when block `k` is: itself and those inlined in it. */
  function UsedBlock(x: Job, k: nat): set<nat>
    requires WellFormedJob(x) && k in x.lifted
    decreases |x.bs| - k, 1, 0
  {
    LiftedTargets(x, k, x.bs[k].insts);
    {k} + UsedCode(x, k, BlockCode(x, k))
  }

  function UsedCode(x: Job, k: nat, ps: seq<PCode>): set<nat>
    requires WellFormedJob(x) && k in x.lifted && TargetsFrom(x, k, ps)
    decreases |x.bs| - k, 0, |ps|
  {
    if ps == [] then {}
    else
      assert ps[0] in ps && TargetsFrom(x, k, ps[1..]);
      (if ps[0].PIf? then UsedArm(x, k, ps[0].t) + UsedArm(x, k, ps[0].f) else {}) + UsedCode(x, k, ps[1..])
  }

  function UsedArm(x: Job, k: nat, l: Label): set<nat>
    requires WellFormedJob(x) && k in x.lifted
    requires Find(x.bs, k + 1, l).Some? && Find(x.bs, k + 1, l).value in x.lifted
    decreases |x.bs| - k, 0, 0
  {
    if Inlined(x, l) then UsedBlock(x, Find(x.bs, k + 1, l).value) else {}
  }

  /** A block written with block `k` is `k`, or inlined and referred to by another one of them. */
  predicate WrittenWith(x: Job, k: nat, s: set<nat>, j: nat)
    requires WellFormedJob(x)
  {
    && k <= j && j in x.lifted
    && (j == k || (Inlined(x, x.bs[j].label_) && exists r | r in s :: r in x.lifted && r < j && Refers(x, r, j)))
  }

  // ---------- Arms ----------

  lemma {:induction false} SlotsOfInst(c: Code, i: Inst, l: Label)
    requires i in c
    ensures Slots(c, l) >= Count(i.Targets(), l)
  {
    hide Count;
    if c[0] != i {
      SlotsOfInst(c[1..], i, l);
    }
  }

  /** The two arms of a branch are not one and the same inlined block. */
  lemma {:induction false} ArmsDiffer(x: Job, k: nat, i: Inst)
    requires k in x.lifted && k < |x.bs| && i in x.bs[k].insts && i.Branch? && i.t == i.f
    ensures !Inlined(x, i.t)
  {
    hide Slots, Refs;
    SlotsOfInst(x.bs[k].insts, i, i.t);
    RefsOfOne(x, 0, k, i.t);
    assert i.Targets()[1..] == [i.f] && [i.f][1..] == [];
  }

  // ---------- What is written with a block ----------

  lemma {:induction false} PIfIsBranch(x: Job, c: Code, p: PCode) returns (i: Inst)
    requires Grounded(x.defs) && AllKnown(x.defs, c) && p in LiftInsts(x.defs, c) && p.PIf?
    ensures i in c && i.Branch? && i.t == p.t && i.f == p.f
  {
    assert c[0] in c && AllKnown(x.defs, c[1..]);
    if Lifts(c[0]) && LiftInst(x.defs, c[0]) == p {
      i := c[0];
    } else {
      i := PIfIsBranch(x, c[1..], p);
    }
  }

  lemma {:induction false} BranchIsPIf(x: Job, c: Code, i: Inst) returns (p: PCode)
    requires Grounded(x.defs) && AllKnown(x.defs, c) && i in c && i.Branch?
    ensures p in LiftInsts(x.defs, c) && p.PIf? && p.t == i.t && p.f == i.f
  {
    assert c[0] in c && AllKnown(x.defs, c[1..]);
    if c[0] == i {
      p := LiftInst(x.defs, i);
    } else {
      p := BranchIsPIf(x, c[1..], i);
    }
  }

  /** The arm that a branch of block `k` leads to is referred to by `k`. */
  lemma {:induction false} ArmIsReferred(x: Job, k: nat, p: PCode, l: Label)
    requires WellFormedJob(x) && k in x.lifted && p in BlockCode(x, k) && p.PIf? && (l == p.t || l == p.f)
    ensures Find(x.bs, k + 1, l).Some? && Find(x.bs, k + 1, l).value in x.lifted
    ensures Refers(x, k, Find(x.bs, k + 1, l).value)
  {
    LiftedTargets(x, k, x.bs[k].insts);
    var i := PIfIsBranch(x, x.bs[k].insts, p);
    assert l in i.Targets();
    hide Slots;
    SlotsHave(x.bs[k].insts, i, l);
  }

  lemma {:induction false} BlockWrites(x: Job, k: nat, j: nat)
    requires WellFormedJob(x) && k in x.lifted && j in UsedBlock(x, k)
    ensures WrittenWith(x, k, UsedBlock(x, k), j)
    decreases |x.bs| - k, 1, 0
  {
    LiftedTargets(x, k, x.bs[k].insts);
    assert k < |x.bs|;
    if j != k {
      hide WellFormedJob, UsedCode, BlockCode, Refers, Inlined;
      CodeWrites(x, k, BlockCode(x, k), j);
      var r :| r in {k} + UsedCode(x, k, BlockCode(x, k)) && r in x.lifted && r < j && Refers(x, r, j);
      assert r in UsedBlock(x, k);
    }
  }

  lemma {:induction false} CodeWrites(x: Job, k: nat, ps: seq<PCode>, j: nat)
    requires WellFormedJob(x) && k in x.lifted && TargetsFrom(x, k, ps) && j in UsedCode(x, k, ps)
    requires forall p | p in ps :: p in BlockCode(x, k)
    ensures k < j && WrittenWith(x, k, {k} + UsedCode(x, k, ps), j)
    decreases |x.bs| - k, 0, |ps|
  {
    assert k < |x.bs|;
    assert ps[0] in ps && TargetsFrom(x, k, ps[1..]);
    hide WellFormedJob, UsedArm, BlockCode, Refers, Inlined;
    var p := ps[0];
    if p.PIf? && j in UsedArm(x, k, p.t) {
      ArmWrites(x, k, p, p.t, j);
      var r :| r in {k} + UsedArm(x, k, p.t) && r in x.lifted && r < j && Refers(x, r, j);
      assert r in {k} + UsedCode(x, k, ps);
    } else if p.PIf? && j in UsedArm(x, k, p.f) {
      ArmWrites(x, k, p, p.f, j);
      var r :| r in {k} + UsedArm(x, k, p.f) && r in x.lifted && r < j && Refers(x, r, j);
      assert r in {k} + UsedCode(x, k, ps);
    } else {
      CodeWrites(x, k, ps[1..], j);
      var r :| r in {k} + UsedCode(x, k, ps[1..]) && r in x.lifted && r < j && Refers(x, r, j);
      assert r in {k} + UsedCode(x, k, ps);
    }
  }

  lemma {:induction false} ArmWrites(x: Job, k: nat, p: PCode, l: Label, j: nat)
    requires WellFormedJob(x) && k in x.lifted && p in BlockCode(x, k) && p.PIf? && (l == p.t || l == p.f)
    requires Find(x.bs, k + 1, l).Some? && Find(x.bs, k + 1, l).value in x.lifted
    requires j in UsedArm(x, k, l)
    ensures k < j && WrittenWith(x, k, {k} + UsedArm(x, k, l), j) && j != k
    decreases |x.bs| - k, 0, 0
  {
    var a := Find(x.bs, k + 1, l).value;
    hide WellFormedJob, UsedBlock, BlockCode, Refers, Inlined;
    ArmIsReferred(x, k, p, l);
    BlockWrites(x, a, j);
    if j == a {
      assert k in {k} + UsedArm(x, k, l);
    } else {
      var r :| r in UsedBlock(x, a) && r in x.lifted && r < j && Refers(x, r, j);
      assert r in {k} + UsedArm(x, k, l);
    }
  }

  lemma {:induction false} ArmIsWritten(x: Job, k: nat, ps: seq<PCode>, p: PCode, l: Label, j: nat)
    requires WellFormedJob(x) && k in x.lifted && TargetsFrom(x, k, ps) && p in ps && p.PIf? && (l == p.t || l == p.f)
    requires Find(x.bs, k + 1, l).Some? && Find(x.bs, k + 1, l).value in x.lifted && j in UsedArm(x, k, l)
    ensures j in UsedCode(x, k, ps)
  {
    assert ps[0] in ps && TargetsFrom(x, k, ps[1..]);
    hide WellFormedJob, UsedArm;
    if ps[0] != p {
      ArmIsWritten(x, k, ps[1..], p, l, j);
    }
  }

  /** Whatever is inlined in a block that is written is written with it. */
  lemma {:induction false} BlockCloses(x: Job, k: nat, r: nat, j: nat)
    requires Ready(x) && NoJumpsIn(x) && k in x.lifted && r in UsedBlock(x, k)
    requires r < j < |x.bs| && j in x.lifted && Refers(x, r, j) && Inlined(x, x.bs[j].label_)
    ensures j in UsedBlock(x, k)
    decreases |x.bs| - k, 1, 0
  {
    LiftedTargets(x, k, x.bs[k].insts);
    assert k < |x.bs|;
    var l := x.bs[j].label_;
    if r == k {
      var i := SomeSlot(x.bs[k].insts, l);
      var p := BranchIsPIf(x, x.bs[k].insts, i);
      assert Find(x.bs, k + 1, l) == Some(j);
      hide Ready, NoJumpsIn, UsedCode, BlockCode, Refers, Inlined;
      assert p in BlockCode(x, k) by { BlockCodeIs(x, k); }
      assert j in UsedArm(x, k, l);
      ArmIsWritten(x, k, BlockCode(x, k), p, l, j);
    } else {
      hide UsedCode, BlockCode, Refers, Inlined, NoJumpsIn;
      CodeCloses(x, k, BlockCode(x, k), r, j);
    }
  }

  lemma {:induction false} CodeCloses(x: Job, k: nat, ps: seq<PCode>, r: nat, j: nat)
    requires Ready(x) && NoJumpsIn(x) && k in x.lifted && TargetsFrom(x, k, ps) && r in UsedCode(x, k, ps)
    requires r < j < |x.bs| && j in x.lifted && Refers(x, r, j) && Inlined(x, x.bs[j].label_)
    ensures j in UsedCode(x, k, ps)
    decreases |x.bs| - k, 0, |ps|
  {
    assert k < |x.bs|;
    assert ps[0] in ps && TargetsFrom(x, k, ps[1..]);
    hide NoJumpsIn, UsedArm, Refers, Inlined;
    if ps[0].PIf? && r in UsedArm(x, k, ps[0].t) {
      ArmCloses(x, k, ps[0].t, r, j);
    } else if ps[0].PIf? && r in UsedArm(x, k, ps[0].f) {
      ArmCloses(x, k, ps[0].f, r, j);
    } else {
      CodeCloses(x, k, ps[1..], r, j);
    }
  }

  lemma {:induction false} ArmCloses(x: Job, k: nat, l: Label, r: nat, j: nat)
    requires Ready(x) && NoJumpsIn(x) && k in x.lifted
    requires Find(x.bs, k + 1, l).Some? && Find(x.bs, k + 1, l).value in x.lifted && r in UsedArm(x, k, l)
    requires r < j < |x.bs| && j in x.lifted && Refers(x, r, j) && Inlined(x, x.bs[j].label_)
    ensures j in UsedArm(x, k, l)
    decreases |x.bs| - k, 0, 0
  {
    hide NoJumpsIn, UsedBlock, Refers, Inlined, Ready;
    BlockCloses(x, Find(x.bs, k + 1, l).value, r, j);
  }

  // ---------- The lifter's state ----------

  /** Between blocks: what is inlined was referred to by something written before it. */
  predicate ReferredBefore(x: Job, s: set<nat>)
  {
    forall j | j in s && j < |x.bs| && Inlined(x, x.bs[j].label_) ::
      exists r | r in s :: r in x.lifted && r < j && Refers(x, r, j)
  }

  /** Nothing inlined in a written block is missing. */
  predicate Complete(x: Job, s: set<nat>)
    requires forall r | r in s :: r < |x.bs|
  {
    forall r, j | r in s && r < j < |x.bs| && j in x.lifted && Refers(x, r, j) && Inlined(x, x.bs[j].label_) :: j in s
  }

  /** Writing block `k` for the first time writes everything with it for the first time. */
  lemma {:induction false} WritesAreNew(x: Job, s: set<nat>, k: nat, j: nat)
    requires Ready(x) && k in x.lifted && k !in s && ReferredBefore(x, s) && (forall r | r in s :: r in x.lifted)
    requires j in UsedBlock(x, k)
    ensures j !in s
    decreases j
  {
    hide Ready, UsedBlock, Refers, Inlined;
    assert WellFormedJob(x) by { ReadyIsWellFormed(x); }
    BlockWrites(x, k, j);
    if j != k && j in s {
      var r :| r in UsedBlock(x, k) && r in x.lifted && r < j && Refers(x, r, j);
      var r' :| r' in s && r' in x.lifted && r' < j && Refers(x, r', j);
      OneReference(x, r, r', j);
      WritesAreNew(x, s, k, r);
    }
  }

  lemma {:induction false} ReadyIsWellFormed(x: Job)
    requires Ready(x)
    ensures WellFormedJob(x) && DistinctLabels(x.bs) && forall k | k in x.lifted :: k < |x.bs|
  {
  }

  lemma {:induction false} ReferredGrows(x: Job, s: set<nat>, k: nat)
    requires Ready(x) && k in x.lifted && ReferredBefore(x, s)
    requires Inlined(x, x.bs[k].label_) ==> exists r | r in s :: r in x.lifted && r < k && Refers(x, r, k)
    ensures ReferredBefore(x, s + UsedBlock(x, k))
    ensures forall j | j in UsedBlock(x, k) :: j in x.lifted
  {
    hide Ready, UsedBlock, Refers, Inlined;
    assert WellFormedJob(x) by { ReadyIsWellFormed(x); }
    var s' := s + UsedBlock(x, k);
    forall j | j in UsedBlock(x, k)
      ensures j in x.lifted
      ensures (Inlined(x, x.bs[j].label_) ==> exists r | r in s' :: r in x.lifted && r < j && Refers(x, r, j))
    {
      BlockWrites(x, k, j);
    }
  }

  lemma {:induction false} CompleteGrows(x: Job, s: set<nat>, k: nat)
    requires Ready(x) && NoJumpsIn(x) && k in x.lifted
    requires (forall r | r in s :: r in x.lifted) && (forall r | r in s :: r < |x.bs|) && Complete(x, s)
    ensures forall r | r in s + UsedBlock(x, k) :: r < |x.bs|
    ensures Complete(x, s + UsedBlock(x, k))
  {
    hide Ready, UsedBlock, Refers, Inlined, NoJumpsIn;
    assert WellFormedJob(x) by { ReadyIsWellFormed(x); }
    forall j | j in UsedBlock(x, k)
      ensures j in x.lifted
    {
      BlockWrites(x, k, j);
    }
    forall r, j | r in UsedBlock(x, k) && r < j < |x.bs| && j in x.lifted && Refers(x, r, j) &&
      Inlined(x, x.bs[j].label_)
      ensures j in UsedBlock(x, k)
    {
      BlockCloses(x, k, r, j);
    }
  }

  function LabelsOf(x: Job, s: set<nat>): set<Label>
    requires forall j | j in s :: j < |x.bs|
  {
    set j | j in s :: x.bs[j].label_
  }

  /** Where a block stands before its text is written: not written yet, and referred to by
      something written if it is inlined. */
  predicate Due(x: Job, s: set<nat>, k: nat)
  {
    && (forall r | r in s :: r in x.lifted) && ReferredBefore(x, s)
    && k in x.lifted && k < |x.bs| && k !in s
    && (Inlined(x, x.bs[k].label_) ==> exists r | r in s :: r in x.lifted && r < k && Refers(x, r, k))
  }

  /** Once a block is marked, the blocks that its branch inlines are due, one after the other. */
  lemma {:induction false} TrueArmIsDue(x: Job, s: set<nat>, k: nat, p: PCode)
    requires Ready(x) && Due(x, s, k) && p in BlockCode(x, k) && p.PIf? && Inlined(x, p.t)
    ensures Find(x.bs, k + 1, p.t).Some? && Find(x.bs, k + 1, p.t).value in x.lifted
    ensures Due(x, s + {k}, Find(x.bs, k + 1, p.t).value)
  {
    ArmIsReferred(x, k, p, p.t);
    hide Ready, BlockCode, Refers, Inlined;
    ArmIsDue(x, s, k, Find(x.bs, k + 1, p.t).value);
  }

  lemma {:induction false} ArmIsDue(x: Job, s: set<nat>, k: nat, j: nat)
    requires Ready(x) && Due(x, s, k) && k < j < |x.bs| && j in x.lifted && Refers(x, k, j)
    requires Inlined(x, x.bs[j].label_)
    ensures Due(x, s + {k}, j)
  {
    hide Ready, Refers, Inlined;
    if j in s {
      var r :| r in s && r in x.lifted && r < j && Refers(x, r, j);
      OneReference(x, r, k, j);
    }
    assert k in s + {k};
    forall a | a in s + {k} && a < |x.bs| && Inlined(x, x.bs[a].label_)
      ensures exists r | r in s + {k} :: r in x.lifted && r < a && Refers(x, r, a)
    {
      var r :| r in s && r in x.lifted && r < a && Refers(x, r, a);
      assert r in s + {k};
    }
  }

  /** What the true arm inlines does not contain the block that the false arm inlines. */
  lemma {:induction false} FalseArmIsApart(x: Job, k: nat, p: PCode, jt: nat, jf: nat)
    requires Ready(x) && k in x.lifted && p in BlockCode(x, k) && p.PIf? && Inlined(x, p.f)
    requires Find(x.bs, k + 1, p.t) == Some(jt) && jt in x.lifted && Find(x.bs, k + 1, p.f) == Some(jf)
    requires jf in x.lifted
    requires Refers(x, k, jf)
    ensures jf !in UsedBlock(x, jt)
  {
    hide Ready, BlockCode, Refers, Inlined, UsedBlock;
    ReadyIsWellFormed(x);
    if jf in UsedBlock(x, jt) {
      BlockWrites(x, jt, jf);
      if jf == jt {
        assert BlockCode(x, k) == LiftInsts(x.defs, x.bs[k].insts) by { BlockCodeIs(x, k); }
        var i := PIfIsBranch(x, x.bs[k].insts, p);
        ArmsDiffer(x, k, i);
      } else {
        var r :| r in UsedBlock(x, jt) && r in x.lifted && r < jf && Refers(x, r, jf);
        OneReference(x, r, k, jf);
        BlockWrites(x, jt, r);
      }
    }
  }

  lemma {:induction false} FalseArmIsDue(x: Job, s: set<nat>, k: nat, p: PCode)
    requires Ready(x) && Due(x, s, k) && p in BlockCode(x, k) && p.PIf? && Inlined(x, p.f)
    requires Find(x.bs, k + 1, p.t).Some? && Find(x.bs, k + 1, p.t).value in x.lifted
    ensures Find(x.bs, k + 1, p.f).Some? && Find(x.bs, k + 1, p.f).value in x.lifted
    ensures Due(x, s + {k} + UsedArm(x, k, p.t), Find(x.bs, k + 1, p.f).value)
  {
    ArmIsReferred(x, k, p, p.t);
    ArmIsReferred(x, k, p, p.f);
    hide Ready, BlockCode, Refers, Inlined, UsedBlock, Find;
    var jt, jf := Find(x.bs, k + 1, p.t).value, Find(x.bs, k + 1, p.f).value;
    assert x.bs[jt].label_ == p.t && x.bs[jf].label_ == p.f && k < jt && k < jf;
    ArmIsDue(x, s, k, jf);
    if Inlined(x, p.t) {
      ArmIsDue(x, s, k, jt);
      ReferredGrows(x, s + {k}, jt);
      FalseArmIsApart(x, k, p, jt, jf);
      DueLater(x, s + {k}, s + {k} + UsedBlock(x, jt), jf);
    } else {
      assert s + {k} + UsedArm(x, k, p.t) == s + {k};
    }
  }

  lemma {:induction false} DueLater(x: Job, s: set<nat>, s': set<nat>, k: nat)
    requires Due(x, s, k) && s <= s' && k !in s' && ReferredBefore(x, s') && forall r | r in s' :: r in x.lifted
    ensures Due(x, s', k)
  {
    hide ReferredBefore, Refers, Inlined;
  }

  lemma {:induction false} ArmsAreLifted(x: Job, s: set<nat>, k: nat, p: PCode)
    requires Ready(x) && Due(x, s, k) && p in BlockCode(x, k) && p.PIf?
    ensures Find(x.bs, k + 1, p.t).Some? && Find(x.bs, k + 1, p.t).value in x.lifted
    ensures Find(x.bs, k + 1, p.f).Some? && Find(x.bs, k + 1, p.f).value in x.lifted
  {
    ArmIsReferred(x, k, p, p.t);
    ArmIsReferred(x, k, p, p.f);
  }
}
