/** The drivers of policy.cpp: one check through its passes and back ends, and the tables of
    the tracer for all of them. */
module PolicyGen {
  import opened Syntax
  import opened Ir
  import opened IrGen
  import opened Cfg
  import opened Colour
  import opened Split
  import opened Bpf
  import opened BpfGen
  import opened Preserved
  import opened Lifter
  import opened Layout
  import opened LiftedRun
  import opened LifterClass
  import opened Check
  import opened CheckRun
  import opened Policy
  import opened AstGen
  import opened Passes
  import opened BuildCfg
  import opened Colouring
  import opened BpfIrGen
  import opened FilterGen

  /** `SyscallCheck::IRGen`: the blocks of the check, or a refusal of an undeclared variable. */
  method CheckIRGen(ck: Check, mgr: CodeGenMgr) returns (graph: Option<BlockList>, defs: Defs)
    requires WellTyped(ck.body)
    modifies mgr
    ensures var at := Base(old(mgr.labelCount), old(mgr.ids));
      && (graph.Some? <==> VariablesDeclared(ck.params, RawCode(ck, at)))
      && (graph.Some? ==> BlocksOf(ck, at, graph.value.bs))
      && defs == DefsFor(ck, at)
      && Base(mgr.labelCount, mgr.ids) == BaseAfter(Built(ck, at, [], 0))
  {
    var ir := new InstList();
    StmtIRGen(ck.body, ir, mgr);
    ghost var at := Base(old(mgr.labelCount), old(mgr.ids));
    assert [] + RawCode(ck, at) == RawCode(ck, at);
    assert ir.insts == RawCode(ck, at);
    hide StmtCode, IsCfg, VariablesDeclared;
    defs := DefsOf(ir.insts);
    var declared := CheckVariableUse(ir, ck.params);
    if !declared {
      return None, defs;
    }
    MergeLabels(ir);
    EliminateDeadCode(ir);
    assert ir.insts == CheckCode(ck, at);
    var g := BuildCFG(ir, ck.name);
    return Some(g), defs;
  }

  // ---------- Code generation for one check ----------

  /** The labels of the hand-offs that are labels of this check's tracer blocks. */
  method InterfacePoints(bs: Blocks, ptrace: PtraceBlocks, tables: HandOffs) returns (points: set<Label>)
    requires forall k | k in ptrace :: k < |bs|
    ensures forall l :: l in points <==> l in tables.retDataToLabel && exists k | k in ptrace :: bs[k].label_ == l
  {
    var localLabels := set k | k in ptrace :: bs[k].label_;
    points := {};
    var n := 0;
    while n < |tables.retDataToLabel|
      invariant n <= |tables.retDataToLabel|
      invariant forall l :: l in points <==> l in tables.retDataToLabel[..n] && l in localLabels
    {
      if tables.retDataToLabel[n] in localLabels {
        points := points + {tables.retDataToLabel[n]};
      }
      n := n + 1;
    }
    assert tables.retDataToLabel[..n] == tables.retDataToLabel;
  }

  /** The labels of the whole table, as it stands, that are labels of this check's tracer blocks. */
  ghost function PointsIn(bs: Blocks, table: seq<Label>): set<Label>
    requires Ordered(bs)
  {
    set l | l in table && exists k: nat | k < |bs| && Coloured(bs, k) :: bs[k].label_ == l
  }

  /** `SyscallCheck::CodeGen`: the check's filter, its part of the hand-off table, and its part
      of the tracer's text; and whether no tracer block had to be left out as unsupported. */
  method CheckCodeGen(ck: Check, ghost at: Base, bs: Blocks, defs: Defs, tables: HandOffs)
    returns (filters: Option<Filters>, text: Lines, labels: set<Label>, supported: bool)
    requires GoodBlocks(ck, at, bs) && defs == DefsFor(ck, at)
    requires tables.Valid()
    modifies tables
    ensures Ordered(bs) && bs != [] && (supported <==> StartsAtTop(bs))
    ensures tables.Valid() && tables.retDataToLabel == old(tables.retDataToLabel) + TableOf(bs, old(tables.retData))
    ensures filters == FilterOf(ck, bs, old(tables.retData))
    ensures text == TextOf(JobOf(ck, at, bs, old(tables.retData)).(iface := PointsIn(bs, tables.retDataToLabel)))
    ensures forall l :: l in labels <==> exists k: nat | k < |bs| && Coloured(bs, k) :: bs[k].label_ == l
  {
    hide *;
    ghost var n := tables.retData;
    GoodIsOrdered(ck, at, bs);
    GoodIsGrounded(ck, at, bs);
    var ptrace, ptraceOnly := ColorCode(bs);
    LiftedAreFirst(bs, ptrace);
    var bpfIr := new InstList();
    GenBPFIR(bs, ptraceOnly, bpfIr, tables);
    JobIsRunnable(ck, at, bs, n);
    BpfIrStarts(bs, n);
    FilterIsBpfCode(ck, bs, n);
    JobFields(ck, at, bs, n);
    ghost var x := JobOf(ck, at, bs, n);
    StillRunnable(x, PointsIn(bs, tables.retDataToLabel));
    text, supported := LiftCheck(bs, ptrace, ck.copied, defs, tables, x.(iface := PointsIn(bs, tables.retDataToLabel)));
    filters := BPFCodeGen(bpfIr.insts, ArgIndexOf(ck.params));
    labels := TracerLabels(bs, ptrace);
  }

  /** Whether a job can be lifted does not depend on the labels that are gone to. */
  lemma {:induction false} StillRunnable(x: Job, points: set<Label>)
    requires Runnable(x)
    ensures Runnable(x.(iface := points))
  {
    hide Liftable, AllKnown, Grounded, Find;
  }

  /** The labels of the tracer's blocks. */
  method TracerLabels(bs: Blocks, ptrace: PtraceBlocks) returns (labels: set<Label>)
    requires Ordered(bs) && ptrace.Keys == ColouredSet(bs) && forall k | k in ptrace :: k < |bs| && Coloured(bs, k)
    ensures forall l :: l in labels <==> exists k: nat | k < |bs| && Coloured(bs, k) :: bs[k].label_ == l
  {
    hide Coloured;
    labels := set k | k in ptrace :: bs[k].label_;
    forall l
      ensures l in labels <==> exists k: nat | k < |bs| && Coloured(bs, k) :: bs[k].label_ == l
    {
      assert forall k: nat :: k < |bs| && Coloured(bs, k) <==> k in ptrace.Keys;
    }
  }

  lemma {:induction false} GoodIsGrounded(ck: Check, at: Base, bs: Blocks)
    requires GoodBlocks(ck, at, bs)
    ensures Grounded(DefsFor(ck, at))
  {
  }

  lemma {:induction false} JobFields(ck: Check, at: Base, bs: Blocks, n: nat)
    requires Ordered(bs) && bs != []
    ensures var x := JobOf(ck, at, bs, n);
      && x.bs == bs && x.lifted == LiftedSet(bs) && x.defs == DefsFor(ck, at) && x.copied == ck.copied
      && x.iface == set l | l in TableOf(bs, n)
  {
  }

  lemma {:induction false} FilterIsBpfCode(ck: Check, bs: Blocks, n: nat)
    requires Ordered(bs) && bs != []
    ensures FilterOf(ck, bs, n) == BpfCode(BpfIr(bs, n).code, ArgIndexOf(ck.params))
    ensures TableOf(bs, n) == BpfIr(bs, n).table
  {
  }

  lemma {:induction false} BpfIrStarts(bs: Blocks, n: nat)
    requires Ordered(bs) && bs != []
    ensures BpfIr(bs, n).code != [] && [] + BpfIr(bs, n).code == BpfIr(bs, n).code
  {
    if !Only(bs, 0) {
      EmitCopied(bs, 0, n);
    }
  }

  /** What is lifted are the blocks that start at their first instruction. */
  lemma {:induction false} LiftedAreFirst(bs: Blocks, ptrace: PtraceBlocks)
    requires Ordered(bs)
    requires ptrace.Keys == ColouredSet(bs) && forall k | k in ptrace :: ptrace[k] == Start(bs, k)
    ensures forall k | k in ptrace :: k < |bs| && Coloured(bs, k)
    ensures forall k :: k in LiftedSet(bs) <==> k in ptrace && ptrace[k] == 0
    ensures StartsAtTop(bs) <==> forall k | k in ptrace && k < |bs| :: ptrace[k] == 0
  {
    hide Coloured, Start;
    forall k: nat
      ensures k in ptrace <==> k < |bs| && Coloured(bs, k)
    {
      assert k in ptrace.Keys <==> k in ColouredSet(bs);
    }
  }

  /** The tracer's text of the check. */
  method LiftCheck(bs: Blocks, ptrace: PtraceBlocks, copied: set<string>, defs: Defs, tables: HandOffs,
                   ghost x: Job) returns (text: Lines, supported: bool)
    requires Ordered(bs) && bs != [] && ptrace.Keys == ColouredSet(bs) && Runnable(x)
    requires forall k | k in ptrace :: k < |bs| && Coloured(bs, k)
    requires forall k :: k in LiftedSet(bs) <==> k in ptrace && ptrace[k] == 0
    requires x.bs == bs && x.lifted == LiftedSet(bs) && x.defs == defs && x.copied == copied
    requires x.iface == PointsIn(bs, tables.retDataToLabel)
    ensures text == TextOf(x)
    ensures supported <==> forall k | k in ptrace && k < |bs| :: ptrace[k] == 0
  {
    hide *;
    var points := InterfacePoints(bs, ptrace, tables);
    PointsAre(bs, ptrace, tables.retDataToLabel, points);
    var lifter := new IRLifter(points, copied);
    RunnableIsReady(x);
    StartsLifting(lifter, x);
    supported := lifter.GenPtraceCode(bs, ptrace, defs, x);
    ReadyToWrite(lifter, x);
    lifter.GenCode(x);
    text := lifter.cCode;
    TextIs(x);
  }

  lemma {:induction false} PointsAre(bs: Blocks, ptrace: PtraceBlocks, table: seq<Label>, points: set<Label>)
    requires Ordered(bs) && ptrace.Keys == ColouredSet(bs) && forall k | k in ptrace :: k < |bs|
    requires forall l :: l in points <==> l in table && exists k | k in ptrace :: bs[k].label_ == l
    ensures points == PointsIn(bs, table)
  {
    hide Coloured;
    forall l
      ensures l in points <==> l in PointsIn(bs, table)
    {
      assert forall k: nat :: k < |bs| && Coloured(bs, k) <==> k in ptrace.Keys;
    }
  }

  lemma {:induction false} TextIs(x: Job)
    requires WellFormedJob(x)
    ensures TextOf(x) == ProgramLines(x, 0)
  {
  }

  lemma {:induction false} ReadyToWrite(lifter: IRLifter, x: Job)
    requires Runnable(x) && WellFormedJob(x) && lifter.Lifted(x, |x.bs|)
    ensures lifter.Prepared(x)
  {
  }

  lemma {:induction false} StartsLifting(lifter: IRLifter, x: Job)
    requires Runnable(x) && WellFormedJob(x)
    requires lifter.codeBlocks == map[] && lifter.blockRefCnt == map[] && lifter.blockOrder == []
    requires lifter.interfacePoints == x.iface && lifter.copied == x.copied
    ensures Ready(x) && lifter.Lifted(x, 0)
  {
  }

  // ---------- The tables of the tracer ----------

  /** A check as the tables see it: its syscall, and the labels of its tracer blocks. */
  datatype TracedCheck = TracedCheck(name: string, labels: set<Label>)

  /** The last check with a tracer block of that label. */
  function OwnerName(checks: seq<TracedCheck>, l: Label): Option<string> {
    if checks == [] then None
    else
      var n := |checks| - 1;
      if l in checks[n].labels then Some(checks[n].name) else OwnerName(checks[..n], l)
  }

  function Looked(owners: map<Label, string>, l: Label): Option<string> {
    if l in owners then Some(owners[l]) else None
  }

  /** `PtraceCodeGen`: `jmp_table` is the hand-off table, and `start_table` names, number by
      number, the check that the label belongs to. */
  method PtraceTables(checks: seq<TracedCheck>, tables: HandOffs)
    returns (jmpTable: seq<Label>, startTable: seq<Option<string>>)
    requires tables.Valid()
    ensures jmpTable == tables.retDataToLabel && |startTable| == |jmpTable| == tables.retData
    ensures forall d | 0 <= d < |jmpTable| :: startTable[d] == OwnerName(checks, jmpTable[d])
  {
    var label2Check: map<Label, string> := map[];
    var n := 0;
    while n < |checks|
      invariant n <= |checks|
      invariant forall l :: Looked(label2Check, l) == OwnerName(checks[..n], l)
    {
      assert checks[..n + 1][..n] == checks[..n];
      label2Check := NameLabels(checks[n], label2Check);
      n := n + 1;
    }
    assert checks[..n] == checks;
    jmpTable, startTable := [], [];
    var i := 0;
    while i < |tables.retDataToLabel|
      invariant i == |jmpTable| == |startTable| <= |tables.retDataToLabel|
      invariant jmpTable == tables.retDataToLabel[..i]
      invariant forall d | 0 <= d < i :: startTable[d] == OwnerName(checks, jmpTable[d])
    {
      var label_ := tables.retDataToLabel[i];
      jmpTable := jmpTable + [label_];
      startTable := startTable + [Looked(label2Check, label_)];
      i := i + 1;
    }
  }

  /** Every label of the check's tracer blocks now stands for the check. */
  method NameLabels(check: TracedCheck, owners: map<Label, string>) returns (r: map<Label, string>)
    ensures forall l :: Looked(r, l) == if l in check.labels then Some(check.name) else Looked(owners, l)
  {
    r := owners;
    var left := check.labels;
    while left != {}
      invariant left <= check.labels
      invariant forall l :: Looked(r, l) == if l in check.labels && l !in left then Some(check.name)
        else Looked(owners, l)
      decreases |left|
    {
      var l :| l in left;
      r := r[l := check.name];
      left := left - {l};
    }
  }

  /** What the tables see of the checks of a policy. */
  ghost predicate SeesPolicy(checks: seq<TracedCheck>, ps: Builts) {
    && |checks| == |ps|
    && forall k | 0 <= k < |ps| :: checks[k].name == ps[k].ck.name && forall l :: l in checks[k].labels <==>
       HasTracerBlock(ps[k], l)
  }

  /** `start_table` names the check whose parameters the tracer must load. */
  lemma {:induction false} StartTableOwns(checks: seq<TracedCheck>, ps: Builts, l: Label)
    requires SeesPolicy(checks, ps)
    ensures OwnerName(checks, l) == (if OwnerOf(ps, l).Some? then Some(ps[OwnerOf(ps, l).value].ck.name) else None)
    decreases |ps|
  {
    hide HasTracerBlock;
    if ps != [] {
      var n := |ps| - 1;
      if !HasTracerBlock(ps[n], l) {
        StartTableOwns(checks[..n], ps[..n], l);
      }
    }
  }
}
