/** The whole system: filter, hand-off and tracer together rule as the policy says. */
module PolicyRun {
  import opened Syntax
  import opened Ir
  import opened IrGen
  import opened Merge
  import opened Cfg
  import opened Colour
  import opened Bpf
  import opened BpfGen
  import opened BpfSim
  import opened Reading
  import opened Resolve
  import opened Dispatch
  import opened Lifter
  import opened LifterProof
  import opened Preserved
  import opened Split
  import opened Check
  import opened EmitShape
  import opened CheckRun
  import opened Policy

  // ---------- Labels belong to one check ----------

  /** The labels that the check hands out. */
  predicate Owns(b: Built, l: Label) {
    l == Named(b.ck.name) || (l.Fresh? && b.at.labels < l.n <= BaseAfter(b).labels)
  }

  lemma {:induction false} LabelsAreOwn(b: Built, k: nat)
    requires WellTyped(b.ck.body) && BlocksOf(b.ck, b.at, b.bs) && k < |b.bs|
    ensures Owns(b, b.bs[k].label_)
  {
    hide StmtCode, Edges, Shaped, WellTyped;
    var c, heads := RawCode(b.ck, b.at), Heads(RawCode(b.ck, b.at), None);
    assert MarksWithin(c, b.at.labels, BaseAfter(b).labels) by {
      StmtCodeShape(b.ck.body, b.at.labels, b.at.ids);
      ShapedMarks(c, b.at.labels, BaseAfter(b).labels);
    }
    assert b.bs[k] in b.bs;
    BlockWithin(b.bs, b.bs[k]);
    var l := b.bs[k].label_;
    if l != Named(b.ck.name) {
      assert Mark(l) in CheckCode(b.ck, b.at);
      PassesKeepInstructions(c);
      var i :| i in c && Mark(l) == Retarget(heads, i);
    }
  }

  lemma {:induction false} ShapedMarks(c: Code, lo: nat, hi: nat)
    requires Shaped(c, {}, lo, hi)
    ensures MarksWithin(c, lo, hi) && lo <= hi
  {
  }

  predicate DistinctNames(ps: Builts) {
    forall i, j | 0 <= i < j < |ps| :: ps[i].ck.name != ps[j].ck.name
  }

  lemma {:induction false} Later(ps: Builts, at: Base, n: nat, k: nat)
    requires InSequence(ps, at, n) && k < |ps|
    ensures WellBuilt(ps[k]) && at.labels <= ps[k].at.labels && n <= ps[k].n
    ensures k > 0 ==> BaseAfter(ps[0]).labels <= ps[k].at.labels
  {
    hide WellBuilt, BaseAfter, Table;
    if k > 0 {
      Grows(ps[0]);
      Later(ps[1..], BaseAfter(ps[0]), n + |Table(ps[0])|, k - 1);
    }
  }

  lemma {:induction false} Grows(b: Built)
    requires WellBuilt(b)
    ensures b.at.labels <= BaseAfter(b).labels
  {
    hide StmtCode, FilterOf, BlocksOf;
    StmtCodeShape(b.ck.body, b.at.labels, b.at.ids);
  }

  /** No label belongs to two checks, unless it is the name of both. */
  lemma {:induction false} OneOwner(ps: Builts, at: Base, n: nat, i: nat, j: nat, l: Label)
    requires InSequence(ps, at, n) && i < j < |ps|
    ensures Owns(ps[i], l) && Owns(ps[j], l) ==> l == Named(ps[i].ck.name) && ps[i].ck.name == ps[j].ck.name
  {
    hide WellBuilt, BaseAfter, Table;
    if i == 0 {
      Later(ps, at, n, j);
    } else {
      OneOwner(ps[1..], BaseAfter(ps[0]), n + |Table(ps[0])|, i - 1, j - 1, l);
    }
  }

  /** No two checks have a tracer block of the same label: none of one name are both entered
      where only the tracer can go on. */
  ghost predicate TracersApart(ps: Builts) {
    forall i, j, l | 0 <= i < j < |ps| :: !(HasTracerBlock(ps[i], l) && HasTracerBlock(ps[j], l))
  }

  /** Checks with different names have different labels. */
  lemma {:induction false} NamesApart(ps: Builts, at: Base, n: nat)
    requires InSequence(ps, at, n) && DistinctNames(ps)
    ensures TracersApart(ps)
  {
    hide WellBuilt, BaseAfter, Table, HasTracerBlock, InSequence, Owns;
    forall i, j, l | 0 <= i < j < |ps|
      ensures !(HasTracerBlock(ps[i], l) && HasTracerBlock(ps[j], l))
    {
      if HasTracerBlock(ps[i], l) && HasTracerBlock(ps[j], l) {
        Later(ps, at, n, i);
        Later(ps, at, n, j);
        TracerBlockIsOwn(ps[i], l);
        TracerBlockIsOwn(ps[j], l);
        OneOwner(ps, at, n, i, j, l);
      }
    }
  }

  // ---------- Labels in the tracer's text ----------

  /** Every label in the lines is the label of a lifted block. */
  predicate LiftedLabels(x: Job, ls: Lines) {
    forall l | l in ls && l.LabelC? :: exists k | k in x.lifted && k < |x.bs| :: x.bs[k].label_ == l.lbl
  }

  lemma {:induction false} BlockLiftedLabels(x: Job, k: nat)
    requires WellFormedJob(x) && k in x.lifted
    ensures LiftedLabels(x, BlockLines(x, k))
    decreases |x.bs| - k, 1, 0
  {
    LiftedTargets(x, k, x.bs[k].insts);
    assert k < |x.bs|;
    hide WellFormedJob, BlockCode, CodeLines, Refs;
    CodeLiftedLabels(x, k, BlockCode(x, k));
  }

  lemma {:induction false} CodeLiftedLabels(x: Job, k: nat, ps: seq<PCode>)
    requires WellFormedJob(x) && k in x.lifted && TargetsFrom(x, k, ps)
    ensures LiftedLabels(x, CodeLines(x, k, ps))
    decreases |x.bs| - k, 0, |ps|
  {
    assert k < |x.bs|;
    hide WellFormedJob, ArmLines;
    if ps != [] {
      assert ps[0] in ps && TargetsFrom(x, k, ps[1..]);
      CodeLiftedLabels(x, k, ps[1..]);
      if ps[0].PIf? {
        ArmLiftedLabels(x, k, ps[0].t);
        ArmLiftedLabels(x, k, ps[0].f);
      }
    }
  }

  lemma {:induction false} ArmLiftedLabels(x: Job, k: nat, l: Label)
    requires WellFormedJob(x) && k in x.lifted
    requires Find(x.bs, k + 1, l).Some? && Find(x.bs, k + 1, l).value in x.lifted
    ensures LiftedLabels(x, ArmLines(x, k, l))
    decreases |x.bs| - k, 0, 0
  {
    hide WellFormedJob, BlockLines, Inlined;
    if Inlined(x, l) {
      BlockLiftedLabels(x, Find(x.bs, k + 1, l).value);
    }
  }

  lemma {:induction false} ProgramLiftedLabels(x: Job, k: nat)
    requires WellFormedJob(x) && k <= |x.bs|
    ensures LiftedLabels(x, ProgramLines(x, k))
    decreases |x.bs| - k
  {
    hide WellFormedJob, BlockLines, Inlined;
    if k < |x.bs| {
      ProgramLiftedLabels(x, k + 1);
      if k in x.lifted && !Inlined(x, x.bs[k].label_) {
        BlockLiftedLabels(x, k);
      }
    }
  }

  lemma {:induction false} TextLabels(b: Built, l: Label)
    requires LabelC(l) in Text(b)
    ensures HasTracerBlock(b, l)
  {
    var x := JobOf(b.ck, b.at, b.bs, b.n);
    hide WellFormedJob, Coloured, TableOf, ProgramLines;
    ProgramLiftedLabels(x, 0);
  }

  lemma {:induction false} TracerBlockIsOwn(b: Built, l: Label)
    requires WellBuilt(b) && HasTracerBlock(b, l)
    ensures Owns(b, l)
  {
    hide FilterOf, WellTyped, BlocksOf, Coloured, Owns;
    var k: nat :| k < |b.bs| && Coloured(b.bs, k) && b.bs[k].label_ == l;
    LabelsAreOwn(b, k);
  }

  // ---------- Text with more text around it ----------

  lemma {:induction false} SkipArmExtends(ls: Lines, more: Lines, depth: nat)
    requires SkipArm(ls, depth) != []
    ensures SkipArm(ls + more, depth) == SkipArm(ls, depth) + more
  {
    var rest := ls[1..];
    assert (ls + more)[0] == ls[0] && (ls + more)[1..] == rest + more;
    if ls[0].IfC? {
      SkipArmExtends(rest, more, depth + 1);
    } else if ls[0].EndC? {
      if depth > 0 {
        SkipArmExtends(rest, more, depth - 1);
      }
    } else if !(ls[0].ElseC? && depth == 0) {
      SkipArmExtends(rest, more, depth);
    }
  }

  /** A run that ends in a decision does not look at the text behind. */
  lemma {:induction false} RunExtends(m: Machine, ls: Lines, more: Lines, loc: Env, regs: Env)
    requires RunC(m, ls, loc, regs).Done?
    ensures RunC(m, ls + more, loc, regs) == RunC(m, ls, loc, regs)
    decreases |ls|, 0
  {
    hide Compare, Eval, SkipArm;
    var rest := ls[1..];
    assert (ls + more)[0] == ls[0] && (ls + more)[1..] == rest + more;
    match ls[0] {
      case LabelC(_) => RunExtends(m, rest, more, loc, regs);
      case EndC => RunExtends(m, rest, more, loc, regs);
      case AssignC(x, e) => RunExtends(m, rest, more, loc[x := Eval(m, e, loc)], regs);
      case CopyBackC(x) => RunExtends(m, rest, more, loc, regs[x := Lookup(loc, x)]);
      case SetArgC(x, e) => RunExtends(m, rest, more, loc, regs[x := Eval(m, e, loc)]);
      case IfC(l, op, r) =>
        if Compare(op, Eval(m, l, loc), Eval(m, r, loc)) {
          RunExtends(m, rest, more, loc, regs);
        } else {
          RunExtendsArm(m, rest, more, loc, regs);
        }
      case ElseC => RunExtendsArm(m, rest, more, loc, regs);
      case GotoC(l) =>
        AfterLabelConcat(rest, more, l);
        RunExtends(m, AfterLabel(rest, l), more, loc, regs);
      case _ =>
    }
  }

  lemma {:induction false} RunExtendsArm(m: Machine, ls: Lines, more: Lines, loc: Env, regs: Env)
    requires RunC(m, SkipArm(ls, 0), loc, regs).Done?
    ensures RunC(m, SkipArm(ls + more, 0), loc, regs) == RunC(m, SkipArm(ls, 0), loc, regs)
    decreases |ls|, 1
  {
    hide SkipArm;
    assert SkipArm(ls, 0) != [];
    SkipArmExtends(ls, more, 0);
    RunExtends(m, SkipArm(ls, 0), more, loc, regs);
  }

  /** None of the labels is the label of a tracer block of the check. */
  ghost predicate ForeignTo(before: seq<Label>, b: Built) {
    forall l | l in before :: !HasTracerBlock(b, l)
  }

  lemma {:induction false} TableIsTracer(b: Built, l: Label)
    requires WellBuilt(b) && l in Table(b)
    ensures HasTracerBlock(b, l)
  {
    hide FilterOf, WellTyped, BlocksOf, TableOf, Coloured, Only;
    HandOffIsOnly(b.bs, b.n, l);
    var j: nat :| j < |b.bs| && Only(b.bs, j) && b.bs[j].label_ == l;
    OnlyIsColoured(b.bs, j);
  }

  /** Behind labels of other checks the text of a check is what it is by itself. */
  lemma {:induction false} ForeignText(b: Built, before: seq<Label>)
    requires WellBuilt(b) && ForeignTo(before, b)
    ensures TextAfter(b, before) == Text(b)
  {
    hide WellTyped, BlocksOf, FilterOf, TableOf, TextOf, HasTracerBlock, VariablesDeclared, Ordered;
    forall l
      ensures l in before + Table(b) && HasTracerBlock(b, l) <==> l in Table(b)
    {
      if l in Table(b) {
        TableIsTracer(b, l);
      }
    }
    assert JobOf(b.ck, b.at, b.bs, b.n).iface == PointsOf(b, before);
  }

  /** In the text of all checks, the label of one is where its own text has it. */
  lemma {:induction false} FoundInTracer(ps: Builts, at: Base, n: nat, before: seq<Label>, k: nat, l: Label)
    returns (more: Lines)
    requires InSequence(ps, at, n) && TracersApart(ps) && k < |ps| && LabelC(l) in Text(ps[k])
    requires forall b | b in ps :: ForeignTo(before, b)
    ensures var text := TextsAfter(ps, before);
      LabelC(l) in text && AfterLabel(text, l) == AfterLabel(Text(ps[k]), l) + more
    decreases k
  {
    hide WellBuilt, BaseAfter, Text, AfterLabel, Table, TextAfter, HasTracerBlock;
    var after := before + Table(ps[0]);
    var rest := TextsAfter(ps[1..], after);
    assert ps[0] in ps;
    ForeignText(ps[0], before);
    if k == 0 {
      more := rest;
    } else {
      forall b | b in ps[1..]
        ensures ForeignTo(after, b)
      {
        TableIsForeignTo(ps, before, b);
      }
      more := FoundInTracer(ps[1..], BaseAfter(ps[0]), n + |Table(ps[0])|, after, k - 1, l);
      TextLabels(ps[k], l);
      if LabelC(l) in Text(ps[0]) {
        TextLabels(ps[0], l);
      }
    }
    AfterLabelConcat(Text(ps[0]), rest, l);
  }

  lemma {:induction false} TableIsForeignTo(ps: Builts, before: seq<Label>, b: Built)
    requires ps != [] && WellBuilt(ps[0]) && TracersApart(ps) && b in ps[1..] && ForeignTo(before, b)
    ensures ForeignTo(before + Table(ps[0]), b)
  {
    hide WellBuilt, Table, HasTracerBlock;
    var j :| 0 <= j < |ps[1..]| && ps[1..][j] == b;
    assert ps[j + 1] == b;
    forall l | l in before + Table(ps[0])
      ensures !HasTracerBlock(b, l)
    {
      if l in Table(ps[0]) {
        TableIsTracer(ps[0], l);
      }
    }
  }

  // ---------- Tables ----------

  /** Number `d` of check `k` is in `jmp_table` where the check has it in its own table. */
  lemma {:induction false} JmpTableAt(ps: Builts, at: Base, n: nat, k: nat, d: nat)
    requires InSequence(ps, at, n) && k < |ps| && ps[k].n <= d < ps[k].n + |Table(ps[k])|
    ensures n <= d < n + |JmpTable(ps)| && JmpTable(ps)[d - n] == Table(ps[k])[d - ps[k].n]
  {
    hide WellBuilt, BaseAfter, Table;
    if k > 0 {
      JmpTableAt(ps[1..], BaseAfter(ps[0]), n + |Table(ps[0])|, k - 1, d);
    }
  }

  /** `start_table` leads to the check whose text has the label. */
  lemma {:induction false} OwnerIsRight(ps: Builts, k: nat, l: Label)
    requires TracersApart(ps) && k < |ps| && HasTracerBlock(ps[k], l)
    ensures OwnerOf(ps, l) == Some(k)
  {
    hide OwnerOf, HasTracerBlock;
    OwnerExists(ps, l, k);
    var r := OwnerOf(ps, l).value;
    assert k <= r;
    LabelsApart(ps, k, r, l);
  }

  lemma {:induction false} LabelsApart(ps: Builts, i: nat, j: nat, l: Label)
    requires TracersApart(ps) && i <= j < |ps| && HasTracerBlock(ps[i], l) && HasTracerBlock(ps[j], l)
    ensures i == j
  {
    hide HasTracerBlock;
  }

  lemma {:induction false} OwnerExists(ps: Builts, l: Label, k: nat)
    requires k < |ps| && HasTracerBlock(ps[k], l)
    ensures var r := OwnerOf(ps, l); r.Some? && r.value < |ps| && HasTracerBlock(ps[r.value], l)
  {
    hide HasTracerBlock;
  }

  // ---------- The filter's labels and offsets ----------

  lemma {:induction false} LinesJumpToLabels(i: Inst, st: GenState, idx: ArgIndex)
    requires GenInst(i, st, idx).Some?
    ensures ZeroOffsets(GenInst(i, st, idx).value.0)
  {
    hide OpBits, AddressMode, KField, InScratch, ReturnAction;
  }

  lemma {:induction false} ZeroOffsetsConcat(a: Filters, b: Filters)
    ensures ZeroOffsets(a + b) <==> ZeroOffsets(a) && ZeroOffsets(b)
  {
    assert forall f | f in a :: f in a + b;
    assert forall f | f in b :: f in a + b;
  }

  lemma {:induction false} GenJumpsToLabels(c: Code, st: GenState, idx: ArgIndex)
    requires GenAll(c, st, idx).Some?
    ensures ZeroOffsets(GenAll(c, st, idx).value)
  {
    hide GenInst, ZeroOffsets;
    if c == [] {
      assert ZeroOffsets([]) by { NothingJumps(); }
    } else {
      var x := GenInst(c[0], st, idx).value;
      LinesJumpToLabels(c[0], st, idx);
      GenJumpsToLabels(c[1..], x.1, idx);
      ZeroOffsetsConcat(x.0, GenAll(c[1..], x.1, idx).value);
    }
  }

  lemma {:induction false} NothingJumps()
    ensures ZeroOffsets([])
  {
  }

  /** The filter of a check marks fresh labels only: its first label is left out. */
  lemma {:induction false} FilterMarksFresh(ck: Check, at: Base, bs: Blocks, n: nat, l: Label)
    requires GoodBlocks(ck, at, bs) && Mark(l) in FilterIr(bs, n)
    ensures l.Fresh?
  {
    hide GoodBlocks, FilterIr;
    GoodIsOrdered(ck, at, bs);
    FilterMarks(bs, n, l);
    var j :| 1 <= j < |bs| && bs[j].label_ == l;
    OtherLabelsFresh(ck, at, bs, j);
  }

  lemma {:induction false} OtherLabelsFresh(ck: Check, at: Base, bs: Blocks, j: nat)
    requires GoodBlocks(ck, at, bs) && 1 <= j < |bs|
    ensures bs[j].label_.Fresh?
  {
    assert GoodBlock(ck, at, bs, j);
    assert Flat(bs)[0] == Mark(bs[0].label_);
  }

  /** What the dispatch chain asks of the filter of a check. */
  lemma {:induction false} FilterFits(b: Built)
    requires WellBuilt(b)
    ensures NoNamedLabels(FilterOf(b.ck, b.bs, b.n).value) && ZeroOffsets(FilterOf(b.ck, b.bs, b.n).value)
  {
    hide FilterIr, ZeroOffsets, ArgIndexOf, GenAll, WellTyped, BlocksOf, VariablesDeclared, Owns;
    FilterIsGen(b.ck, b.bs, b.n);
    GenJumpsToLabels(FilterIr(b.bs, b.n), EMPTY_STATE, ArgIndexOf(b.ck.params));
    hide FilterOf;
    forall f | f in FilterOf(b.ck, b.bs, b.n).value && f.LabelLine?
      ensures f.lbl.Fresh?
    {
      FilterLabels(b, f.lbl);
    }
  }

  lemma {:induction false} ChainJumps(es: seq<Entry>, dflt: Label)
    requires forall e | e in es :: ZeroOffsets(e.body)
    ensures ZeroOffsets(Chain(es, dflt))
  {
    if es != [] {
      hide ZeroOffsets, TestK;
      assert es[0] in es;
      var next := Dispatch.Next(es[1..], dflt);
      ChainJumps(es[1..], dflt);
      HeadJumps(es[0].name, es[0].nr, next);
      ZeroOffsetsConcat([LabelLine(Named(es[0].name)), TestK(EQ, es[0].nr, next)], es[0].body);
      ZeroOffsetsConcat(EntryLines(es[0], next), Chain(es[1..], dflt));
    } else {
      NothingJumps();
    }
  }

  lemma {:induction false} HeadJumps(name: string, nr: Word, next: Label)
    ensures ZeroOffsets([LabelLine(Named(name)), TestK(EQ, nr, next)])
  {
  }

  lemma {:induction false} ProgramJumps(es: seq<Entry>, defaultDeny: bool)
    requires es != [] && forall e | e in es :: ZeroOffsets(e.body)
    ensures ZeroOffsets(Program(es, defaultDeny))
  {
    var first, dflt := Named(es[0].name), DefaultLabel(defaultDeny);
    assert ZeroOffsets(Prologue(first)) && ZeroOffsets(Epilogue(defaultDeny));
    hide ZeroOffsets, Prologue, Epilogue, Chain;
    ChainJumps(es, dflt);
    ZeroOffsetsConcat(Chain(es, dflt), Epilogue(defaultDeny));
    ZeroOffsetsConcat(Prologue(first), Chain(es, dflt) + Epilogue(defaultDeny));
  }

  // ---------- Arguments ----------

  lemma {:induction false} EnvMatches(params: seq<string>, data: Data)
    requires |params| <= |data.args|
    ensures Matches(EnvOf(params, data.args), ArgIndexOf(params), data)
  {
  }

  /** Arguments that were not assigned are in their registers as they were. */
  lemma {:induction false} UnassignedRegisters(params: seq<string>, args: seq<Word>)
    requires |params| <= |args|
    ensures Registers(params, args, EnvOf(params, args)) == args
  {
  }

  // ---------- The entries of a policy ----------

  predicate PlainNames(ps: Builts) {
    forall b | b in ps :: b.ck.name != "__deny" && b.ck.name != "__allow"
  }

  /** The checks as they are built, in sequence from nothing. */
  ghost predicate WellBuiltPolicy(ps: Builts) {
    ps != [] && InSequence(ps, Base(0, 0), 0) && PlainNames(ps)
  }

  /** The lines of a check's filter mark fresh labels of the check. */
  lemma {:induction false} FilterLabels(b: Built, l: Label)
    requires WellBuilt(b) && LabelLine(l) in FilterOf(b.ck, b.bs, b.n).value
    ensures Owns(b, l) && l.Fresh?
  {
    CompiledIsGood(b.ck, b.at, b.bs, b.n);
    hide GoodBlocks, BlocksOf, FilterIr, ArgIndexOf, GenAll, WellTyped, FilterOf, Owns, Emitted;
    FilterIsGen(b.ck, b.bs, b.n);
    GenLabels(FilterIr(b.bs, b.n), EMPTY_STATE, ArgIndexOf(b.ck.params), l);
    FilterMarksFresh(b.ck, b.at, b.bs, b.n, l);
    GoodIsOrdered(b.ck, b.at, b.bs);
    FilterMarks(b.bs, b.n, l);
    var j :| 1 <= j < |b.bs| && b.bs[j].label_ == l && Emitted(b.bs, j);
    LabelsAreOwn(b, j);
  }

  lemma {:induction false} EntriesFit(ps: Builts, nrs: Numbers)
    requires WellBuiltPolicy(ps)
    ensures PlainEntries(Entries(ps, nrs)) && Separate(Entries(ps, nrs))
    ensures forall e | e in Entries(ps, nrs) :: ZeroOffsets(e.body)
  {
    hide WellBuilt, FilterOf, JmpTable, ZeroOffsets, NoNamedLabels, EntryOf, LinesApart;
    var es := Entries(ps, nrs);
    forall e | e in es
      ensures NoNamedLabels(e.body) && ZeroOffsets(e.body) && e.name != "__deny" && e.name != "__allow"
    {
      var k :| 0 <= k < |es| && es[k] == e;
      assert ps[k] in ps;
      Later(ps, Base(0, 0), 0, k);
      EntryIs(ps[k], nrs);
      FilterFits(ps[k]);
    }
    forall i, j | 0 <= i < j < |es|
      ensures LinesApart(es[i].body, es[j].body)
    {
      EntriesApart(ps, nrs, i, j);
    }
  }

  lemma {:induction false} EntryIs(b: Built, nrs: Numbers)
    requires WellBuilt(b)
    ensures EntryOf(b, nrs) == Entry(b.ck.name, NumberOf(nrs, b.ck.name), FilterOf(b.ck, b.bs, b.n).value)
  {
    hide FilterOf;
  }

  lemma {:induction false} EntriesDiffer(ps: Builts, nrs: Numbers)
    ensures DifferentEntries(Entries(ps, nrs)) <==> DistinctNames(ps)
  {
    hide FilterOf;
    var es := Entries(ps, nrs);
    assert forall k | 0 <= k < |ps| :: es[k].name == ps[k].ck.name;
    hide Entries, EntryOf;
    if DifferentEntries(es) {
      forall i, j | 0 <= i < j < |ps|
        ensures ps[i].ck.name != ps[j].ck.name
      {
        assert es[i].name != es[j].name;
      }
    }
  }

  lemma {:induction false} EntriesApart(ps: Builts, nrs: Numbers, i: nat, j: nat)
    requires WellBuiltPolicy(ps) && i < j < |ps|
    ensures LinesApart(EntryOf(ps[i], nrs).body, EntryOf(ps[j], nrs).body)
  {
    hide WellBuilt, FilterOf, Owns, EntryOf, InSequence;
    Later(ps, Base(0, 0), 0, i);
    Later(ps, Base(0, 0), 0, j);
    EntryIs(ps[i], nrs);
    EntryIs(ps[j], nrs);
    forall f | f in EntryOf(ps[i], nrs).body && f.LabelLine?
      ensures f !in EntryOf(ps[j], nrs).body
    {
      FilterLabels(ps[i], f.lbl);
      if f in EntryOf(ps[j], nrs).body {
        FilterLabels(ps[j], f.lbl);
        OneOwner(ps, Base(0, 0), 0, i, j, f.lbl);
      }
    }
  }

  lemma {:induction false} SameChoice(ps: Builts, nrs: Numbers, nr: Word)
    ensures var k := FindEntry(Entries(ps, nrs), nr);
      CheckFor(Checks(ps), nrs, nr) == (if k.Some? then Some(ps[k.value].ck) else None)
  {
    if ps != [] {
      ChoiceStep(ps, nrs, nr);
      hide *;
      if NumberOf(nrs, ps[0].ck.name) != nr {
        SameChoice(ps[1..], nrs, nr);
        TailCheck(ps, FindEntry(Entries(ps[1..], nrs), nr));
      }
    } else {
      assert Checks(ps) == [] && Entries(ps, nrs) == [];
    }
  }

  lemma {:induction false} ChoiceStep(ps: Builts, nrs: Numbers, nr: Word)
    requires ps != []
    ensures FindEntry(Entries(ps, nrs), nr) ==
      if NumberOf(nrs, ps[0].ck.name) == nr then Some(0)
      else
        var k := FindEntry(Entries(ps[1..], nrs), nr);
        if k.Some? then Some(k.value + 1) else None
    ensures CheckFor(Checks(ps), nrs, nr) ==
      if NumberOf(nrs, ps[0].ck.name) == nr then Some(ps[0].ck) else CheckFor(Checks(ps[1..]), nrs, nr)
    ensures |Entries(ps[1..], nrs)| == |ps| - 1
  {
    hide *;
    EntriesStep(ps, nrs);
    FindStep(Entries(ps, nrs), nr);
    ChecksStep(ps);
    CheckForStep(Checks(ps), nrs, nr);
  }

  lemma {:induction false} EntriesStep(ps: Builts, nrs: Numbers)
    requires ps != []
    ensures |Entries(ps, nrs)| == |ps| && |Entries(ps[1..], nrs)| == |ps| - 1
    ensures Entries(ps, nrs)[0].nr == NumberOf(nrs, ps[0].ck.name) && Entries(ps, nrs)[1..] == Entries(ps[1..], nrs)
  {
    hide FilterOf, NumberOf;
    assert EntryOf(ps[0], nrs).nr == NumberOf(nrs, ps[0].ck.name);
    hide EntryOf;
  }

  lemma {:induction false} FindStep(es: seq<Entry>, nr: Word)
    requires es != []
    ensures FindEntry(es, nr) ==
      if es[0].nr == nr then Some(0)
      else
        var k := FindEntry(es[1..], nr);
        if k.Some? then Some(k.value + 1) else None
  {
  }

  lemma {:induction false} ChecksStep(ps: Builts)
    requires ps != []
    ensures Checks(ps) != [] && Checks(ps)[0] == ps[0].ck && Checks(ps)[1..] == Checks(ps[1..])
  {
  }

  lemma {:induction false} CheckForStep(cks: seq<Check>, nrs: Numbers, nr: Word)
    requires cks != []
    ensures CheckFor(cks, nrs, nr) ==
      if NumberOf(nrs, cks[0].name) == nr then Some(cks[0]) else CheckFor(cks[1..], nrs, nr)
  {
    hide NumberOf;
  }

  lemma {:induction false} TailCheck(ps: Builts, k: Option<nat>)
    requires ps != [] && (k.Some? ==> k.value < |ps| - 1)
    ensures k.Some? ==> ps[1..][k.value] == ps[k.value + 1]
  {
  }

  // ---------- The theorem ----------

  lemma {:induction false} TableEnds(ps: Builts, at: Base, n: nat, k: nat)
    requires InSequence(ps, at, n) && k < |ps|
    ensures ps[k].n + |Table(ps[k])| <= n + |JmpTable(ps)|
  {
    hide WellBuilt, BaseAfter, Table;
    if k > 0 {
      TableEnds(ps[1..], BaseAfter(ps[0]), n + |Table(ps[0])|, k - 1);
    }
  }

  function Acted(act: Action, args: seq<Word>, traced: Option<Ruling>): Option<Ruling> {
    match act
    case RetAllow => Some(Ruling(Allow, args))
    case RetKill => Some(Ruling(Deny, args))
    case RetTrace(_) => traced
  }

  /** A hand-off of check `k` is continued by the tracer with the parameters of that check, in
      the text of that check. */
  lemma {:induction false} TracedRules(m: Machine, ps: Builts, k: nat, d: nat, args: seq<Word>, flow: Flow)
    requires WellBuiltPolicy(ps) && TracersApart(ps) && k < |ps| && |ps[k].ck.params| <= |args|
    requires ps[k].n <= d < ps[k].n + |Table(ps[k])|
    requires Continues(m, Text(ps[k]), Table(ps[k])[d - ps[k].n], EnvOf(ps[k].ck.params, args), flow)
    ensures flow.Stop? && Traced(m, ps, d, args) == Some(Ruling(flow.perm, Registers(ps[k].ck.params, args, flow.env)))
  {
    hide InSequence, JmpTable, Table, Text, TextsAfter, RunC, OwnerOf, Registers, EnvOf, HasTracerBlock, TracersApart;
    var l := Table(ps[k])[d - ps[k].n];
    JmpTableAt(ps, Base(0, 0), 0, k, d);
    TextLabels(ps[k], l);
    OwnerIsRight(ps, k, l);
    var more := FoundInTracer(ps, Base(0, 0), 0, [], k, l);
    var env := EnvOf(ps[k].ck.params, args);
    RunExtends(m, AfterLabel(Text(ps[k]), l), more, env, env);
  }

  /** The number that the chain compares, in A, and what X holds from the start. */
  function AtEntry(m: Machine, data: Data): Regs {
    Regs(SyscallNr(m, data), 0)
  }

  /** The filter of check `k`, entered in whatever state, settles on an action that, with the
      tracer, is the check's ruling. */
  lemma {:induction false} EntryRules(m: Machine, ps: Builts, k: nat, data: Data, r: Regs) returns (act: Action)
    requires WellBuiltPolicy(ps) && TracersApart(ps) && k < |ps| && |ps[k].ck.params| <= |data.args|
    requires m.jumps && WellBuilt(ps[k]) && |JmpTable(ps)| <= 0x1_0000
    requires AsMeant(m, ps[k].ck, ps[k].at, ps[k].bs, ps[k].n, EnvOf(ps[k].ck.params, data.args), r)
    ensures Settles(m, data, FilterOf(ps[k].ck, ps[k].bs, ps[k].n).value, r.a, r.x, act)
    ensures var traced := if act.RetTrace? then Traced(m, ps, act.data, data.args) else None;
      forall defaultDeny :: Acted(act, data.args, traced) == Some(RulingOf(m, Some(ps[k].ck), defaultDeny, data.args))
  {
    hide Exec, Settles, TracersApart, Registers, EnvOf, TextOf, JobOf, Continues, Traced, FilterOf, TableOf, Matches,
      AsMeant, WellTyped, BlocksOf, VariablesDeclared;
    var b, env := ps[k], EnvOf(ps[k].ck.params, data.args);
    TableEnds(ps, Base(0, 0), 0, k);
    EnvMatches(b.ck.params, data);
    act := CheckRules(m, b.ck, b.at, b.bs, b.n, data, env, r);
    UnassignedRegisters(b.ck.params, data.args);
    if act.RetTrace? {
      TracedRules(m, ps, k, act.data, data.args, Exec(m, b.ck.body, env));
    }
  }

  /** The assembled filter runs as the labelled program does. */
  lemma {:induction false} AssembledRuns(m: Machine, ps: Builts, nrs: Numbers, defaultDeny: bool, data: Data)
    requires WellBuiltPolicy(ps) && NarrowOffsets(ResolvedFilter(ps, nrs, defaultDeny))
    ensures RunF(m, data, Assembled(ResolvedFilter(ps, nrs, defaultDeny)), 0, 0, 0) ==
      RunF(m, data, Program(Entries(ps, nrs), defaultDeny), 0, 0, 0)
  {
    hide RunF, FilterOf, InSequence, Program, Resolved, Assembled;
    var es := Entries(ps, nrs);
    EntriesFit(ps, nrs);
    ProgramJumps(es, defaultDeny);
    AssembledIsSameIff(ResolvedFilter(ps, nrs, defaultDeny));
    ResolvePreserves(m, data, Program(es, defaultDeny), 0, 0, 0);
  }

  /** The check whose body the number leads to. */
  ghost function ChosenAt(m: Machine, ps: Builts, nrs: Numbers, data: Data): (r: Option<nat>)
    ensures r.Some? ==> r.value < |ps|
  {
    ChosenIsSuffix(m, data, Entries(ps, nrs));
    var s := Chosen(m, data, Entries(ps, nrs));
    if s == [] then None else Some(|ps| - |s|)
  }

  /** On these arguments, entered in this state, nothing that the check performs has become
      something else. */
  ghost predicate MeantAt(m: Machine, b: Built, data: Data, r: Regs) {
    && WellBuilt(b) && |b.ck.params| <= |data.args|
    && AsMeant(m, b.ck, b.at, b.bs, b.n, EnvOf(b.ck.params, data.args), r)
  }

  /** Nothing that the chosen check performs has. */
  ghost predicate PolicyAsMeant(m: Machine, ps: Builts, nrs: Numbers, data: Data) {
    var k := ChosenAt(m, ps, nrs, data);
    data.arch == T_ARCH && k.Some? ==> MeantAt(m, ps[k.value], data, AtEntry(m, data))
  }

  function CheckAt(ps: Builts, k: Option<nat>): Option<Check>
    requires k.Some? ==> k.value < |ps|
  {
    if k.Some? then Some(ps[k.value].ck) else None
  }

  /** End to end: for every policy of compiled checks, every interpretation of the helpers, and
      every syscall on which nothing that is performed has become something else, the assembled
      filter and, where it hands off, the lifted text of the tracer let the syscall go ahead, or
      deny it, as the check that the number leads to says, and leave it the arguments that that
      check says. */
  lemma {:induction false} PolicyRuns(m: Machine, ps: Builts, nrs: Numbers, defaultDeny: bool, data: Data)
    requires WellBuiltPolicy(ps) && TracersApart(ps) && (forall b | b in ps :: |b.ck.params| <= |data.args|)
    requires m.jumps && PolicyAsMeant(m, ps, nrs, data)
    requires NarrowOffsets(ResolvedFilter(ps, nrs, defaultDeny)) && |JmpTable(ps)| <= 0x1_0000
    ensures var k := ChosenAt(m, ps, nrs, data);
      && (k.Some? ==> ps[k.value] in ps)
      && Observed(m, ps, nrs, defaultDeny, data) == Some(
           if data.arch != T_ARCH then Ruling(Deny, data.args) else RulingOf(m, CheckAt(ps, k), defaultDeny, data.args))
  {
    hide *;
    PolicyHasChecks(ps);
    EntriesFit(ps, nrs);
    var es, k := Entries(ps, nrs), ChosenAt(m, ps, nrs, data);
    AssembledRuns(m, ps, nrs, defaultDeny, data);
    StartsWithNumber(m, data);
    ChosenEntry(m, ps, nrs, data);
    if data.arch != T_ARCH {
      ForeignIsKilled(m, data, es, defaultDeny);
      RulesAsActed(m, ps, nrs, defaultDeny, data, RetKill, Ruling(Deny, data.args));
    } else if k.Some? {
      ChosenIsMeant(m, ps, nrs, data, k.value);
      var act := EntryRules(m, ps, k.value, data, AtEntry(m, data));
      EntryIs(ps[k.value], nrs);
      ChosenRules(m, data, es, defaultDeny, 0, 0, 0, act);
      RulesAsActed(m, ps, nrs, defaultDeny, data, act, RulingOf(m, Some(ps[k.value].ck), defaultDeny, data.args));
      assert CheckAt(ps, k) == Some(ps[k.value].ck) by { CheckIs(ps, k); }
    } else {
      ChosenRules(m, data, es, defaultDeny, 0, 0, 0, RetKill);
      CheckIs(ps, k);
      NoneRules(m, defaultDeny, data.args);
      var act := if defaultDeny then RetKill else RetAllow;
      RulesAsActed(m, ps, nrs, defaultDeny, data, act, RulingOf(m, None, defaultDeny, data.args));
    }
  }

  /** What the chosen entry is. */
  lemma {:induction false} ChosenEntry(m: Machine, ps: Builts, nrs: Numbers, data: Data)
    ensures var k, s := ChosenAt(m, ps, nrs, data), Chosen(m, data, Entries(ps, nrs));
      && (k.None? <==> s == [])
      && (k.Some? ==> s[0] == EntryOf(ps[k.value], nrs) && ps[k.value] in ps)
  {
    hide Chosen, EntryOf;
    ChosenIsSuffix(m, data, Entries(ps, nrs));
  }

  lemma {:induction false} ChosenIsMeant(m: Machine, ps: Builts, nrs: Numbers, data: Data, k: nat)
    requires PolicyAsMeant(m, ps, nrs, data) && data.arch == T_ARCH && ChosenAt(m, ps, nrs, data) == Some(k)
    ensures WellBuilt(ps[k]) && ps[k].bs != [] && Ordered(ps[k].bs) && |ps[k].ck.params| <= |data.args|
    ensures AsMeant(m, ps[k].ck, ps[k].at, ps[k].bs, ps[k].n, EnvOf(ps[k].ck.params, data.args), AtEntry(m, data))
  {
    hide WellTyped, VariablesDeclared, BlocksOf, FilterOf, AsMeant, ChosenAt, Ordered, AtEntry;
  }

  lemma {:induction false} CheckIs(ps: Builts, k: Option<nat>)
    requires k.Some? ==> k.value < |ps|
    ensures CheckAt(ps, k) == if k.Some? then Some(ps[k.value].ck) else None
  {
  }

  lemma {:induction false} NoneRules(m: Machine, defaultDeny: bool, args: seq<Word>)
    ensures RulingOf(m, None, defaultDeny, args) == Ruling(if defaultDeny then Deny else Allow, args)
    ensures Acted(if defaultDeny then RetKill else RetAllow, args, None) == Some(RulingOf(m, None, defaultDeny, args))
  {
  }

  lemma {:induction false} RulesAsActed(m: Machine, ps: Builts, nrs: Numbers, defaultDeny: bool, data: Data,
                                        act: Action, ruling: Ruling)
    requires ps != [] && RunF(m, data, Assembled(ResolvedFilter(ps, nrs, defaultDeny)), 0, 0, 0) == Verdict(act)
    requires (act == RetKill && ruling == Ruling(Deny, data.args)) ||
      Acted(act, data.args, if act.RetTrace? then Traced(m, ps, act.data, data.args) else None) == Some(ruling)
    ensures Observed(m, ps, nrs, defaultDeny, data) == Some(ruling)
  {
    hide RunF, ResolvedFilter, Assembled, Traced;
  }

  /** The number leads to the check that a lookup finds. */
  ghost predicate LookedUp(m: Machine, ps: Builts, nrs: Numbers, data: Data) {
    ChosenAt(m, ps, nrs, data) == FindEntry(Entries(ps, nrs), SyscallNr(m, data))
  }

  /** With different names it always does. */
  lemma {:induction false} NamesAreLookedUp(m: Machine, ps: Builts, nrs: Numbers, data: Data)
    requires DistinctNames(ps)
    ensures LookedUp(m, ps, nrs, data)
  {
    hide Entries, Chosen, SyscallNr, FindEntry, DifferentEntries;
    EntriesDiffer(ps, nrs);
    ChosenIsLooked(m, data, Entries(ps, nrs));
  }

  /** Then the system rules as the policy says. */
  lemma {:induction false} PolicyRules(m: Machine, ps: Builts, nrs: Numbers, defaultDeny: bool, data: Data)
    requires WellBuiltPolicy(ps) && TracersApart(ps) && (forall b | b in ps :: |b.ck.params| <= |data.args|)
    requires m.jumps && LookedUp(m, ps, nrs, data) && PolicyAsMeant(m, ps, nrs, data)
    requires NarrowOffsets(ResolvedFilter(ps, nrs, defaultDeny)) && |JmpTable(ps)| <= 0x1_0000
    ensures forall ck | ck in Checks(ps) :: |ck.params| <= |data.args|
    ensures Observed(m, ps, nrs, defaultDeny, data) == Some(Intended(m, Checks(ps), nrs, defaultDeny, data))
  {
    hide WellBuiltPolicy, JmpTable, Observed, RulingOf, ChosenAt, PolicyAsMeant, NarrowOffsets, FindEntry, CheckFor,
      SyscallNr, TracersApart, Entries;
    SameChoice(ps, nrs, SyscallNr(m, data));
    PolicyRuns(m, ps, nrs, defaultDeny, data);
    forall ck | ck in Checks(ps)
      ensures |ck.params| <= |data.args|
    {
      var k :| 0 <= k < |ps| && Checks(ps)[k] == ck;
      assert ps[k] in ps;
    }
  }

  lemma {:induction false} ForeignIsKilled(m: Machine, data: Data, es: seq<Entry>, defaultDeny: bool)
    requires es != [] && PlainEntries(es) && data.arch != T_ARCH
    ensures RunF(m, data, Program(es, defaultDeny), 0, 0, 0) == Verdict(RetKill)
  {
    hide RunF, PlainEntries, Program;
    ProgramRun(m, data, es, defaultDeny, 0, 0, 0);
  }

  lemma {:induction false} PolicyHasChecks(ps: Builts)
    requires WellBuiltPolicy(ps)
    ensures ps != []
  {
  }

  // ---------- The supported fragment ----------

  /** Checks that are as they are meant whatever the arguments are. */
  ghost predicate SupportedPolicy(ps: Builts) {
    forall b | b in ps :: Supported(b.ck, b.at, b.bs, b.n) && Decides(b.ck.body) && ThenBranchesDecide(b.ck.body)
  }

  lemma {:induction false} SupportedPolicyIsMeant(m: Machine, ps: Builts, nrs: Numbers, data: Data)
    requires WellBuiltPolicy(ps) && SupportedPolicy(ps) && Commutes(m)
    requires (forall b | b in ps :: |b.ck.params| <= |data.args|)
    ensures PolicyAsMeant(m, ps, nrs, data)
  {
    hide Supported, Decides, ThenBranchesDecide, AsMeant, WellBuilt, Commutes, InSequence, EnvOf, ChosenAt;
    var k := ChosenAt(m, ps, nrs, data);
    if k.Some? {
      var b := ps[k.value];
      assert b in ps;
      Later(ps, Base(0, 0), 0, k.value);
      BuiltIsCompiled(b);
      SupportedIsMeant(m, b.ck, b.at, b.bs, b.n, EnvOf(b.ck.params, data.args), AtEntry(m, data));
    }
  }

  /** A policy of supported checks is ruled as it says on every syscall whose number leads to the
      check that is looked up, so on every syscall if no name is repeated. */
  lemma {:induction false} SupportedPolicyRules(m: Machine, ps: Builts, nrs: Numbers, defaultDeny: bool, data: Data)
    requires WellBuiltPolicy(ps) && SupportedPolicy(ps) && (forall b | b in ps :: |b.ck.params| <= |data.args|)
    requires DistinctNames(ps) || (TracersApart(ps) && LookedUp(m, ps, nrs, data))
    requires m.jumps && Commutes(m)
    requires NarrowOffsets(ResolvedFilter(ps, nrs, defaultDeny)) && |JmpTable(ps)| <= 0x1_0000
    ensures forall ck | ck in Checks(ps) :: |ck.params| <= |data.args|
    ensures Observed(m, ps, nrs, defaultDeny, data) == Some(Intended(m, Checks(ps), nrs, defaultDeny, data))
  {
    hide SupportedPolicy, Commutes, Observed, Intended, JmpTable, NarrowOffsets, InSequence, LookedUp, PolicyAsMeant,
      TracersApart, DistinctNames;
    if DistinctNames(ps) {
      NamesApart(ps, Base(0, 0), 0);
      NamesAreLookedUp(m, ps, nrs, data);
    }
    SupportedPolicyIsMeant(m, ps, nrs, data);
    PolicyRules(m, ps, nrs, defaultDeny, data);
  }

  lemma {:induction false} BuiltIsCompiled(b: Built)
    requires WellBuilt(b)
    ensures Compiled(b.ck, b.at, b.bs, b.n)
  {
  }

  // ---------- The whole filter, whatever its checks ----------

  /** What can be followed: filters that were generated, and arguments for all parameters. */
  ghost predicate Followable(ps: Builts, args: seq<Word>) {
    forall b | b in ps :: WellBuilt(b) && |b.ck.params| <= |args|
  }

  function DefaultVerdict(defaultDeny: bool): Verdict {
    Verdict(if defaultDeny then RetKill else RetAllow)
  }

  /** From the body of the first check on: it returns or is rejected as its code reads, or runs
      off its end and on into the tests of the checks behind it, with whatever it left in A in
      place of the number. */
  ghost function Follow(m: Machine, data: Data, ps: Builts, nrs: Numbers, defaultDeny: bool, r: Regs): Option<Verdict>
    requires ps != [] && Followable(ps, data.args)
    decreases |ps|, 0
  {
    var b := ps[0];
    assert b in ps;
    match Read(m, ArgIndexOf(b.ck.params), FilterIr(b.bs, b.n), EnvOf(b.ck.params, data.args), map[], r)
    case Settled(val) => Some(Verdict(ReturnAction(val)))
    case Rejected => Some(BadFilter)
    case Lost => None
    case RunsOn(r') => FollowFrom(m, data, ps[1..], nrs, defaultDeny, r')
  }

  /** The check that is entered with the number when control runs into the first one. */
  ghost function EnteredAt(ps: Builts, nrs: Numbers, nr: Word): (r: Option<nat>)
    ensures r.Some? ==> r.value < |ps|
  {
    EnteredIsSuffix(Entries(ps, nrs), nr);
    var s := Entered(Entries(ps, nrs), nr);
    if s == [] then None else Some(|ps| - |s|)
  }

  /** From the check that was found on, or the default. */
  ghost function FollowAt(m: Machine, data: Data, ps: Builts, k: Option<nat>, nrs: Numbers, defaultDeny: bool,
                          r: Regs): Option<Verdict>
    requires Followable(ps, data.args) && (k.Some? ==> k.value < |ps|)
    decreases |ps|, 1
  {
    if k.None? then Some(DefaultVerdict(defaultDeny)) else Follow(m, data, ps[k.value..], nrs, defaultDeny, r)
  }

  /** From the test of the first check on. */
  ghost function FollowFrom(m: Machine, data: Data, ps: Builts, nrs: Numbers, defaultDeny: bool,
                            r: Regs): Option<Verdict>
    requires Followable(ps, data.args)
    decreases |ps|, 2
  {
    FollowAt(m, data, ps, EnteredAt(ps, nrs, r.a), nrs, defaultDeny, r)
  }

  lemma {:induction false} EntriesFrom(ps: Builts, nrs: Numbers, k: nat)
    requires k <= |ps|
    ensures Entries(ps[k..], nrs) == Entries(ps, nrs)[k..]
  {
    hide EntryOf;
  }

  /** What the chain asks of its entries, from any of them on. */
  predicate Chained(es: seq<Entry>) {
    PlainEntries(es) && Separate(es)
  }

  lemma {:induction false} ChainedFrom(es: seq<Entry>, k: nat)
    requires Chained(es) && k <= |es|
    ensures Chained(es[k..])
  {
    hide NoNamedLabels, LinesApart;
    forall e | e in es[k..]
      ensures e in es
    {
    }
  }

  lemma {:induction false} BodyFollows(m: Machine, data: Data, ps: Builts, nrs: Numbers, defaultDeny: bool, r: Regs,
                                       mem: Word)
    requires ps != [] && Followable(ps, data.args) && Chained(Entries(ps, nrs))
    requires Follow(m, data, ps, nrs, defaultDeny, r).Some?
    ensures var es := Entries(ps, nrs);
      RunF(m, data, es[0].body + (Chain(es[1..], DefaultLabel(defaultDeny)) + Epilogue(defaultDeny)), r.a, r.x, mem) ==
      Follow(m, data, ps, nrs, defaultDeny, r).value
    decreases |ps|, 0
  {
    var es, b := Entries(ps, nrs), ps[0];
    var rest := Chain(es[1..], DefaultLabel(defaultDeny)) + Epilogue(defaultDeny);
    assert b in ps;
    hide RunF, Chain, Epilogue, Read, FilterIr, FilterOf, ReturnAction, WellBuilt, EnvOf, Entries, FollowFrom;
    BodyApart(es, defaultDeny);
    EntryIs(b, nrs);
    BuiltIsCompiled(b);
    CompiledIsGood(b.ck, b.at, b.bs, b.n);
    EnvMatches(b.ck.params, data);
    var mem' := FilterDoes(m, b.ck, b.at, b.bs, b.n, data, EnvOf(b.ck.params, data.args), r, rest, mem);
    var reading := Read(m, ArgIndexOf(b.ck.params), FilterIr(b.bs, b.n), EnvOf(b.ck.params, data.args), map[], r);
    if reading.RunsOn? {
      EntriesFrom(ps, nrs, 1);
      ChainedFrom(es, 1);
      ChainFollows(m, data, ps[1..], nrs, defaultDeny, reading.regs, mem');
    }
  }

  lemma {:induction false} BodyApart(es: seq<Entry>, defaultDeny: bool)
    requires es != [] && Chained(es)
    ensures LinesApart(es[0].body, Chain(es[1..], DefaultLabel(defaultDeny)) + Epilogue(defaultDeny))
  {
    hide LinesApart, Chain;
    assert es[0] in es;
    forall e | e in es[1..]
      ensures LinesApart(es[0].body, e.body)
    {
      var j :| 0 <= j < |es[1..]| && es[1..][j] == e;
      assert es[j + 1] == e;
    }
    ApartFromChain(es[1..], DefaultLabel(defaultDeny), Epilogue(defaultDeny), es[0].body);
  }

  lemma {:induction false} ChainFollows(m: Machine, data: Data, ps: Builts, nrs: Numbers, defaultDeny: bool, r: Regs,
                                        mem: Word)
    requires Followable(ps, data.args) && Chained(Entries(ps, nrs))
    requires FollowFrom(m, data, ps, nrs, defaultDeny, r).Some?
    ensures RunF(m, data, Chain(Entries(ps, nrs), DefaultLabel(defaultDeny)) + Epilogue(defaultDeny), r.a, r.x, mem) ==
      FollowFrom(m, data, ps, nrs, defaultDeny, r).value
    decreases |ps|, 1
  {
    hide *;
    var es := Entries(ps, nrs);
    ChainedParts(es);
    ChainEntered(m, data, es, defaultDeny, r.a, r.x, mem);
    EnteredIsSuffix(es, r.a);
    FromIs(m, data, ps, nrs, defaultDeny, r);
    var k := EnteredAt(ps, nrs, r.a);
    if k.Some? {
      EntriesFrom(ps, nrs, k.value);
      ChainedFrom(es, k.value);
      BodyFollows(m, data, ps[k.value..], nrs, defaultDeny, r, mem);
    }
  }

  lemma {:induction false} ChainedParts(es: seq<Entry>)
    requires Chained(es)
    ensures PlainEntries(es) && Separate(es)
  {
  }

  lemma {:induction false} FromIs(m: Machine, data: Data, ps: Builts, nrs: Numbers, defaultDeny: bool, r: Regs)
    requires Followable(ps, data.args)
    ensures var s := Entered(Entries(ps, nrs), r.a);
      var k := EnteredAt(ps, nrs, r.a);
      && (k.None? <==> s == []) &&
         (k.Some? ==> |s| <= |ps| && k.value == |ps| - |s| && Followable(ps[k.value..], data.args))
      && FollowFrom(m, data, ps, nrs, defaultDeny, r) ==
         (if k.None? then Some(Verdict(if defaultDeny then RetKill else RetAllow))
          else Follow(m, data, ps[k.value..], nrs, defaultDeny, r))
  {
    hide WellBuilt, EntryOf, Follow, Entered;
    EnteredIsSuffix(Entries(ps, nrs), r.a);
    FollowAtIs(m, data, ps, EnteredAt(ps, nrs, r.a), nrs, defaultDeny, r);
  }

  lemma {:induction false} FollowAtIs(m: Machine, data: Data, ps: Builts, k: Option<nat>, nrs: Numbers,
                                      defaultDeny: bool, r: Regs)
    requires Followable(ps, data.args) && (k.Some? ==> k.value < |ps|)
    ensures k.Some? ==> Followable(ps[k.value..], data.args)
    ensures FollowAt(m, data, ps, k, nrs, defaultDeny, r) ==
      if k.None? then Some(Verdict(if defaultDeny then RetKill else RetAllow))
      else Follow(m, data, ps[k.value..], nrs, defaultDeny, r)
  {
    hide WellBuilt, Follow;
  }

  /** What the filter does with the syscall: what the check that the number leads to does. */
  ghost function FollowStart(m: Machine, data: Data, ps: Builts, nrs: Numbers, defaultDeny: bool): Option<Verdict>
    requires Followable(ps, data.args)
  {
    FollowAt(m, data, ps, ChosenAt(m, ps, nrs, data), nrs, defaultDeny, AtEntry(m, data))
  }

  /** The assembled filter of every policy, exactly, as the readings of its checks say: also of
      checks that do not decide, of instructions that have become something else, and of names
      that are repeated. */
  lemma {:induction false} PolicyReads(m: Machine, ps: Builts, nrs: Numbers, defaultDeny: bool, data: Data)
    requires WellBuiltPolicy(ps) && Followable(ps, data.args) && NarrowOffsets(ResolvedFilter(ps, nrs, defaultDeny))
    ensures data.arch != T_ARCH ==>
      RunF(m, data, Assembled(ResolvedFilter(ps, nrs, defaultDeny)), 0, 0, 0) == Verdict(RetKill)
    ensures var v := FollowStart(m, data, ps, nrs, defaultDeny);
      data.arch == T_ARCH && v.Some? ==>
        RunF(m, data, Assembled(ResolvedFilter(ps, nrs, defaultDeny)), 0, 0, 0) == v.value
  {
    hide *;
    var es, k := Entries(ps, nrs), ChosenAt(m, ps, nrs, data);
    PolicyHasChecks(ps);
    EntriesFit(ps, nrs);
    AssembledRuns(m, ps, nrs, defaultDeny, data);
    ProgramChooses(m, data, es, defaultDeny);
    StartIs(m, data, ps, nrs, defaultDeny);
    if k.Some? && FollowStart(m, data, ps, nrs, defaultDeny).Some? {
      ChainedWhole(es);
      ChosenIsSuffix(m, data, es);
      EntriesFrom(ps, nrs, k.value);
      ChainedFrom(es, k.value);
      BodyFollowsAtStart(m, data, ps[k.value..], nrs, defaultDeny);
    }
  }

  lemma {:induction false} StartIs(m: Machine, data: Data, ps: Builts, nrs: Numbers, defaultDeny: bool)
    requires Followable(ps, data.args)
    ensures var s := Chosen(m, data, Entries(ps, nrs));
      var k := ChosenAt(m, ps, nrs, data);
      && (k.None? <==> s == []) &&
         (k.Some? ==> |s| <= |ps| && k.value == |ps| - |s| && Followable(ps[k.value..], data.args))
      && FollowStart(m, data, ps, nrs, defaultDeny) ==
         (if k.None? then Some(Verdict(if defaultDeny then RetKill else RetAllow))
          else Follow(m, data, ps[k.value..], nrs, defaultDeny, AtEntry(m, data)))
  {
    hide WellBuilt, EntryOf, Follow, Chosen;
    ChosenIsSuffix(m, data, Entries(ps, nrs));
    FollowAtIs(m, data, ps, ChosenAt(m, ps, nrs, data), nrs, defaultDeny, AtEntry(m, data));
  }

  lemma {:induction false} StartsWithNumber(m: Machine, data: Data)
    ensures AtEntry(m, data) == Regs(SyscallNr(m, data), 0)
  {
  }

  lemma {:induction false} ChainedWhole(es: seq<Entry>)
    requires PlainEntries(es) && Separate(es)
    ensures Chained(es)
  {
  }

  lemma {:induction false} BodyFollowsAtStart(m: Machine, data: Data, ps: Builts, nrs: Numbers, defaultDeny: bool)
    requires ps != [] && Followable(ps, data.args) && Chained(Entries(ps, nrs))
    requires Follow(m, data, ps, nrs, defaultDeny, AtEntry(m, data)).Some?
    ensures var es := Entries(ps, nrs);
      RunF(m, data, es[0].body + (Chain(es[1..], DefaultLabel(defaultDeny)) + Epilogue(defaultDeny)),
        SyscallNr(m, data), 0, 0) ==
      Follow(m, data, ps, nrs, defaultDeny, AtEntry(m, data)).value
  {
    hide RunF, Chain, Epilogue, Follow, Followable, Chained, EntryOf, SyscallNr;
    BodyFollows(m, data, ps, nrs, defaultDeny, AtEntry(m, data), 0);
  }

  /** Where the tracer enters every block at its top, every filter is followed to its end. */
  lemma {:induction false} FollowsToEnd(m: Machine, data: Data, ps: Builts, nrs: Numbers, defaultDeny: bool, r: Regs)
    requires ps != [] && Followable(ps, data.args) && AllAtTop(ps)
    ensures Follow(m, data, ps, nrs, defaultDeny, r).Some?
    decreases |ps|
  {
    ReadsToEnd(m, data, ps, r);
    hide *;
    FollowCases(m, data, ps, nrs, defaultDeny, r);
    var b := ps[0];
    var reading := Read(m, ArgIndexOf(b.ck.params), FilterIr(b.bs, b.n), EnvOf(b.ck.params, data.args), map[], r);
    if reading.RunsOn? {
      var rest, r' := ps[1..], reading.regs;
      var k := EnteredAt(rest, nrs, r'.a);
      FromIs(m, data, rest, nrs, defaultDeny, r');
      if k.Some? {
        TopTail(ps, k.value);
        FollowsToEnd(m, data, rest[k.value..], nrs, defaultDeny, r');
      }
    }
  }

  lemma {:induction false} FollowCases(m: Machine, data: Data, ps: Builts, nrs: Numbers, defaultDeny: bool, r: Regs)
    requires ps != [] && Followable(ps, data.args) && ps[0].bs != [] && Ordered(ps[0].bs)
    requires |ps[0].ck.params| <= |data.args|
    ensures Followable(ps[1..], data.args)
    ensures var b := ps[0];
      match Read(m, ArgIndexOf(b.ck.params), FilterIr(b.bs, b.n), EnvOf(b.ck.params, data.args), map[], r)
      case Settled(_) => Follow(m, data, ps, nrs, defaultDeny, r).Some?
      case Rejected => Follow(m, data, ps, nrs, defaultDeny, r).Some?
      case Lost => true
      case RunsOn(r') => Follow(m, data, ps, nrs, defaultDeny, r) == FollowFrom(m, data, ps[1..], nrs, defaultDeny, r')
  {
    hide Read, FilterIr, EnvOf, WellBuilt, ReturnAction, FollowFrom, ArgIndexOf, Ordered;
    assert ps[0] in ps;
  }

  lemma {:induction false} ReadsToEnd(m: Machine, data: Data, ps: Builts, r: Regs)
    requires ps != [] && Followable(ps, data.args) && AllAtTop(ps)
    ensures var b := ps[0];
      && b.bs != [] && Ordered(b.bs) && |b.ck.params| <= |data.args|
      && !Read(m, ArgIndexOf(b.ck.params), FilterIr(b.bs, b.n), EnvOf(b.ck.params, data.args), map[], r).Lost?
  {
    var b := ps[0];
    assert b in ps && WellBuilt(b) && |b.ck.params| <= |data.args|;
    hide *;
    BuiltIsCompiled(b);
    CompiledIsGood(b.ck, b.at, b.bs, b.n);
    AtTop(ps, b);
    FilterNeverLost(m, b.ck, b.at, b.bs, b.n, EnvOf(b.ck.params, data.args), r);
  }

  /** No block is entered by the tracer in its middle. */
  ghost predicate AllAtTop(ps: Builts) {
    forall b | b in ps :: Ordered(b.bs) && StartsAtTop(b.bs)
  }

  lemma {:induction false} AtTop(ps: Builts, b: Built)
    requires AllAtTop(ps) && b in ps
    ensures Ordered(b.bs) && StartsAtTop(b.bs)
  {
    hide StartsAtTop, Ordered;
  }

  /** Then the assembled filter does exactly what the readings say. */
  lemma {:induction false} PolicyReadsAll(m: Machine, ps: Builts, nrs: Numbers, defaultDeny: bool, data: Data)
    requires WellBuiltPolicy(ps) && Followable(ps, data.args) && AllAtTop(ps)
    requires NarrowOffsets(ResolvedFilter(ps, nrs, defaultDeny))
    ensures var v := FollowStart(m, data, ps, nrs, defaultDeny);
      && v.Some?
      && RunF(m, data, Assembled(ResolvedFilter(ps, nrs, defaultDeny)), 0, 0, 0) ==
         if data.arch != T_ARCH then Verdict(RetKill) else v.value
  {
    hide *;
    StartIs(m, data, ps, nrs, defaultDeny);
    PolicyReads(m, ps, nrs, defaultDeny, data);
    var k := ChosenAt(m, ps, nrs, data);
    if k.Some? {
      TopFrom(ps, k.value);
      FollowsToEnd(m, data, ps[k.value..], nrs, defaultDeny, AtEntry(m, data));
    }
  }

  lemma {:induction false} TopTail(ps: Builts, k: nat)
    requires ps != [] && AllAtTop(ps) && k < |ps[1..]|
    ensures AllAtTop(ps[1..][k..]) && ps[1..][k..] != [] && |ps[1..][k..]| < |ps|
  {
    hide StartsAtTop, Ordered;
    assert forall b | b in ps[1..][k..] :: b in ps;
  }

  lemma {:induction false} TopFrom(ps: Builts, k: nat)
    requires AllAtTop(ps) && k < |ps|
    ensures AllAtTop(ps[k..]) && ps[k..] != []
  {
    hide StartsAtTop, Ordered;
  }
}
