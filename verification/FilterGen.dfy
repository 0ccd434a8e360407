/** BPFCodeGen, BPFTransformLabels and the dispatch chain, as loops over lists of filters. */
module FilterGen {
  import opened Syntax
  import opened Ir
  import opened Bpf
  import opened BpfGen
  import opened Dispatch
  import opened Resolve

  /** A list of filters that is appended to and edited in place. */
  class FilterList {
    var lines: Filters

    constructor ()
      ensures lines == []
    {
      lines := [];
    }

    method PushBack(f: Filter)
      modifies this
      ensures lines == old(lines) + [f]
    {
      lines := lines + [f];
    }

    method Erase(k: nat)
      requires k < |lines|
      modifies this
      ensures lines == old(lines[..k] + lines[k + 1..])
    {
      lines := lines[..k] + lines[k + 1..];
    }
  }

  // ---------- BPFCodeGen ----------

  function Prepend(done: Filters, r: Option<Filters>): Option<Filters> {
    if r.None? then None else Some(done + r.value)
  }

  /** What the registers hold, as the generator tracks it. */
  class Registers {
    var aVal: Option<nat>
    var m0Val: Option<nat>

    constructor ()
      ensures State() == EMPTY_STATE
    {
      aVal, m0Val := None, None;
    }

    function State(): GenState
      reads this
    {
      GenState(aVal, m0Val)
    }
  }

  /** The lines of one arithmetic instruction; false when the assertion fails. */
  method GenArithmetic(inst: Inst, regs: Registers, idx: ArgIndex, code: FilterList) returns (ok: bool)
    requires inst.Arith1? || inst.Arith2?
    modifies regs, code
    ensures var r := GenInst(inst, old(regs.State()), idx);
      && ok == r.Some?
      && (ok ==> code.lines == old(code.lines) + r.value.0 && regs.State() == r.value.1)
  {
    var op1 := inst.a;
    if regs.aVal.Some? && Tmp(regs.aVal.value) != op1 && (inst.Arith1? || Tmp(regs.aVal.value) != inst.b) {
      code.PushBack(STORE_SCRATCH);
      regs.m0Val := regs.aVal;
      regs.aVal := None;
    }
    if inst.Arith2? {
      ok := GenBinary(inst, regs, idx, code);
      if !ok {
        return;
      }
    } else {
      GenUnary(inst, idx, code);
      ok := true;
    }
    regs.aVal := Some(inst.id);
  }

  /** Whether the assertion in front of a two-temporary operation holds. */
  method CheckScratch(op1: Operand, op2: Operand, regs: Registers) returns (ok: bool)
    ensures ok == InScratch(op1, op2, regs.State())
  {
    ok := regs.m0Val.Some? && (op1 == Tmp(regs.m0Val.value) || op2 == Tmp(regs.m0Val.value));
  }

  lemma {:induction false} PushedTwo(c: Filters, x: Filters, f: Filter)
    ensures c + x + [f] == c + (x + [f])
  {
  }

  method GenBinary(inst: Inst, regs: Registers, idx: ArgIndex, code: FilterList) returns (ok: bool)
    requires inst.Arith2?
    modifies regs, code
    ensures var r := AluLines(inst.op, inst.a, inst.b, old(regs.State()), idx);
      && ok == r.Some?
      && (ok ==> code.lines == old(code.lines) + r.value)
    ensures regs.aVal == old(regs.aVal)
    ensures ok ==> regs.m0Val == if inst.a.Tmp? && inst.b.Tmp? then None else old(regs.m0Val)
  {
    hide OpBits, AddressMode, KField, LoadArgumentOrInt, InScratch;
    var op1, op2 := inst.a, inst.b;
    var bits := BPF_ALU | OpBits(inst.op);
    if op1.Tmp? && op2.Tmp? {
      ok := CheckScratch(op1, op2, regs);
      if !ok {
        return;
      }
      code.PushBack(LOAD_SCRATCH);
      regs.m0Val := None;
      var filter := Stmt(bits | BPF_X, Num(0));
      PushedTwo(old(code.lines), [LOAD_SCRATCH], filter);
      code.PushBack(filter);
      assert [LOAD_SCRATCH] + [filter] == [LOAD_SCRATCH, filter];
    } else if !op1.Tmp? && op2.Tmp? {
      code.PushBack(Stmt(bits | AddressMode(op1), KField(op1, idx)));
    } else if op1.Tmp? && !op2.Tmp? {
      code.PushBack(Stmt(bits | AddressMode(op2), KField(op2, idx)));
    } else {
      PushLoad(op1, idx, code);
      var filter := Stmt(bits | AddressMode(op2), KField(op2, idx));
      PushedTwo(old(code.lines), LoadArgumentOrInt(op1, idx), filter);
      code.PushBack(filter);
    }
    return true;
  }

  method GenUnary(inst: Inst, idx: ArgIndex, code: FilterList)
    requires inst.Arith1?
    modifies code
    ensures code.lines == old(code.lines) + UnaryLines(inst.op, inst.a, idx)
  {
    if !inst.a.Tmp? {
      PushLoad(inst.a, idx, code);
    }
    if inst.op != UMINUS {
      code.PushBack(Stmt(BPF_ALU | OpBits(inst.op), Num(0)));
    } else {
      code.PushBack(Stmt(BPF_TAX, Num(0)));
      code.PushBack(Stmt(BPF_LD | BPF_W | BPF_K, Num(0)));
      code.PushBack(Stmt(BPF_ALU | BPF_SUB | BPF_X, Num(0)));
    }
  }

  method PushLoad(o: Operand, idx: ArgIndex, code: FilterList)
    requires !o.Tmp?
    modifies code
    ensures code.lines == old(code.lines) + LoadArgumentOrInt(o, idx)
  {
    if o.Mem? {
      code.PushBack(Stmt(BPF_LD | BPF_W | BPF_ABS, ArgField(IndexOf(idx, o.name))));
    } else {
      code.PushBack(Stmt(BPF_LD | BPF_W | BPF_K, Num(o.n)));
    }
  }

  /** The lines of one branch; an unconditional one has none. */
  method GenBranch(inst: Inst, regs: Registers, idx: ArgIndex, code: FilterList) returns (ok: bool)
    requires inst.Branch? || inst.Jump?
    modifies regs, code
    ensures var r := GenInst(inst, old(regs.State()), idx);
      && ok == r.Some?
      && (ok ==> code.lines == old(code.lines) + r.value.0 && regs.State() == r.value.1)
  {
    hide JumpLines;
    ok := true;
    if inst.Branch? {
      ok := GenConditional(inst, regs, idx, code);
    } else {
      assert code.lines + [] == code.lines;
    }
    regs.aVal := None;
  }

  method GenConditional(inst: Inst, regs: Registers, idx: ArgIndex, code: FilterList) returns (ok: bool)
    requires inst.Branch?
    modifies regs, code
    ensures var r := JumpLines(inst, old(regs.State()), idx);
      && ok == r.Some?
      && (ok ==> code.lines == old(code.lines) + r.value)
    ensures ok ==> regs.m0Val == if inst.a.Tmp? && inst.b.Tmp? then None else old(regs.m0Val)
  {
    hide OpBits, AddressMode, KField, LoadArgumentOrInt, InScratch, NeedSwapTarget;
    var op1, op2 := inst.a, inst.b;
    var bits := BPF_JMP | OpBits(inst.op);
    var jt := At(if NeedSwapTarget(inst.op) then inst.f else inst.t);
    var jf := At(if NeedSwapTarget(inst.op) then inst.t else inst.f);
    if op1.Tmp? && op2.Tmp? {
      ok := CheckScratch(op1, op2, regs);
      if !ok {
        return;
      }
      code.PushBack(LOAD_SCRATCH);
      regs.m0Val := None;
      var filter := JumpLine(bits | BPF_X, Num(0), jt, jf);
      PushedTwo(old(code.lines), [LOAD_SCRATCH], filter);
      code.PushBack(filter);
      assert [LOAD_SCRATCH] + [filter] == [LOAD_SCRATCH, filter];
    } else if !op1.Tmp? && op2.Tmp? {
      code.PushBack(JumpLine(bits | AddressMode(op1), KField(op1, idx), jt, jf));
    } else if op1.Tmp? && !op2.Tmp? {
      code.PushBack(JumpLine(bits | AddressMode(op2), KField(op2, idx), jt, jf));
    } else {
      PushLoad(op1, idx, code);
      var filter := JumpLine(bits | AddressMode(op2), KField(op2, idx), jt, jf);
      PushedTwo(old(code.lines), LoadArgumentOrInt(op1, idx), filter);
      code.PushBack(filter);
    }
    return true;
  }

  /** BPFCodeGen: skips the start label; `None` when an assertion fails. */
  method BPFCodeGen(bpfIr: Code, idx: ArgIndex) returns (r: Option<Filters>)
    requires bpfIr != []
    ensures r == BpfCode(bpfIr, idx)
  {
    hide *;
    var code := new FilterList();
    var regs := new Registers();
    var it := 1;
    CodeFollows(bpfIr, idx);
    PrependNothing(BpfCode(bpfIr, idx));
    while it < |bpfIr|
      invariant 1 <= it <= |bpfIr|
      invariant Prepend(code.lines, GenAll(bpfIr[it..], regs.State(), idx)) == BpfCode(bpfIr, idx)
    {
      var inst := bpfIr[it];
      ghost var rest := bpfIr[it..];
      GenHead(rest, regs.State(), idx, code.lines);
      assert rest[0] == inst && rest[1..] == bpfIr[it + 1..];
      if inst.Arith1? || inst.Arith2? {
        var ok := GenArithmetic(inst, regs, idx, code);
        if !ok {
          return None;
        }
      } else if inst.Branch? || inst.Jump? {
        var ok := GenBranch(inst, regs, idx, code);
        if !ok {
          return None;
        }
      } else {
        GenOther(inst, regs.State(), idx);
        assert code.lines + [] == code.lines;
        if inst.Return? {
          code.PushBack(Ret(ReturnAction(inst.val)));
        } else if inst.Mark? {
          code.PushBack(LabelLine(inst.lbl));
        }
      }
      it := it + 1;
    }
    r := Some(code.lines);
    NothingFollows(code.lines, bpfIr[it..], regs.State(), idx);
  }

  lemma {:induction false} CodeFollows(c: Code, idx: ArgIndex)
    requires c != []
    ensures BpfCode(c, idx) == GenAll(c[1..], EMPTY_STATE, idx)
  {
  }

  lemma {:induction false} NothingFollows(done: Filters, c: Code, st: GenState, idx: ArgIndex)
    requires c == []
    ensures Prepend(done, GenAll(c, st, idx)) == Some(done)
  {
    assert done + [] == done;
  }

  lemma {:induction false} PrependNothing(r: Option<Filters>)
    ensures Prepend([], r) == r
  {
    if r.Some? {
      assert [] + r.value == r.value;
    }
  }

  /** One instruction, and the rest from the state behind it. */
  lemma {:induction false} GenHead(c: Code, st: GenState, idx: ArgIndex, done: Filters)
    requires c != []
    ensures var x := GenInst(c[0], st, idx);
      Prepend(done, GenAll(c, st, idx)) ==
        if x.None? then None else Prepend(done + x.value.0, GenAll(c[1..], x.value.1, idx))
  {
    hide GenInst;
    var x := GenInst(c[0], st, idx);
    if x.Some? {
      var y := GenAll(c[1..], x.value.1, idx);
      if y.Some? {
        assert done + (x.value.0 + y.value) == done + x.value.0 + y.value;
      }
    }
  }

  lemma {:induction false} GenOther(i: Inst, st: GenState, idx: ArgIndex)
    requires !i.Arith1? && !i.Arith2? && !i.Branch? && !i.Jump?
    ensures GenInst(i, st, idx) ==
      Some((if i.Return? then [Ret(ReturnAction(i.val))] else if i.Mark? then [LabelLine(i.lbl)] else [], st))
  {
    hide ReturnAction;
  }

  // ---------- BPFTransformLabels ----------

  /** What the resolution of labels relies on: every jump to a label of the program goes ahead,
      and a line that is no label comes last.  Labels may stand more than once. */
  predicate Resolvable(fs: Filters) {
    && (forall i | 0 <= i < |fs| && fs[i].JumpLine? :: GoesAhead(fs, i, fs[i].jt) && GoesAhead(fs, i, fs[i].jf))
    && (fs != [] ==> !fs[|fs| - 1].LabelLine?)
  }

  predicate GoesAhead(fs: Filters, i: nat, t: Target)
    requires i < |fs|
  {
    t.At? && LabelLine(t.lbl) in fs ==> LabelLine(t.lbl) in fs[i + 1..]
  }

  /** The number of lines that are not labels. */
  function RealLines(fs: Filters): nat {
    if fs == [] then 0 else (if fs[0].LabelLine? then 0 else 1) + RealLines(fs[1..])
  }

  lemma {:induction false} LinesConcat(a: Filters, b: Filters)
    ensures RealLines(a + b) == RealLines(a) + RealLines(b)
  {
    if a == [] {
      assert a + b == b;
    } else {
      assert (a + b)[0] == a[0] && (a + b)[1..] == a[1..] + b;
      LinesConcat(a[1..], b);
    }
  }

  lemma {:induction false} DistanceIsLines(fs: Filters, p: nat, l: Label)
    requires p < |fs| && fs[p] == LabelLine(l) && forall i | p < i < |fs| :: fs[i] != fs[p]
    ensures Distance(fs, l) == RealLines(fs[..p])
  {
    if p > 0 {
      assert fs[1..][p - 1] == fs[p];
      assert fs[..p][0] == fs[0] && fs[..p][1..] == fs[1..][..p - 1];
      DistanceIsLines(fs[1..], p - 1, l);
    }
  }

  /** Where the entry of each label points: at the element behind the last line of the label. */
  ghost predicate Points(fs: Filters, entries: map<Label, nat>, n: nat)
    requires n <= |fs|
  {
    && (forall l :: l in entries <==> exists i | 0 <= i < n :: fs[i] == LabelLine(l))
    && (forall l | l in entries ::
       0 < entries[l] <= n && LastLabel(fs, entries[l] - 1, n) && fs[entries[l] - 1] == LabelLine(l))
  }

  /** No line before `n` repeats label line `p`. */
  predicate LastLabel(fs: Filters, p: nat, n: nat)
    requires p < n <= |fs|
  {
    forall j | p < j < n :: fs[j] != fs[p]
  }

  predicate Counted(fs: Filters, pcs: seq<nat>)
  {
    |pcs| <= |fs| && forall i | 0 <= i < |pcs| :: pcs[i] == RealLines(fs[..i])
  }

  /** The lines in front of the element behind label line `p`, counted from line `i`. */
  lemma {:induction false} LinesBetween(fs: Filters, i: nat, p: nat)
    requires i < p < |fs| && !fs[i].LabelLine? && fs[p].LabelLine?
    ensures RealLines(fs[..p + 1]) == RealLines(fs[..i]) + 1 + RealLines(fs[i + 1..p])
  {
    assert fs[..i] + [fs[i]] == fs[..i + 1] && [fs[i]][1..] == [];
    LinesConcat(fs[..i], [fs[i]]);
    assert fs[..i + 1] + fs[i + 1..p] == fs[..p];
    LinesConcat(fs[..i + 1], fs[i + 1..p]);
    assert fs[..p] + [fs[p]] == fs[..p + 1] && [fs[p]][1..] == [];
    LinesConcat(fs[..p], [fs[p]]);
  }

  lemma {:induction false} FirstBehind(fs: Filters, i: nat, p: nat, l: Label)
    requires i < p < |fs| && fs[p] == LabelLine(l) && LastLabel(fs, p, |fs|)
    ensures LabelLine(l) in fs[i + 1..] && Distance(fs[i + 1..], l) == RealLines(fs[i + 1..p])
  {
    var rest := fs[i + 1..];
    assert rest[p - i - 1] == fs[p];
    DistanceIsLines(rest, p - i - 1, l);
    assert rest[..p - i - 1] == fs[i + 1..p];
  }

  /** A jump of a resolvable program to a label that has an entry goes ahead to it. */
  lemma {:induction false} EntryIsAhead(fs: Filters, entries: map<Label, nat>, i: nat, l: Label)
    requires Resolvable(fs) && Points(fs, entries, |fs|) && i < |fs| && l in entries
    requires fs[i].JumpLine? && (fs[i].jt == At(l) || fs[i].jf == At(l))
    ensures i + 1 < entries[l] < |fs| && fs[entries[l] - 1] == LabelLine(l)
    ensures LastLabel(fs, entries[l] - 1, |fs|)
  {
    var p := entries[l] - 1;
    assert fs[p] == LabelLine(l);
    assert LabelLine(l) in fs && LabelLine(l) in fs[i + 1..];
    var q :| 0 <= q < |fs[i + 1..]| && fs[i + 1..][q] == LabelLine(l);
    assert fs[i + 1 + q] == LabelLine(l);
  }

  lemma {:induction false} NoEntry(fs: Filters, entries: map<Label, nat>, i: nat, l: Label)
    requires Points(fs, entries, |fs|) && i < |fs| && l !in entries
    ensures LabelLine(l) !in fs[i + 1..]
  {
  }

  /** The offset that is computed for a label is the one that resolution means, and the
      element that its entry points at has not been erased: it is behind the jump. */
  lemma {:induction false} OffsetIsDistance(fs: Filters, entries: map<Label, nat>, pcs: seq<nat>, i: nat, l: Label)
    requires Resolvable(fs) && Points(fs, entries, |fs|) && Counted(fs, pcs) && |pcs| == |fs| && i < |fs|
    requires fs[i].JumpLine? && (fs[i].jt == At(l) || fs[i].jf == At(l))
    ensures l in entries <==> LabelLine(l) in fs[i + 1..]
    ensures l in entries ==> i < entries[l] < |fs| && pcs[entries[l]] == pcs[i] + 1 + Distance(fs[i + 1..], l)
  {
    if l in entries {
      EntryIsAhead(fs, entries, i, l);
      hide Resolvable, Points, Distance, RealLines;
      var p := entries[l] - 1;
      FirstBehind(fs, i, p, l);
      LinesBetween(fs, i, p);
    } else {
      NoEntry(fs, entries, i, l);
    }
  }

  method ResolveOne(t: Target, entries: map<Label, nat>, pcs: seq<nat>, i: nat, ghost fs: Filters) returns (r: Target)
    requires Resolvable(fs) && Points(fs, entries, |fs|) && Counted(fs, pcs) && |pcs| == |fs| && i < |fs|
    requires fs[i].JumpLine? && (t == fs[i].jt || t == fs[i].jf)
    ensures r == ResolveTarget(fs[i + 1..], t)
  {
    r := t;
    if t.At? {
      OffsetIsDistance(fs, entries, pcs, i, t.lbl);
      if t.lbl in entries {
        var offset := pcs[entries[t.lbl]] - pcs[i] - 1;
        r := Off(offset);
      }
    }
  }

  lemma {:induction false} PointsNext(fs: Filters, entries: map<Label, nat>, n: nat)
    requires n < |fs| && Points(fs, entries, n)
    ensures Points(fs, if fs[n].LabelLine? then entries[fs[n].lbl := n + 1] else entries, n + 1)
  {
    var e := if fs[n].LabelLine? then entries[fs[n].lbl := n + 1] else entries;
    forall l
      ensures l in e <==> exists i | 0 <= i < n + 1 :: fs[i] == LabelLine(l)
    {
      if l in entries {
        var i :| 0 <= i < n && fs[i] == LabelLine(l);
      }
    }
    forall l | l in e
      ensures 0 < e[l] <= n + 1 && LastLabel(fs, e[l] - 1, n + 1) && fs[e[l] - 1] == LabelLine(l)
    {
      if fs[n] != LabelLine(l) {
        assert l in entries && e[l] == entries[l];
      }
    }
  }

  /** The element behind each label, by the label; a repeated label keeps its last entry. */
  method EntriesOf(filters: FilterList) returns (entries: map<Label, nat>)
    requires Resolvable(filters.lines)
    ensures Points(filters.lines, entries, |filters.lines|)
  {
    entries := map[];
    var n := 0;
    while n < |filters.lines|
      invariant n <= |filters.lines| && Points(filters.lines, entries, n)
    {
      var f := filters.lines[n];
      PointsNext(filters.lines, entries, n);
      hide Points, Resolvable;
      if f.LabelLine? {
        entries := entries[f.lbl := n + 1];
      }
      n := n + 1;
    }
  }

  method AssignPcs(filters: FilterList) returns (pcs: seq<nat>)
    ensures Counted(filters.lines, pcs) && |pcs| == |filters.lines|
  {
    pcs := [];
    var ip, n := 0, 0;
    while n < |filters.lines|
      invariant n == |pcs| <= |filters.lines| && ip == RealLines(filters.lines[..n])
      invariant Counted(filters.lines, pcs)
    {
      ghost var fs := filters.lines;
      pcs := pcs + [ip];
      LinesConcat(fs[..n], [fs[n]]);
      assert fs[..n] + [fs[n]] == fs[..n + 1] && [fs[n]][1..] == [];
      if !filters.lines[n].LabelLine? {
        ip := ip + 1;
      }
      n := n + 1;
    }
  }

  /** Labels go, and every jump gets the offset of its target from the next line. */
  method BPFTransformLabels(filters: FilterList)
    requires Resolvable(filters.lines)
    modifies filters
    ensures filters.lines == Resolved(old(filters.lines))
  {
    hide *;
    ghost var whole := filters.lines;
    var entries := EntriesOf(filters);
    var pcs := AssignPcs(filters);
    ghost var done, rest := [], whole;
    var k, i := 0, 0;
    while k < |filters.lines|
      invariant filters.lines == done + rest && k == |done|
      invariant i <= |whole| && rest == whole[i..]
      invariant done + Resolved(rest) == Resolved(whole)
      decreases |filters.lines| - k
    {
      LineStep(filters.lines, done, rest);
      RestStep(whole, i);
      ResolvedHead(rest, done);
      if filters.lines[k].LabelLine? {
        filters.Erase(k);
      } else {
        PatchLine(filters, k, entries, pcs, i, whole);
        LinePatched(done + rest, done, rest, filters.lines[k]);
        done := done + [filters.lines[k]];
        k := k + 1;
      }
      i := i + 1;
      rest := rest[1..];
    }
    NothingResolved(done, rest);
  }

  lemma {:induction false} RestStep(fs: Filters, i: nat)
    requires i < |fs|
    ensures fs[i..][0] == fs[i] && fs[i..][1..] == fs[i + 1..]
  {
  }

  lemma {:induction false} ResolvedHead(fs: Filters, done: Filters)
    requires fs != []
    ensures done + Resolved(fs) ==
      if fs[0].LabelLine? then done + Resolved(fs[1..]) else done + [ResolveLine(fs[0], fs[1..])] + Resolved(fs[1..])
  {
    hide ResolveLine;
  }

  lemma {:induction false} NothingResolved(done: Filters, fs: Filters)
    requires fs == []
    ensures done + Resolved(fs) == done && done + fs == done
  {
  }

  /** The targets of a jump become offsets. */
  method PatchLine(filters: FilterList, k: nat, entries: map<Label, nat>, pcs: seq<nat>, i: nat, ghost fs: Filters)
    requires Resolvable(fs) && Points(fs, entries, |fs|) && Counted(fs, pcs) && |pcs| == |fs| && i < |fs|
    requires k < |filters.lines| && filters.lines[k] == fs[i]
    modifies filters
    ensures filters.lines == old(filters.lines[k := ResolveLine(fs[i], fs[i + 1..])])
  {
    hide Resolvable, Points, Counted, ResolveTarget;
    var f := filters.lines[k];
    if f.JumpLine? {
      var jt := ResolveOne(f.jt, entries, pcs, i, fs);
      var jf := ResolveOne(f.jf, entries, pcs, i, fs);
      filters.lines := filters.lines[k := f.(jt := jt, jf := jf)];
    }
  }

  lemma {:induction false} LineStep(c: Filters, done: Filters, rest: Filters)
    requires c == done + rest && rest != []
    ensures c[|done|] == rest[0]
    ensures c[..|done|] + c[|done| + 1..] == done + rest[1..]
    ensures done + [rest[0]] + rest[1..] == c
  {
  }

  lemma {:induction false} LinePatched(c: Filters, done: Filters, rest: Filters, f: Filter)
    requires c == done + rest && rest != []
    ensures c[|done| := f] == done + [f] + rest[1..]
  {
  }

  // ---------- The dispatch chain ----------

  /** `PolicyManager::BPFCodeGen`: the whole filter, its labels resolved. */
  method BPFProgram(checks: seq<Entry>, defaultDeny: bool) returns (finalFilters: FilterList)
    requires checks != [] && Resolvable(Program(checks, defaultDeny))
    ensures fresh(finalFilters) && finalFilters.lines == Resolved(Program(checks, defaultDeny))
  {
    hide *;
    finalFilters := new FilterList();
    var defaultLabel := if defaultDeny then DENY_LABEL else ALLOW_LABEL;
    PushPrologue(Named(checks[0].name), finalFilters);
    PushChain(checks, defaultLabel, finalFilters);
    finalFilters.PushBack(LabelLine(defaultLabel));
    if !defaultDeny {
      finalFilters.PushBack(Ret(RetAllow));
      finalFilters.PushBack(LabelLine(DENY_LABEL));
    }
    finalFilters.PushBack(Ret(RetKill));
    ProgramIsWritten(checks, defaultDeny, finalFilters.lines);
    BPFTransformLabels(finalFilters);
  }

  lemma {:induction false} ProgramIsWritten(es: seq<Entry>, defaultDeny: bool, fs: Filters)
    requires es != []
    requires var dflt := if defaultDeny then DENY_LABEL else ALLOW_LABEL;
      var front := Prologue(Named(es[0].name)) + Chain(es, dflt) + [LabelLine(dflt)];
      fs == (if defaultDeny then front else front + [Ret(RetAllow)] + [LabelLine(DENY_LABEL)]) + [Ret(RetKill)]
    ensures fs == Program(es, defaultDeny)
  {
    hide Prologue, Chain;
  }

  method PushPrologue(first: Label, fs: FilterList)
    requires fs.lines == []
    modifies fs
    ensures fs.lines == Prologue(first)
  {
    hide OpBits;
    fs.PushBack(Stmt(BPF_LD | BPF_W | BPF_ABS, ArchField));
    fs.PushBack(TestK(EQ, T_ARCH, DENY_LABEL));
    fs.PushBack(Stmt(BPF_LD | BPF_W | BPF_ABS, NrField));
    fs.PushBack(TestK(GT, UPPER_NR_LIMIT, first));
    fs.PushBack(Stmt(BPF_ALU | OpBits(BITAND) | BPF_K, Num(NR_MASK)));
  }

  method PushChain(checks: seq<Entry>, defaultLabel: Label, fs: FilterList)
    modifies fs
    ensures fs.lines == old(fs.lines) + Chain(checks, defaultLabel)
  {
    var i := 0;
    while i < |checks|
      invariant i <= |checks|
      invariant fs.lines + Chain(checks[i..], defaultLabel) == old(fs.lines) + Chain(checks, defaultLabel)
    {
      var c := checks[i];
      var nextLabel := if i + 1 == |checks| then defaultLabel else Named(checks[i + 1].name);
      ChainGrows(checks, i, defaultLabel, fs.lines);
      hide *;
      fs.PushBack(LabelLine(Named(c.name)));
      fs.PushBack(TestK(EQ, c.nr, nextLabel));
      PushAll(c.body, fs);
      i := i + 1;
    }
  }

  method PushAll(body: Filters, fs: FilterList)
    modifies fs
    ensures fs.lines == old(fs.lines) + body
  {
    var k := 0;
    while k < |body|
      invariant k <= |body| && fs.lines == old(fs.lines) + body[..k]
    {
      fs.PushBack(body[k]);
      k := k + 1;
    }
  }

  lemma {:induction false} ChainGrows(es: seq<Entry>, i: nat, dflt: Label, done: Filters)
    requires i < |es|
    ensures var next := if i + 1 == |es| then dflt else Named(es[i + 1].name);
      done + Chain(es[i..], dflt) ==
      done + [LabelLine(Named(es[i].name))] + [TestK(EQ, es[i].nr, next)] + es[i].body + Chain(es[i + 1..], dflt)
  {
    hide TestK;
    assert es[i..][0] == es[i] && es[i..][1..] == es[i + 1..];
    assert i + 1 < |es| ==> es[i + 1..][0] == es[i + 1];
  }
}
