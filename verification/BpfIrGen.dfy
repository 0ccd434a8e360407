/** GenBPFIR: the filter's code, and the global hand-off tables. */
module BpfIrGen {
  import opened Ir
  import opened Cfg
  import opened Colour
  import opened Split
  import opened Colouring
  import opened AstGen

  /** `ret_data` and `ret_data_to_label`, shared by all checks. */
  class HandOffs {
    var retData: nat
    var retDataToLabel: seq<Label>

    /** The next number is the length of the table. */
    predicate Valid()
      reads this
    {
      retData == |retDataToLabel|
    }

    constructor ()
      ensures Valid() && retData == 0
    {
      retData := 0;
      retDataToLabel := [];
    }

    /** A return to the tracer gets the next number, which stands for the label. */
    method Next(l: Label) returns (ret: Inst)
      requires Valid()
      modifies this
      ensures Valid() && ret == Return(ToPtrace(old(retData)))
      ensures retDataToLabel == old(retDataToLabel) + [l]
    {
      ret := Return(ToPtrace(retData));
      retData := retData + 1;
      retDataToLabel := retDataToLabel + [l];
    }
  }

  /** The tracer-only children of the filter's blocks before `n`. */
  ghost predicate Reached(bs: Blocks, n: nat, targets: set<nat>)
    requires Ordered(bs) && n <= |bs|
  {
    forall c: nat | c < |bs| && Only(bs, c) :: c in targets <==>
      exists p | 0 <= p < n :: !Only(bs, p) && c in bs[p].children
  }

  lemma {:induction false} ReachedNext(bs: Blocks, n: nat, targets: set<nat>, targets': set<nat>)
    requires Ordered(bs) && n < |bs| && Reached(bs, n, targets)
    requires if Only(bs, n) then targets' == targets
      else forall c: nat | c < |bs| && Only(bs, c) :: c in targets' <==> c in targets || c in bs[n].children
    ensures Reached(bs, n + 1, targets')
  {
    hide Only;
  }

  lemma {:induction false} ReachedIsTargeted(bs: Blocks, n: nat, targets: set<nat>)
    requires Ordered(bs) && n < |bs| && Only(bs, n) && Reached(bs, n, targets)
    ensures n in targets <==> Targeted(bs, n)
  {
  }

  /** What one round of the loop must add, by the case it is in. */
  lemma {:induction false} EmitNext(bs: Blocks, n: nat, r: nat, code: Code, table: seq<Label>, targets: set<nat>)
    requires Ordered(bs) && n < |bs| && Reached(bs, n, targets)
    ensures var l := bs[n].label_;
      var x := Emit(bs, n, r);
      if !Only(bs, n) then
        var y := Emit(bs, n + 1, r);
        code + x.code == code + [Mark(l)] + bs[n].insts + y.code && x.table == y.table
      else if Start(bs, n) != 0 || n !in targets then
        x == Emit(bs, n + 1, r)
      else
        var y := Emit(bs, n + 1, r + 1);
        code + x.code == code + [Mark(l)] + [Return(ToPtrace(r))] + y.code && table + x.table == table + [l] + y.table
  {
    hide Emit, Start, Only, Reached, Targeted;
    EmitSplit(bs, n, r);
    if Only(bs, n) {
      ReachedIsTargeted(bs, n, targets);
    }
    var e := EmitBlock(bs, n, r);
    var y := Emit(bs, n + 1, r + |e.table|);
    if e.table == [] {
      assert [] + y.table == y.table;
    }
    if e.code == [] {
      assert [] + y.code == y.code;
    }
  }

  lemma {:induction false} OnlyIsKey(bs: Blocks, ptraceOnly: PtraceBlocks, n: nat)
    requires Ordered(bs) && n < |bs| && ptraceOnly.Keys == OnlySet(bs)
    ensures n in ptraceOnly <==> Only(bs, n)
  {
    assert n in ptraceOnly <==> n in ptraceOnly.Keys;
  }

  lemma {:induction false} EmitEnds(bs: Blocks, r: nat)
    requires Ordered(bs)
    ensures Emit(bs, |bs|, r) == Emission([], [])
  {
  }

  /** The filter's code for the blocks, and their hand-offs in the tables. */
  method GenBPFIR(bs: Blocks, ptraceOnly: PtraceBlocks, bpfIr: InstList, tables: HandOffs)
    requires Ordered(bs) && bs != [] && tables.Valid()
    requires ptraceOnly.Keys == OnlySet(bs) && forall k | k in ptraceOnly :: ptraceOnly[k] == Start(bs, k)
    modifies bpfIr, tables
    ensures tables.Valid()
    ensures var e := BpfIr(bs, old(tables.retData));
      && bpfIr.insts == old(bpfIr.insts) + e.code
      && tables.retDataToLabel == old(tables.retDataToLabel) + e.table
  {
    OnlyIsKey(bs, ptraceOnly, 0);
    hide Emit, Only, Start, Coloured, Ordered;
    if 0 in ptraceOnly {
      bpfIr.PushBack(Mark(bs[0].label_));
      var ret := tables.Next(bs[0].label_);
      bpfIr.PushBack(ret);
    } else {
      GenBlocks(bs, ptraceOnly, bpfIr, tables);
    }
  }

  /** The loop over the blocks in program order. */
  method GenBlocks(bs: Blocks, ptraceOnly: PtraceBlocks, bpfIr: InstList, tables: HandOffs)
    requires Ordered(bs) && tables.Valid()
    requires ptraceOnly.Keys == OnlySet(bs) && forall k | k in ptraceOnly :: ptraceOnly[k] == Start(bs, k)
    modifies bpfIr, tables
    ensures tables.Valid()
    ensures var e := Emit(bs, 0, old(tables.retData));
      && bpfIr.insts == old(bpfIr.insts) + e.code
      && tables.retDataToLabel == old(tables.retDataToLabel) + e.table
  {
    hide Emit, Only, Start, Coloured, Ordered;
    ghost var n0 := tables.retData;
    var ptraceTargets: set<nat> := {};
    var n := 0;
    while n < |bs|
      invariant n <= |bs| && tables.Valid() && Reached(bs, n, ptraceTargets)
      invariant bpfIr.insts + Emit(bs, n, tables.retData).code == old(bpfIr.insts) + Emit(bs, 0, n0).code
      invariant tables.retDataToLabel + Emit(bs, n, tables.retData).table ==
        old(tables.retDataToLabel) + Emit(bs, 0, n0).table
    {
      hide *;
      ghost var before := ptraceTargets;
      OnlyIsKey(bs, ptraceOnly, n);
      EmitNext(bs, n, tables.retData, bpfIr.insts, tables.retDataToLabel, ptraceTargets);
      if n !in ptraceOnly {
        bpfIr.PushBack(Mark(bs[n].label_));
        CopyInsts(bs[n].insts, bpfIr);
        ptraceTargets := AddOnlyChildren(bs[n].children, ptraceOnly, ptraceTargets);
        forall c: nat | c < |bs|
          ensures c in ptraceOnly <==> Only(bs, c)
        {
          OnlyIsKey(bs, ptraceOnly, c);
        }
      } else if ptraceOnly[n] != 0 {
        // reported as a special case; the block is left out
      } else if n in ptraceTargets {
        bpfIr.PushBack(Mark(bs[n].label_));
        var ret := tables.Next(bs[n].label_);
        bpfIr.PushBack(ret);
      }
      ReachedNext(bs, n, before, ptraceTargets);
      n := n + 1;
    }
    EmitEnds(bs, tables.retData);
  }

  method CopyInsts(insts: Code, bpfIr: InstList)
    modifies bpfIr
    ensures bpfIr.insts == old(bpfIr.insts) + insts
  {
    var k := 0;
    while k < |insts|
      invariant k <= |insts| && bpfIr.insts == old(bpfIr.insts) + insts[..k]
    {
      bpfIr.PushBack(insts[k]);
      k := k + 1;
    }
  }

  method AddOnlyChildren(children: seq<nat>, ptraceOnly: PtraceBlocks, targets: set<nat>) returns (r: set<nat>)
    ensures forall c :: c in r <==> c in targets || (c in children && c in ptraceOnly)
  {
    r := targets;
    var k := 0;
    while k < |children|
      invariant k <= |children|
      invariant forall c :: c in r <==> c in targets || (c in children[..k] && c in ptraceOnly)
    {
      if children[k] in ptraceOnly {
        r := r + {children[k]};
      }
      k := k + 1;
    }
    assert children[..k] == children;
  }
}
