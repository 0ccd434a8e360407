/** How long a policy's filter can get, from its text: short policies have only narrow offsets. */
module Short {
  import opened Syntax
  import opened Ir
  import opened IrGen
  import opened Merge
  import opened DeadCode
  import opened BpfGen
  import opened Cfg
  import opened Colour
  import opened Split
  import opened FrontEnd
  import opened Resolve
  import opened Dispatch
  import opened Check
  import opened Declared
  import opened CheckRun
  import opened Policy
  import opened PolicyRun

  lemma {:induction false} InstIsShort(i: Inst, st: GenState, idx: ArgIndex)
    requires GenInst(i, st, idx).Some?
    ensures |GenInst(i, st, idx).value.0| <= 5
  {
    hide OpBits, AddressMode, KField, InScratch, ReturnAction;
  }

  lemma {:induction false} CodeIsShort(c: Code, st: GenState, idx: ArgIndex)
    requires GenAll(c, st, idx).Some?
    ensures |GenAll(c, st, idx).value| <= 5 * |c|
  {
    hide GenInst;
    if c != [] {
      InstIsShort(c[0], st, idx);
      CodeIsShort(c[1..], GenInst(c[0], st, idx).value.1, idx);
    }
  }

  lemma {:induction false} EmissionIsShort(bs: Blocks, k: nat, n: nat)
    requires Ordered(bs) && k <= |bs|
    ensures |Emit(bs, k, n).code| <= 2 * |Flat(bs[k..])| && |Emit(bs, k, n).table| <= |Flat(bs[k..])|
    decreases |bs| - k
  {
    hide Only, Start, Targeted, Coloured;
    if k < |bs| {
      FlatFrom(bs, k);
      EmissionIsShort(bs, k + 1, n + |EmitBlock(bs, k, n).table|);
    }
  }

  lemma {:induction false} FrontIsShort(s: Stmt, lab: nat, id: nat)
    ensures |FrontCode(s, lab, id)| <= StmtLength(s)
  {
    hide StmtCode;
    var c := StmtCode(s, lab, id).code;
    StmtHasLength(s, lab, id);
    assert |Merged(c)| <= |c|;
    SettleIsShort(Sweep(Merged(c), None));
  }

  lemma {:induction false} SettleIsShort(c: Code)
    ensures |Settle(c)| <= |c|
    decreases |c|
  {
    var r := Purge(c, None, false, {});
    if r != c {
      SettleIsShort(r);
    }
  }

  lemma {:induction false} FilterIrIsShort(ck: Check, at: Base, bs: Blocks, n: nat)
    requires BlocksOf(ck, at, bs) && Ordered(bs) && bs != []
    ensures |FilterIr(bs, n)| <= 2 * (1 + StmtLength(ck.body)) && |TableOf(bs, n)| <= 1 + StmtLength(ck.body)
  {
    hide Only, Emit, Edges, FrontCode, Flat;
    FrontIsShort(ck.body, at.labels, at.ids);
    EmissionIsShort(bs, 0, n);
    assert bs[0..] == bs;
  }

  /** A bound on the lines of the filter of a check. */
  function LinesOf(ck: Check): nat {
    10 * (1 + StmtLength(ck.body))
  }

  function LinesOfAll(cks: seq<Check>): nat {
    if cks == [] then 0 else 2 + LinesOf(cks[0]) + LinesOfAll(cks[1..])
  }

  lemma {:induction false} EntryIsShort(b: Built, nrs: Numbers)
    requires WellBuilt(b)
    ensures |EntryOf(b, nrs).body| <= LinesOf(b.ck) && |Table(b)| <= LinesOf(b.ck)
  {
    hide WellTyped, VariablesDeclared, BlocksOf, FilterOf, FilterIr, TableOf, Ordered;
    FilterIrIsShort(b.ck, b.at, b.bs, b.n);
    FilterIsGen(b.ck, b.bs, b.n);
    CodeIsShort(FilterIr(b.bs, b.n), EMPTY_STATE, ArgIndexOf(b.ck.params));
  }

  lemma {:induction false} ChainIsShort(ps: Builts, nrs: Numbers, dflt: Label)
    requires forall b | b in ps :: WellBuilt(b)
    ensures |Chain(Entries(ps, nrs), dflt)| <= LinesOfAll(Checks(ps)) && |JmpTable(ps)| <= LinesOfAll(Checks(ps))
  {
    hide WellBuilt, EntryOf, Table, LinesOf;
    if ps != [] {
      assert ps[0] in ps;
      EntryIsShort(ps[0], nrs);
      ChainIsShort(ps[1..], nrs, dflt);
      assert Entries(ps, nrs)[1..] == Entries(ps[1..], nrs) && Checks(ps)[1..] == Checks(ps[1..]);
    }
  }

  predicate ShortPolicy(cks: seq<Check>) {
    LinesOfAll(cks) <= 247
  }

  lemma {:induction false} AllWellBuilt(ps: Builts)
    requires WellBuiltPolicy(ps)
    ensures forall b | b in ps :: WellBuilt(b)
  {
    hide WellBuilt, InSequence;
    forall b | b in ps
      ensures WellBuilt(b)
    {
      var k: nat :| k < |ps| && ps[k] == b;
      Later(ps, Base(0, 0), 0, k);
    }
  }

  /** No jump of a short policy's filter is cut, and no hand-off number. */
  lemma {:induction false} ShortFits(ps: Builts, nrs: Numbers, defaultDeny: bool)
    requires WellBuiltPolicy(ps) && ShortPolicy(Checks(ps))
    ensures ps != [] && NarrowOffsets(ResolvedFilter(ps, nrs, defaultDeny)) && |JmpTable(ps)| <= 0x1_0000
  {
    hide WellBuiltPolicy, WellBuilt, JmpTable, Chain, LinesOfAll, NarrowOffsets, Resolved, ZeroOffsets, PlainEntries,
      Separate;
    PolicyHasChecks(ps);
    AllWellBuilt(ps);
    EntriesFit(ps, nrs);
    ChainIsShort(ps, nrs, DefaultLabel(defaultDeny));
    ProgramJumps(Entries(ps, nrs), defaultDeny);
    ShortIsNarrow(Program(Entries(ps, nrs), defaultDeny));
  }
}
