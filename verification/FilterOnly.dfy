/** Checks that the filter decides alone: without hand-offs its code is the code of the check. */
module FilterOnly {
  import opened Syntax
  import opened Ir
  import opened IrGen
  import opened Merge
  import opened BpfGen
  import opened Reading
  import opened Preserved
  import opened FrontEnd
  import opened Cfg
  import opened Colour
  import opened Split
  import opened Check
  import opened CheckRun
  import opened EmitShape
  import opened Layout
  import opened Guarded

  // ---------- Without hand-offs ----------

  lemma {:induction false} AllEmitted(bs: Blocks, k: nat, n: nat)
    requires Ordered(bs) && k <= |bs| && forall j: nat | j < |bs| :: !Only(bs, j)
    ensures Emit(bs, k, n) == Emission(Flat(bs[k..]), [])
    decreases |bs| - k
  {
    hide Only;
    if k < |bs| {
      FlatFrom(bs, k);
      AllEmitted(bs, k + 1, n);
    }
  }

  /** Where no block is left to the tracer, the filter's code is the code of the check. */
  lemma {:induction false} FilterIsCheck(ck: Check, at: Base, bs: Blocks, n: nat)
    requires BlocksOf(ck, at, bs) && Ordered(bs) && bs != [] && forall j: nat | j < |bs| :: !Only(bs, j)
    ensures FilterIr(bs, n) == CheckCode(ck, at) && TableOf(bs, n) == []
  {
    hide Only, Emit, Edges, CheckCode;
    AllEmitted(bs, 0, n);
    assert bs[0..] == bs;
  }

  /** Blocks in front of the first call or store need no tracer. */
  lemma {:induction false} NotColoured(bs: Blocks, k: nat)
    requires Ordered(bs) && k < |bs| && forall j: nat | j <= k :: NoEffects(bs[j].insts)
    ensures !Coloured(bs, k)
    decreases k
  {
    forall p | p in bs[k].parents
      ensures !Coloured(bs, p)
    {
      NotColoured(bs, p);
    }
  }

  lemma {:induction false} NoEffectsInBlocks(ck: Check, at: Base, bs: Blocks)
    requires BlocksOf(ck, at, bs) && NoEffects(CheckCode(ck, at))
    ensures forall j: nat | j < |bs| :: NoEffects(bs[j].insts)
  {
    hide Edges, CheckCode, Flat;
    forall j: nat | j < |bs|
      ensures NoEffects(bs[j].insts)
    {
      assert bs[j] in bs;
      BlockWithin(bs, bs[j]);
      assert forall i | i in bs[j].insts :: i in CheckCode(ck, at);
    }
  }

  /** Nothing of a check without calls and stores is left to the tracer. */
  lemma {:induction false} NothingIsTraced(ck: Check, at: Base, bs: Blocks, n: nat)
    requires BlocksOf(ck, at, bs) && Ordered(bs) && bs != [] && NoEffects(CheckCode(ck, at))
    ensures forall j: nat | j < |bs| :: !Coloured(bs, j) && !Only(bs, j)
    ensures FilterIr(bs, n) == CheckCode(ck, at) && TableOf(bs, n) == []
  {
    hide BlocksOf, CheckCode, Ordered;
    NoEffectsInBlocks(ck, at, bs);
    hide NoEffects, FilterIr, TableOf;
    forall j: nat | j < |bs|
      ensures !Coloured(bs, j) && !Only(bs, j)
    {
      NotColoured(bs, j);
      hide Coloured;
    }
    hide Coloured, Only;
    FilterIsCheck(ck, at, bs, n);
  }

  // ---------- Bodies of tests and decisions ----------

  /** No assignments, and conditions that the filter reads as they are meant; of any shape. */
  predicate FilterStmt(s: Stmt) {
    match s
    case Assign(_, _) => false
    case If(cond, thn, els) => FilterCond(cond) && FilterStmt(thn) && (els.Some? ==> FilterStmt(els.value))
    case Compound(stmts) => forall s' | s' in stmts :: FilterStmt(s')
    case _ => true
  }

  predicate MeantOrJump(c: Code) {
    forall i | i in c :: Meant(i) || i.Jump?
  }

  lemma {:induction false} MeantConcat(a: Code, b: Code)
    ensures MeantOrJump(a + b) <==> MeantOrJump(a) && MeantOrJump(b)
  {
    hide Meant;
    assert forall i | i in a :: i in a + b;
    assert forall i | i in b :: i in a + b;
  }

  lemma {:induction false} StmtIsMeant(s: Stmt, lab: nat, id: nat)
    requires FilterStmt(s)
    ensures MeantOrJump(StmtCode(s, lab, id).code)
    decreases s, 1
  {
    match s {
      case If(_, _, _) => IfIsMeant(s, lab, id);
      case Compound(stmts) => BodyIsMeant(stmts, lab, id);
      case _ =>
    }
  }

  lemma {:induction false} IfIsMeant(s: Stmt, lab: nat, id: nat)
    requires s.If? && FilterStmt(s)
    ensures MeantOrJump(StmtCode(s, lab, id).code)
    decreases s, 0
  {
    hide CondCode, FilterCond, MeantOrJump;
    var t, f := Fresh(lab + 1), Fresh(lab + 2);
    var c := CondCode(s.cond, t, f, lab + 2, id);
    var th := StmtCode(s.thn, c.labels, c.ids);
    CondIsMeant(s.cond, t, f, lab + 2, id);
    assert MeantOrJump(c.code) by { AllMeant(c.code); }
    StmtIsMeant(s.thn, c.labels, c.ids);
    if s.els.Some? {
      var out := Fresh(th.labels + 1);
      var el := StmtCode(s.els.value, th.labels + 1, th.ids);
      StmtIsMeant(s.els.value, th.labels + 1, th.ids);
      JumpIsMeant(t, f, out);
      MeantConcat(th.code, [Jump(out)]);
      MeantConcat(c.code, [Mark(t)]);
      MeantConcat(c.code + [Mark(t)], th.code + [Jump(out)]);
      var a := c.code + [Mark(t)] + (th.code + [Jump(out)]);
      MeantConcat(a, [Mark(f)]);
      MeantConcat(a + [Mark(f)], el.code);
      MeantConcat(a + [Mark(f)] + el.code, [Mark(out)]);
      MeantConcat(a + [Mark(f)] + el.code + [Mark(out)], []);
      AllMeant([]);
      assert StmtCode(s, lab, id).code == a + [Mark(f)] + el.code + [Mark(out)];
    } else {
      JumpIsMeant(t, f, t);
      MeantConcat(c.code, [Mark(t)]);
      MeantConcat(c.code + [Mark(t)], th.code);
      MeantConcat(c.code + [Mark(t)] + th.code, [Mark(f)]);
      assert StmtCode(s, lab, id).code == c.code + [Mark(t)] + th.code + [Mark(f)];
    }
  }

  lemma {:induction false} AllMeant(c: Code)
    requires forall i | i in c :: Meant(i)
    ensures MeantOrJump(c)
  {
  }

  lemma {:induction false} JumpIsMeant(t: Label, f: Label, out: Label)
    ensures MeantOrJump([Mark(t)]) && MeantOrJump([Mark(f)]) && MeantOrJump([Mark(out)]) && MeantOrJump([Jump(out)])
  {
  }

  lemma {:induction false} BodyIsMeant(ss: seq<Stmt>, lab: nat, id: nat)
    requires forall s | s in ss :: FilterStmt(s)
    ensures MeantOrJump(BodyCode(ss, lab, id).code)
    decreases ss, 0
  {
    hide FilterStmt;
    if ss != [] {
      var x := StmtCode(ss[0], lab, id);
      StmtIsMeant(ss[0], lab, id);
      BodyIsMeant(ss[1..], x.labels, x.ids);
      MeantConcat(x.code, BodyCode(ss[1..], x.labels, x.ids).code);
    }
  }

  lemma {:induction false} CheckIsMeant(ck: Check, at: Base)
    requires WellTyped(ck.body) && FilterStmt(ck.body)
    ensures (forall i | i in CheckCode(ck, at) :: Meant(i)) && NoEffects(CheckCode(ck, at))
  {
    hide StmtCode, WellTyped, FilterStmt, UniqueMarks, Disciplined;
    var c, heads := RawCode(ck, at), Heads(RawCode(ck, at), None);
    StmtIsMeant(ck.body, at.labels, at.ids);
    PassesKeepInstructions(c);
    FrontShapeHolds(ck.body, at.labels, at.ids);
    forall i' | i' in CheckCode(ck, at)
      ensures Meant(i') && !i'.Effect()
    {
      var i :| i in c && i' == Retarget(heads, i);
      assert !i'.Jump?;
      MeantKinds(i);
    }
  }

  /** A check without assignments whose conditions the filter reads as they are meant, whatever
      its shape: if it compiles at all, it is decided as it was meant. */
  lemma {:induction false} FilterStmtIsSupported(ck: Check, at: Base, bs: Blocks, n: nat)
    requires Compiled(ck, at, bs, n) && FilterStmt(ck.body)
    ensures Supported(ck, at, bs, n) && TableOf(bs, n) == []
  {
    hide WellTyped, FilterStmt, VariablesDeclared, BlocksOf, FilterIr, GoodBlocks, Ready, CheckCode, Shallow, Only,
      Coloured, DefsFor, TableOf,
      GenAll, Disciplined, Ordered;
    CompiledIsGood(ck, at, bs, n);
    CheckIsMeant(ck, at);
    NothingIsTraced(ck, at, bs, n);
    JobIsRunnable(ck, at, bs, n);
    FilterIsGen(ck, bs, n);
    FilterIrOrder(ck, at, bs, n);
    AssertionsHoldIffShallow(FilterIr(bs, n), [], EMPTY_STATE, ArgIndexOf(ck.params));
  }
}
