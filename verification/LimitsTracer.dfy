/** Where calls, assignments and the tracer's text do not do what the policy says. */
module LimitsTracer {
  import opened Syntax
  import opened Ir
  import opened IrGen
  import opened Cfg
  import opened Colour
  import opened Split
  import opened Bpf
  import opened BpfGen
  import opened Reading
  import opened Resolve
  import opened Check
  import opened Declared
  import opened CheckRun
  import opened Policy
  import opened PolicyRun
  import opened Idle
  import opened Guarded
  import opened FilterOnly
  import opened Short
  import opened Compile
  import opened Limits

  // ---------- Effects that the filter cannot express ----------

  /** From block `u` a path leads to block `k`, and every block on it behind `u` has two parents
      or more. */
  ghost predicate JoinPath(bs: Blocks, u: nat, k: nat)
    requires Ordered(bs) && k < |bs|
    decreases k
  {
    |bs[k].parents| > 1 && exists p | p in bs[k].parents :: p == u || JoinPath(bs, u, p)
  }

  lemma {:induction false} NotOnlyIff(bs: Blocks, k: nat)
    requires Ordered(bs) && k < |bs|
    ensures !Only(bs, k) <==> !Coloured(bs, k) || exists u: nat | u < |bs| && !Coloured(bs, u) :: JoinPath(bs, u, k)
    decreases k
  {
    hide Coloured;
    forall p | p in bs[k].parents
      ensures !Only(bs, p) <==> !Coloured(bs, p) || exists u: nat | u < |bs| && !Coloured(bs, u) :: JoinPath(bs, u, p)
    {
      NotOnlyIff(bs, p);
    }
    if Coloured(bs, k) && !Only(bs, k) {
      var p :| p in bs[k].parents && !Only(bs, p);
      if !Coloured(bs, p) {
        assert JoinPath(bs, p, k);
      } else {
        var u: nat :| u < |bs| && !Coloured(bs, u) && JoinPath(bs, u, p);
        assert JoinPath(bs, u, k);
      }
    }
  }

  /** A block with a call or a store loses it in the filter exactly when it is reached from a
      block that needs no tracer along blocks that all have two parents or more. */
  lemma {:induction false} EffectsDroppedIff(bs: Blocks, k: nat)
    requires Ordered(bs) && k < |bs| && HasEffect(bs[k].insts)
    ensures DropsEffects(bs, k) <==> exists u: nat | u < |bs| && !Coloured(bs, u) :: JoinPath(bs, u, k)
  {
    NotOnlyIff(bs, k);
  }

  // ---------- A call that is dropped ----------

  lemma {:induction false} SlotIsParent(bs: Blocks, root: Label, c: Code, p: nat, k: nat)
    requires IsCfg(bs, root, c) && p < k < |bs| && Slots(bs[p].insts, bs[k].label_) > 0
    ensures p in bs[k].parents
  {
    hide Flat, Slots;
    assert multiset(bs[k].parents)[p] == Edges(bs, p, k);
    hide IsCfg;
  }

  /** A block reached from two blocks, one of them in the filter, is in the filter. */
  lemma {:induction false} TwoParents(ck: Check, at: Base, bs: Blocks, p: nat, q: nat, k: nat)
    requires BlocksOf(ck, at, bs) && Ordered(bs) && p < k < |bs| && q < k && p != q && !Only(bs, p)
    requires Slots(bs[p].insts, bs[k].label_) > 0 && Slots(bs[q].insts, bs[k].label_) > 0
    ensures !Only(bs, k)
  {
    hide IsCfg, Slots, CheckCode, Coloured;
    SlotIsParent(bs, Named(ck.name), CheckCode(ck, at), p, k);
    SlotIsParent(bs, Named(ck.name), CheckCode(ck, at), q, k);
    hide BlocksOf;
    assert |bs[k].parents| > 1;
  }

  /** `a == 3 || (a == 1 || a == 2) && f(a)` */
  function SharedCall(): Expr {
    Binary(OR, Binary(EQ, Ref("a"), Value(3)),
      Binary(AND, Binary(OR, Binary(EQ, Ref("a"), Value(1)), Binary(EQ, Ref("a"), Value(2))), Invoke("f", ["a"])))
  }

  /** `if (a == 3 || (a == 1 || a == 2) && f(a)) deny; allow;` */
  const SHARED_CALL: Check := Check("nice", ["a"], OneGuard(SharedCall()), {})

  function EqualsA(n: Word, t: nat, f: nat): Inst {
    Branch(EQ, Mem("a"), Imm(n), Fresh(t), Fresh(f))
  }

  const CALL_F: Inst := Call(0, "f", ["a"])
  const TEST_F: Inst := Branch(NE, Tmp(0), Imm(0), Fresh(1), Fresh(2))

  /** The code of the check, from the block of the call on, and from the start. */
  const CALL_CODE: Code := [CALL_F, TEST_F] + GuardTail(Fresh(1), Fresh(2))
  const SECOND_TEST: Code := [EqualsA(2, 4, 2)] + ([Mark(Fresh(4))] + CALL_CODE)
  const FIRST_TEST: Code := [EqualsA(1, 4, 5)] + ([Mark(Fresh(5))] + SECOND_TEST)
  const SHARED_CODE: Code := [EqualsA(3, 1, 3)] + ([Mark(Fresh(3))] + FIRST_TEST)

  lemma {:induction false} EqualsCode(n: Word, t: nat, f: nat, lab: nat, id: nat)
    ensures CondCode(Binary(EQ, Ref("a"), Value(n)), Fresh(t), Fresh(f), lab, id) == Gen([EqualsA(n, t, f)], lab, id)
  {
  }

  lemma {:induction false} CallCode(t: Label, f: Label, lab: nat, id: nat)
    ensures CondCode(Invoke("f", ["a"]), t, f, lab, id) ==
      Gen([Call(id, "f", ["a"]), Branch(NE, Tmp(id), Imm(0), t, f)], lab, id + 1)
  {
  }

  lemma {:induction false} OrCode(l: Expr, r: Expr, t: Label, f: Label, lab: nat, id: nat)
    ensures var x := CondCode(l, t, Fresh(lab + 1), lab + 1, id);
      var y := CondCode(r, t, f, x.labels, x.ids);
      CondCode(Binary(OR, l, r), t, f, lab, id) == Gen(x.code + ([Mark(Fresh(lab + 1))] + y.code), y.labels, y.ids)
  {
    hide TestCode;
  }

  lemma {:induction false} AndCode(l: Expr, r: Expr, t: Label, f: Label, lab: nat, id: nat)
    ensures var x := CondCode(l, Fresh(lab + 1), f, lab + 1, id);
      var y := CondCode(r, t, f, x.labels, x.ids);
      CondCode(Binary(AND, l, r), t, f, lab, id) == Gen(x.code + ([Mark(Fresh(lab + 1))] + y.code), y.labels, y.ids)
  {
    hide TestCode;
  }

  lemma {:induction false} SharedCondCode()
    ensures CondCode(SharedCall(), Fresh(1), Fresh(2), 2, 0).code ==
      [EqualsA(3, 1, 3)] + ([Mark(Fresh(3))] + (([EqualsA(1, 4, 5)] + ([Mark(Fresh(5))] + [EqualsA(2, 4, 2)])) +
        ([Mark(Fresh(4))] + [CALL_F, TEST_F])))
  {
    hide CondCode, EqualsA;
    var e1, e2, e3 := Binary(EQ, Ref("a"), Value(1)), Binary(EQ, Ref("a"), Value(2)), Binary(EQ, Ref("a"), Value(3));
    var inner := Binary(OR, e1, e2);
    var both := Binary(AND, inner, Invoke("f", ["a"]));
    OrCode(e3, both, Fresh(1), Fresh(2), 2, 0);
    EqualsCode(3, 1, 3, 3, 0);
    AndCode(inner, Invoke("f", ["a"]), Fresh(1), Fresh(2), 3, 0);
    OrCode(e1, e2, Fresh(4), Fresh(2), 4, 0);
    EqualsCode(1, 4, 5, 5, 0);
    EqualsCode(2, 4, 2, 5, 0);
    CallCode(Fresh(1), Fresh(2), 5, 0);
  }

  lemma {:induction false} OneGuardRaw(cond: Expr)
    ensures StmtCode(OneGuard(cond), 0, 0).code ==
      CondCode(cond, Fresh(1), Fresh(2), 2, 0).code + GuardTail(Fresh(1), Fresh(2))
  {
    var t, f := Fresh(1), Fresh(2);
    var c := CondCode(cond, t, f, 2, 0);
    hide CondCode;
    var ss := OneGuard(cond).stmts;
    var x := StmtCode(ss[0], 0, 0);
    assert ss[1..] == [Permit(Allow)] && ss[1..][1..] == [];
    assert ss[0] == If(cond, Permit(Deny), None);
    assert StmtCode(Permit(Deny), c.labels, c.ids).code == [Return(Decision(Deny))];
    assert x.code == Joined(Joined(c.code, t, [Return(Decision(Deny))]), f, []);
    assert BodyCode(ss[1..], x.labels, x.ids).code == [Return(Decision(Allow))] + [];
    assert StmtCode(OneGuard(cond), 0, 0).code == x.code + [Return(Decision(Allow))];
  }

  lemma {:induction false} SharedRawCode()
    ensures RawCode(SHARED_CALL, Base(0, 0)) == SHARED_CODE
  {
    hide CondCode, StmtCode, OneGuard, SharedCall, EqualsA;
    SharedCondCode();
    OneGuardRaw(SharedCall());
    var tail := GuardTail(Fresh(1), Fresh(2));
    hide GuardTail;
    var a, b, c, d := EqualsA(3, 1, 3), EqualsA(1, 4, 5), EqualsA(2, 4, 2), [CALL_F, TEST_F];
    assert [a] + ([Mark(Fresh(3))] + (([b] + ([Mark(Fresh(5))] + [c])) + ([Mark(Fresh(4))] + d))) + tail
        == [a] + ([Mark(Fresh(3))] + ([b] + ([Mark(Fresh(5))] + ([c] + ([Mark(Fresh(4))] + (d + tail))))));
  }

  lemma {:induction false} TailIsTidy(reach: set<Label>)
    requires {Fresh(1), Fresh(2)} <= reach
    ensures Tidy(GuardTail(Fresh(1), Fresh(2)), BehindEnd, reach)
  {
    var c := GuardTail(Fresh(1), Fresh(2));
    var d := [Return(Decision(Allow))];
    assert Tidy([], BehindEnd, reach + {});
    assert c == [Mark(Fresh(1))] + ([Return(Decision(Deny))] + ([Mark(Fresh(2))] + (d + [])));
    NoTargetSets(reach);
    TidyStep(d[0], [], BehindMark, reach);
    TidyStep(Mark(Fresh(2)), d + [], BehindEnd, reach);
    TidyStep(Return(Decision(Deny)), [Mark(Fresh(2))] + (d + []), BehindMark, reach);
    TidyStep(Mark(Fresh(1)), [Return(Decision(Deny))] + ([Mark(Fresh(2))] + (d + [])), BehindEnd, reach);
  }

  lemma {:induction false} NoTargetSets(reach: set<Label>)
    ensures forall i: Inst | !i.Branches() :: reach + DeadCode.TargetSet(i) == reach
  {
  }

  lemma {:induction false} BranchThenTidy(i: Inst, l: Label, rest: Code, at: Place, reach: set<Label>)
    requires i.Branch? && (i.t == l || i.f == l) && !at.BehindEnd? && Tidy(rest, BehindMark, reach + {i.t, i.f})
    ensures Tidy([i] + ([Mark(l)] + rest), at, reach)
  {
    assert DeadCode.TargetSet(i) == {i.t, i.f} by { assert i.t in i.Targets() && i.f in i.Targets(); }
    var reach' := reach + {i.t, i.f};
    NoTargetSets(reach');
    TidyStep(Mark(l), rest, BehindEnd, reach');
    TidyStep(i, [Mark(l)] + rest, at, reach);
  }

  lemma {:induction false} SharedIsTidy()
    ensures Tidy(SHARED_CODE, Inside, {})
  {
    hide Tidy, GuardTail;
    var reach: set<Label> := {} + {Fresh(1), Fresh(3)} + {Fresh(4), Fresh(5)} + {Fresh(4), Fresh(2)};
    var tail := GuardTail(Fresh(1), Fresh(2));
    TailIsTidy(reach + {Fresh(1), Fresh(2)});
    assert DeadCode.TargetSet(TEST_F) ==
      {Fresh(1), Fresh(2)} by { assert TEST_F.t in TEST_F.Targets() && TEST_F.f in TEST_F.Targets(); }
    TidyStep(TEST_F, tail, Inside, reach);
    NoTargetSets(reach);
    TidyStep(CALL_F, [TEST_F] + tail, BehindMark, reach);
    assert [CALL_F] + ([TEST_F] + tail) == CALL_CODE;
    BranchThenTidy(EqualsA(2, 4, 2), Fresh(4), CALL_CODE, BehindMark, {} + {Fresh(1), Fresh(3)} + {Fresh(4), Fresh(5)});
    BranchThenTidy(EqualsA(1, 4, 5), Fresh(5), SECOND_TEST, BehindMark, {} + {Fresh(1), Fresh(3)});
    BranchThenTidy(EqualsA(3, 1, 3), Fresh(3), FIRST_TEST, Inside, {});
  }

  lemma {:induction false} SharedCheckCode()
    ensures CheckCode(SHARED_CALL, Base(0, 0)) == SHARED_CODE
  {
    hide *;
    SharedRawCode();
    SharedIsTidy();
    PassesIdle(SHARED_CODE);
    FrontIsPassed(SHARED_CALL, Base(0, 0));
  }

  lemma {:induction false} FrontIsPassed(ck: Check, at: Base)
    ensures CheckCode(ck, at) == DeadCode.Live(Merge.Merged(RawCode(ck, at)))
  {
  }

  // ---------- Its blocks ----------

  function Bare(l: Label, c: Code): Block {
    Block(l, c, [], [])
  }

  function SharedBlocks(): Blocks {
    [Bare(Named("nice"), [EqualsA(3, 1, 3)]), Bare(Fresh(3), [EqualsA(1, 4, 5)]), Bare(Fresh(5), [EqualsA(2, 4, 2)]),
     Bare(Fresh(4), [CALL_F, TEST_F]), Bare(Fresh(1), [Return(Decision(Deny))]),
     Bare(Fresh(2), [Return(Decision(Allow))])]
  }

  lemma {:induction false} FlatMore(b: Block, rest: Blocks)
    ensures Flat([b] + rest) == [Mark(b.label_)] + (b.insts + Flat(rest))
  {
    assert ([b] + rest)[1..] == rest;
  }

  lemma {:induction false} SharedFlat()
    ensures Flat(SharedBlocks()) == [Mark(Named("nice"))] + SHARED_CODE && MarkFree(SharedBlocks())
  {
    var bs := SharedBlocks();
    hide Flat, EqualsA;
    assert bs == [bs[0]] + ([bs[1]] + ([bs[2]] + ([bs[3]] + ([bs[4]] + ([bs[5]] + [])))));
    FlatMore(bs[5], []);
    FlatMore(bs[4], [bs[5]] + []);
    FlatMore(bs[3], [bs[4]] + ([bs[5]] + []));
    FlatMore(bs[2], [bs[3]] + ([bs[4]] + ([bs[5]] + [])));
    FlatMore(bs[1], [bs[2]] + ([bs[3]] + ([bs[4]] + ([bs[5]] + []))));
    FlatMore(bs[0], [bs[1]] + ([bs[2]] + ([bs[3]] + ([bs[4]] + ([bs[5]] + [])))));
    assert Flat([]) == [] by { NoBlocks(); }
    assert GuardTail(Fresh(1), Fresh(2)) ==
      [Mark(Fresh(1))] + ([Return(Decision(Deny))] + ([Mark(Fresh(2))] + ([Return(Decision(Allow))] + [])));
    assert CALL_CODE == [CALL_F, TEST_F] +
      ([Mark(Fresh(1))] + ([Return(Decision(Deny))] + ([Mark(Fresh(2))] + ([Return(Decision(Allow))] + []))));
    assert MarkFree(bs) by { SharedMarkFree(); }
  }

  lemma {:induction false} NoBlocks()
    ensures Flat([]) == []
  {
  }

  lemma {:induction false} SharedMarkFree()
    ensures MarkFree(SharedBlocks())
  {
  }

  lemma {:induction false} SharedBlocksAre(bs: Blocks)
    requires BlocksOf(SHARED_CALL, Base(0, 0), bs)
    ensures |bs| == 6
    ensures bs[0].insts == [EqualsA(3, 1, 3)] && bs[1].insts == [EqualsA(1, 4, 5)] && bs[2].insts == [EqualsA(2, 4, 2)]
    ensures bs[3].insts == [CALL_F, TEST_F] && bs[3].label_ == Fresh(4) && bs[4].label_ == Fresh(1)
    ensures bs[5].label_ == Fresh(2)
  {
    var xs := SharedBlocks();
    SharedFlat();
    SharedCheckCode();
    assert Flat(bs) == Flat(xs) && MarkFree(bs) by { hide CheckCode, Flat, SHARED_CODE; }
    hide CheckCode, Flat, BlocksOf, MarkFree, EqualsA;
    SameBlocks(bs, xs);
  }

  lemma {:induction false} TestsHaveNoEffects(n: Word, t: nat, f: nat)
    ensures NoEffects([EqualsA(n, t, f)])
  {
  }

  lemma {:induction false} TestTargets(n: Word, t: nat, f: nat)
    ensures Slots([EqualsA(n, t, f)], Fresh(t)) > 0 && Slots([EqualsA(n, t, f)], Fresh(f)) > 0
  {
    HasSlots([EqualsA(n, t, f)], EqualsA(n, t, f));
  }

  lemma {:induction false} CallTargets()
    ensures Slots([CALL_F, TEST_F], Fresh(1)) > 0 && Slots([CALL_F, TEST_F], Fresh(2)) > 0
    ensures HasEffect([CALL_F, TEST_F])
  {
    HasSlots([CALL_F, TEST_F], TEST_F);
    assert CALL_F in [CALL_F, TEST_F];
  }

  lemma {:induction false} SharedFacts()
    ensures NoEffects([EqualsA(3, 1, 3)]) && NoEffects([EqualsA(1, 4, 5)]) && NoEffects([EqualsA(2, 4, 2)])
    ensures HasEffect([CALL_F, TEST_F])
    ensures Slots([EqualsA(3, 1, 3)], Fresh(1)) > 0 && Slots([EqualsA(1, 4, 5)], Fresh(4)) > 0
    ensures Slots([EqualsA(2, 4, 2)], Fresh(4)) > 0 && Slots([EqualsA(2, 4, 2)], Fresh(2)) > 0
    ensures Slots([CALL_F, TEST_F], Fresh(1)) > 0 && Slots([CALL_F, TEST_F], Fresh(2)) > 0
  {
    TestsHaveNoEffects(3, 1, 3);
    TestsHaveNoEffects(1, 4, 5);
    TestsHaveNoEffects(2, 4, 2);
    TestTargets(3, 1, 3);
    TestTargets(1, 4, 5);
    TestTargets(2, 4, 2);
    CallTargets();
  }

  /** The block of the call, and the two behind it, are reached from two sides. */
  lemma {:induction false} SharedIsFilter(bs: Blocks)
    requires BlocksOf(SHARED_CALL, Base(0, 0), bs) && Ordered(bs)
    ensures |bs| == 6 && (forall j: nat | j < |bs| :: !Only(bs, j)) && DropsEffects(bs, 3)
  {
    hide *;
    var ck, at := SHARED_CALL, Base(0, 0);
    SharedBlocksAre(bs);
    SharedFacts();
    assert forall j: nat | j < 3 :: NoEffects(bs[j].insts);
    NotColoured(bs, 0);
    NotColoured(bs, 1);
    NotColoured(bs, 2);
    ColouredIfOnly(bs);
    TwoParents(ck, at, bs, 1, 2, 3);
    TwoParents(ck, at, bs, 0, 3, 4);
    TwoParents(ck, at, bs, 2, 3, 5);
    DropsIfEffect(bs, 3);
  }

  lemma {:induction false} DropsIfEffect(bs: Blocks, k: nat)
    requires Ordered(bs) && k < |bs| && HasEffect(bs[k].insts) && !Only(bs, k)
    ensures DropsEffects(bs, k)
  {
  }

  lemma {:induction false} ColouredIfOnly(bs: Blocks)
    requires Ordered(bs)
    ensures forall j: nat | j < |bs| && !Coloured(bs, j) :: !Only(bs, j)
  {
    hide Coloured;
  }

  lemma {:induction false} HasSlots(c: Code, i: Inst)
    requires i in c && i.Branch?
    ensures Slots(c, i.t) > 0 && Slots(c, i.f) > 0
  {
    assert i.t in i.Targets() && i.f in i.Targets();
    SlotsHave(c, i, i.t);
    SlotsHave(c, i, i.f);
  }

  // ---------- Its reading ----------

  lemma {:induction false} ReadLands(m: Machine, idx: ArgIndex, a: Code, b: Code, l: Label, env: Env, r: Regs)
    requires Mark(l) !in a
    ensures ReadJump(m, idx, a + ([Mark(l)] + b), l, env, r) == Read(m, idx, b, env, map[], r)
  {
    hide Read;
    assert (a + ([Mark(l)] + b))[|a|] == Mark(l);
    AfterConcat(a, [Mark(l)] + b, l);
    assert ([Mark(l)] + b)[1..] == b;
  }

  lemma {:induction false} EqualsReads(m: Machine, idx: ArgIndex, n: Word, t: nat, f: nat, rest: Code, env: Env,
                                       r: Regs)
    ensures Read(m, idx, [EqualsA(n, t, f)] + rest, env, map[], r) ==
      ReadJump(m, idx, rest, if Lookup(env, "a") == n then Fresh(t) else Fresh(f), env, Regs(Lookup(env, "a"), r.x))
  {
    hide ReadJump;
    assert ([EqualsA(n, t, f)] + rest)[1..] == rest;
  }

  /** The call has no lines: its result is what A holds, and that is the argument. */
  lemma {:induction false} CallReads(m: Machine, idx: ArgIndex, env: Env, r: Regs)
    ensures Read(m, idx, CALL_CODE, env, map[], r) == Settled(Decision(if r.a != 0 then Deny else Allow))
  {
    hide ReadJump;
    var tail := GuardTail(Fresh(1), Fresh(2));
    assert CALL_CODE[1..] == [TEST_F] + tail && ([TEST_F] + tail)[1..] == tail;
    TailReads(m, idx, env, r, r.a != 0);
  }

  lemma {:induction false} SharedReads(m: Machine, idx: ArgIndex, env: Env, r: Regs)
    ensures Read(m, idx, SHARED_CODE, env, map[], r) ==
      Settled(Decision(if 1 <= Lookup(env, "a") <= 3 then Deny else Allow))
  {
    hide Read, ReadJump, EqualsA;
    var a, tail, mid := Lookup(env, "a"), GuardTail(Fresh(1), Fresh(2)), [CALL_F, TEST_F];
    var r' := Regs(a, r.x);
    EqualsReads(m, idx, 3, 1, 3, [Mark(Fresh(3))] + FIRST_TEST, env, r);
    if a == 3 {
      SharedJump(m, idx, env, r');
    } else {
      assert [] + ([Mark(Fresh(3))] + FIRST_TEST) == [Mark(Fresh(3))] + FIRST_TEST;
      ReadLands(m, idx, [], FIRST_TEST, Fresh(3), env, r');
      EqualsReads(m, idx, 1, 4, 5, [Mark(Fresh(5))] + SECOND_TEST, env, r');
      if a == 1 {
        var before := [Mark(Fresh(5)), EqualsA(2, 4, 2)];
        assert before + ([Mark(Fresh(4))] + CALL_CODE) == [Mark(Fresh(5))] + SECOND_TEST;
        ReadLands(m, idx, before, CALL_CODE, Fresh(4), env, r') by { NotBefore(); }
        CallReads(m, idx, env, r');
      } else {
        assert [] + ([Mark(Fresh(5))] + SECOND_TEST) == [Mark(Fresh(5))] + SECOND_TEST;
        ReadLands(m, idx, [], SECOND_TEST, Fresh(5), env, r');
        EqualsReads(m, idx, 2, 4, 2, [Mark(Fresh(4))] + CALL_CODE, env, r');
        if a == 2 {
          assert [] + ([Mark(Fresh(4))] + CALL_CODE) == [Mark(Fresh(4))] + CALL_CODE;
          ReadLands(m, idx, [], CALL_CODE, Fresh(4), env, r');
          CallReads(m, idx, env, r');
        } else {
          LastJump(m, idx, env, r');
        }
      }
    }
  }

  lemma {:induction false} NotBefore()
    ensures Mark(Fresh(4)) !in [Mark(Fresh(5)), EqualsA(2, 4, 2)]
  {
  }

  lemma {:induction false} SharedJump(m: Machine, idx: ArgIndex, env: Env, r: Regs)
    ensures ReadJump(m, idx, [Mark(Fresh(3))] + FIRST_TEST, Fresh(1), env, r) == Settled(Decision(Deny))
  {
    var before := [Mark(Fresh(3)), EqualsA(1, 4, 5), Mark(Fresh(5)), EqualsA(2, 4, 2), Mark(Fresh(4)), CALL_F, TEST_F];
    var after := [Return(Decision(Deny)), Mark(Fresh(2)), Return(Decision(Allow))];
    assert Mark(Fresh(1)) !in before;
    assert before + ([Mark(Fresh(1))] + after) == [Mark(Fresh(3))] + FIRST_TEST;
    ReadLands(m, idx, before, after, Fresh(1), env, r);
  }

  lemma {:induction false} LastJump(m: Machine, idx: ArgIndex, env: Env, r: Regs)
    ensures ReadJump(m, idx, [Mark(Fresh(4))] + CALL_CODE, Fresh(2), env, r) == Settled(Decision(Allow))
  {
    var before := [Mark(Fresh(4)), CALL_F, TEST_F, Mark(Fresh(1)), Return(Decision(Deny))];
    var after := [Return(Decision(Allow))];
    assert Mark(Fresh(2)) !in before;
    assert before + ([Mark(Fresh(2))] + after) == [Mark(Fresh(4))] + CALL_CODE;
    ReadLands(m, idx, before, after, Fresh(2), env, r);
  }

  /** The filter decides by the argument where the policy asks the helper: it is ruled as it says
      exactly if the argument is neither 1 nor 2, or the helper says yes. */
  lemma {:induction false} DroppedCallDecides(m: Machine, ps: Builts, nrs: Numbers, defaultDeny: bool, data: Data)
    requires Alone(ps, SHARED_CALL) && Concerns(m, SHARED_CALL, nrs, data)
    ensures |data.args| >= 1 && ps != []
    ensures var a := data.args[0];
      && Observed(m, ps, nrs, defaultDeny, data) == Some(Ruling(if 1 <= a <= 3 then Deny else Allow, data.args))
      && Intended(m, [SHARED_CALL], nrs, defaultDeny, data) ==
         Ruling(if a == 3 || ((a == 1 || a == 2) && m.helper("f", [a]) != 0) then Deny else Allow, data.args)
  {
    hide *;
    var ck := SHARED_CALL;
    ConcernsArgs(m, ck, nrs, data);
    ArgumentA(data.args);
    var env, idx := EnvOf(ck.params, data.args), ArgIndexOf(ck.params);
    AloneIs(ps, ck);
    BuiltBlocks(ps[0]);
    SharedIsFilter(ps[0].bs);
    FilterIsCheck(ck, Base(0, 0), ps[0].bs, 0);
    SharedCheckCode();
    SharedReads(m, idx, env, AtEntry(m, data));
    AloneReturns(m, ps, ck, nrs, defaultDeny, data);
    ObservedDecision(m, ps, nrs, defaultDeny, data, if 1 <= Lookup(env, "a") <= 3 then Deny else Allow);
    SharedSays(m, env);
    OneGuardSays(m, SharedCall(), env);
    IntendedAlone(m, ck, nrs, defaultDeny, data);
    UnassignedRegisters(ck.params, data.args);
  }

  lemma {:induction false} ArgumentA(args: seq<Word>)
    requires |SHARED_CALL.params| <= |args|
    ensures SHARED_CALL.params == ["a"] && SHARED_CALL.body == OneGuard(SharedCall())
    ensures Lookup(EnvOf(["a"], args), "a") == args[0]
  {
    assert ["a"][0] == "a";
    hide OneGuard;
  }

  lemma {:induction false} BuiltBlocks(b: Built)
    requires WellBuilt(b)
    ensures BlocksOf(b.ck, b.at, b.bs)
  {
  }

  lemma {:induction false} ObservedDecision(m: Machine, ps: Builts, nrs: Numbers, defaultDeny: bool, data: Data,
                                            p: Perm)
    requires ps != []
    requires RunF(m, data, Assembled(ResolvedFilter(ps, nrs, defaultDeny)), 0, 0, 0) ==
      Verdict(ReturnAction(Decision(p)))
    ensures Observed(m, ps, nrs, defaultDeny, data) == Some(Ruling(p, data.args))
  {
    hide RunF, ResolvedFilter, Assembled;
  }

  lemma {:induction false} SharedSays(m: Machine, env: Env)
    ensures var a := Lookup(env, "a");
      Holds(m, SharedCall(), env) <==> a == 3 || ((a == 1 || a == 2) && m.helper("f", [a]) != 0)
  {
    var a := Lookup(env, "a");
    assert ParamValues(["a"], env) == [a];
    assert Eval(m, Ref("a"), env) == a;
    assert Holds(m, Invoke("f", ["a"]), env) <==> m.helper("f", [a]) != 0;
    var e1, e2, e3 := Binary(EQ, Ref("a"), Value(1)), Binary(EQ, Ref("a"), Value(2)), Binary(EQ, Ref("a"), Value(3));
    assert Holds(m, e1, env) == (a == 1) && Holds(m, e2, env) == (a == 2) && Holds(m, e3, env) == (a == 3);
    var inner := Binary(OR, e1, e2);
    assert Holds(m, inner, env) == (a == 1 || a == 2);
    assert Holds(m, Binary(AND, inner, Invoke("f", ["a"])), env) == (Holds(m, inner, env) && m.helper("f", [a]) != 0);
  }

  // ---------- It compiles ----------

  lemma {:induction false} SharedGenerates(idx: ArgIndex)
    ensures GenAll(SHARED_CODE, EMPTY_STATE, idx).Some?
  {
    hide AddressMode, OpBits, LoadArgumentOrInt, ReturnAction, EqualsA;
    var tail := GuardTail(Fresh(1), Fresh(2));
    assert GenAll(tail, GenState(None, None), idx).Some? by { TailGenerates(idx); }
    hide GuardTail;
    assert CALL_CODE[1..] == [TEST_F] + tail && ([TEST_F] + tail)[1..] == tail;
    assert GenAll([TEST_F] + tail, EMPTY_STATE, idx).Some?;
    assert GenAll(CALL_CODE, EMPTY_STATE, idx).Some?;
    TestGenerates(idx, 2, 4, 2, Fresh(4), CALL_CODE);
    TestGenerates(idx, 1, 4, 5, Fresh(5), SECOND_TEST);
    TestGenerates(idx, 3, 1, 3, Fresh(3), FIRST_TEST);
  }

  lemma {:induction false} TailGenerates(idx: ArgIndex)
    ensures GenAll(GuardTail(Fresh(1), Fresh(2)), EMPTY_STATE, idx).Some?
  {
    var c := GuardTail(Fresh(1), Fresh(2));
    assert c[1..] == [Return(Decision(Deny)), Mark(Fresh(2)), Return(Decision(Allow))];
    assert c[1..][1..] == [Mark(Fresh(2)), Return(Decision(Allow))] && c[1..][1..][1..] == [Return(Decision(Allow))];
    assert c[1..][1..][1..][1..] == [];
    assert GenAll(c[1..][1..][1..], EMPTY_STATE, idx).Some?;
    assert GenAll(c[1..][1..], EMPTY_STATE, idx).Some?;
    assert GenAll(c[1..], EMPTY_STATE, idx).Some?;
  }

  lemma {:induction false} TestGenerates(idx: ArgIndex, n: Word, t: nat, f: nat, l: Label, rest: Code)
    requires GenAll(rest, EMPTY_STATE, idx).Some?
    ensures GenAll([EqualsA(n, t, f)] + ([Mark(l)] + rest), EMPTY_STATE, idx).Some?
  {
    hide AddressMode, OpBits, LoadArgumentOrInt;
    assert ([Mark(l)] + rest)[1..] == rest;
    assert ([EqualsA(n, t, f)] + ([Mark(l)] + rest))[1..] == [Mark(l)] + rest;
    assert GenAll([Mark(l)] + rest, EMPTY_STATE, idx).Some?;
  }

  lemma {:induction false} SharedHasFilter()
    ensures !Fails(SHARED_CALL)
  {
    forall bs: Blocks | GoodBlocks(SHARED_CALL, Base(0, 0), bs) && bs != [] && Ordered(bs)
      ensures FilterOf(SHARED_CALL, bs, 0).Some?
    {
      hide *;
      GoodIsOrdered(SHARED_CALL, Base(0, 0), bs);
      SharedIsFilter(bs);
      FilterIsCheck(SHARED_CALL, Base(0, 0), bs, 0);
      SharedCheckCode();
      FilterIsGen(SHARED_CALL, bs, 0);
      SharedGenerates(ArgIndexOf(SHARED_CALL.params));
    }
    hide GoodBlocks, FilterOf, SHARED_CALL;
  }

  lemma {:induction false} EqualsTyped(n: Word)
    ensures var e := Binary(EQ, Ref("a"), Value(n)); CondExpr(e) && ExprDeclared(["a"], e) && CondLength(e) == 1
  {
    assert IntExpr(Ref("a")) && IntExpr(Value(n));
  }

  lemma {:induction false} PairTyped(op: OpCode, l: Expr, r: Expr)
    requires op == AND || op == OR
    ensures var e := Binary(op, l, r);
      && (CondExpr(e) <==> CondExpr(l) && CondExpr(r)) &&
         (ExprDeclared(["a"], e) <==> ExprDeclared(["a"], l) && ExprDeclared(["a"], r))
      && CondLength(e) == CondLength(l) + 1 + CondLength(r)
  {
  }

  lemma {:induction false} CallTyped()
    ensures var e := Invoke("f", ["a"]); CondExpr(e) && ExprDeclared(["a"], e) && CondLength(e) == 2
  {
  }

  lemma {:induction false} SharedIsTyped()
    ensures var s := OneGuard(SharedCall());
      SHARED_CALL.body == s && SHARED_CALL.name == "nice" && WellTyped(s) && StmtDeclared(SHARED_CALL.params, s) &&
        ShortPolicy([SHARED_CALL])
  {
    hide CondExpr, ExprDeclared, CondLength, StmtDeclared, WellTyped, StmtLength, OneGuard;
    var e1, e2, e3 := Binary(EQ, Ref("a"), Value(1)), Binary(EQ, Ref("a"), Value(2)), Binary(EQ, Ref("a"), Value(3));
    EqualsTyped(1);
    EqualsTyped(2);
    EqualsTyped(3);
    CallTyped();
    var inner := Binary(OR, e1, e2);
    var both := Binary(AND, inner, Invoke("f", ["a"]));
    PairTyped(OR, e1, e2);
    PairTyped(AND, inner, Invoke("f", ["a"]));
    PairTyped(OR, e3, both);
    assert SharedCall() == Binary(OR, e3, both);
    OneGuardIsTyped(SharedCall());
    OneGuardText(["a"], SharedCall());
    assert LinesOf(SHARED_CALL) == 130;
    assert [SHARED_CALL][1..] == [] && LinesOfAll([SHARED_CALL][1..]) == 0;
    assert LinesOfAll([SHARED_CALL]) == 132;
  }

  /** The policy compiles, so there is such a filter. */
  method CompileSharedCall(nrs: Numbers, defaultDeny: bool) returns (out: Option<Output>, ghost ps: Builts)
    requires "nice" in nrs
    ensures out.Some? && Alone(ps, SHARED_CALL) && ps != [] && Outputs(out.value, ps, nrs, defaultDeny)
  {
    SharedIsTyped();
    SharedHasFilter();
    hide WellTyped, StmtDeclared, OneGuard, Fails, WellBuiltPolicy, Outputs, ShortPolicy;
    out, ps := CompileAlone(SHARED_CALL, nrs, defaultDeny);
  }
}
