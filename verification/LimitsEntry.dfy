/** Hand-offs into the middle of a block, which the lifter leaves out: guards whose first call is
    not the first thing that is computed. */
module LimitsEntry {
  import opened Syntax
  import opened Ir
  import opened IrGen
  import opened Cfg
  import opened Colour
  import opened Split
  import opened Bpf
  import opened Scratch
  import opened Lifter
  import opened Resolve
  import opened Check
  import opened Declared
  import opened CheckRun
  import opened Policy
  import opened PolicyRun
  import opened GuardCode
  import opened Guarded
  import opened Short
  import opened Compile
  import opened GuardedPolicy
  import opened Limits
  import opened LimitsText

  // ---------- What is computed first ----------

  lemma {:induction false} ExprStartsElsewhere(e: Expr, id: nat)
    requires Computed(e) && !StartsWithCall(e)
    ensures ExprCode(e, id).code != [] && !ExprCode(e, id).code[0].Effect()
    decreases Size(e)
  {
    match e {
      case Unary(_, arg) =>
        if Computed(arg) {
          ExprStartsElsewhere(arg, id);
        }
      case Binary(_, left, right) => PairStartsElsewhere(left, right, id);
    }
  }

  lemma {:induction false} PairStartsElsewhere(left: Expr, right: Expr, id: nat)
    requires !PairStartsWithCall(left, right)
    ensures var c := ExprCode(left, id).code + ExprCode(right, ExprCode(left, id).ids).code; c != [] ==> !c[0].Effect()
    decreases Size(left) + Size(right)
  {
    if Computed(left) {
      ExprStartsElsewhere(left, id);
    } else {
      assert ExprCode(left, id).code == [];
      if Computed(right) {
        ExprStartsElsewhere(right, id);
      }
    }
  }

  lemma {:induction false} CondStartsElsewhere(e: Expr, t: Label, f: Label, lab: nat, id: nat)
    requires Simple(e) && !CondStartsWithCall(e)
    ensures CondCode(e, t, f, lab, id).code != [] && !CondCode(e, t, f, lab, id).code[0].Effect()
  {
    if e.Unary? && e.op == NOT {
      CondStartsElsewhere(e.arg, f, t, lab, id);
    } else {
      var (l, _, r) := Test(e);
      PairStartsElsewhere(l, r, id);
    }
  }

  lemma {:induction false} ExprCalls(e: Expr, id: nat)
    requires !NoCalls(e)
    ensures HasEffect(ExprCode(e, id).code)
    decreases Size(e)
  {
    match e {
      case Invoke(_, _) =>
        assert ExprCode(e, id).code[0] in ExprCode(e, id).code;
      case Unary(_, arg) =>
        ExprCalls(arg, id);
        EffectWithin(ExprCode(arg, id).code, [], ExprCode(e, id).code);
      case Binary(_, left, right) =>
        PairCalls(left, right, id);
        EffectWithin(ExprCode(left, id).code + ExprCode(right, ExprCode(left, id).ids).code, [], ExprCode(e, id).code);
    }
  }

  lemma {:induction false} PairCalls(left: Expr, right: Expr, id: nat)
    requires !NoCalls(left) || !NoCalls(right)
    ensures HasEffect(ExprCode(left, id).code + ExprCode(right, ExprCode(left, id).ids).code)
    decreases Size(left) + Size(right)
  {
    var x, y := ExprCode(left, id).code, ExprCode(right, ExprCode(left, id).ids).code;
    if !NoCalls(left) {
      ExprCalls(left, id);
      EffectWithin(x, [], x + y);
    } else {
      ExprCalls(right, ExprCode(left, id).ids);
      EffectWithin(y, x, x + y);
    }
  }

  lemma {:induction false} EffectWithin(c: Code, before: Code, whole: Code)
    requires HasEffect(c) && |before| + |c| <= |whole| && whole[|before|..|before| + |c|] == c
    ensures HasEffect(whole)
  {
    var i :| i in c && i.Effect();
    var k :| 0 <= k < |c| && c[k] == i;
    assert whole[|before| + k] == i;
  }

  lemma {:induction false} CondCalls(e: Expr, t: Label, f: Label, lab: nat, id: nat)
    requires Simple(e) && !NoCalls(e)
    ensures HasEffect(CondCode(e, t, f, lab, id).code)
  {
    if e.Unary? && e.op == NOT {
      CondCalls(e.arg, f, t, lab, id);
    } else {
      var (l, _, r) := Test(e);
      var x, y := ExprCode(l, id), ExprCode(r, ExprCode(l, id).ids);
      PairCalls(l, r, id);
      EffectWithin(x.code + y.code, [], TestCode(e, t, f, lab, id).code);
    }
  }

  // ---------- The entry block ----------

  /** Guards of which the first asks a helper, but computes something else before. */
  predicate AsksLate(s: Stmt) {
    var ss := AsList(s);
    Guards(ss) && ss[0].If? && !NoCalls(ss[0].cond) && !CondStartsWithCall(ss[0].cond)
  }

  /** The filter leaves everything to the tracer, and the lifter leaves the entry block out. */
  lemma {:induction false} EntryIsLeftOut(ck: Check, bs: Blocks)
    requires GoodBlocks(ck, Base(0, 0), bs) && AsksLate(ck.body)
    ensures bs != [] && Ordered(bs) && !StartsAtTop(bs) && 0 !in LiftedSet(bs) && bs[0].label_ == Named(ck.name)
    ensures FilterIr(bs, 0) == [Return(ToPtrace(0))] && TableOf(bs, 0) == [Named(ck.name)]
  {
    hide *;
    GoodIsOrdered(ck, Base(0, 0), bs);
    LateParts(ck, bs);
    BlocksAreParts(ck, Base(0, 0), bs);
    FirstPart(ck.body, Named(ck.name));
    var cond := AsList(ck.body)[0].cond;
    CondStartsElsewhere(cond, Fresh(1), Fresh(2), 2, 0);
    CondCalls(cond, Fresh(1), Fresh(2), 2, 0);
    LateEntry(bs, ck.name);
  }

  lemma {:induction false} LateParts(ck: Check, bs: Blocks)
    requires GoodBlocks(ck, Base(0, 0), bs) && AsksLate(ck.body)
    ensures BlocksOf(ck, Base(0, 0), bs) && Guards(AsList(ck.body)) && AsList(ck.body) != []
    ensures var s := AsList(ck.body)[0]; s.If? && Simple(s.cond) && !NoCalls(s.cond) && !CondStartsWithCall(s.cond)
  {
    hide BlocksOf, Simple, NoCalls, CondStartsWithCall;
  }

  lemma {:induction false} FirstPart(s: Stmt, l: Label)
    requires Guards(AsList(s)) && AsList(s)[0].If?
    ensures var ps := Parts(AsList(s), l, 0, 0);
      |ps| > 0 && ps[0].label_ == l && ps[0].insts == CondCode(AsList(s)[0].cond, Fresh(1), Fresh(2), 2, 0).code
  {
    hide CondCode, StmtCode;
  }

  lemma {:induction false} LateEntry(bs: Blocks, name: string)
    requires bs != [] && Ordered(bs) && bs[0].label_ == Named(name)
    requires HasEffect(bs[0].insts) && bs[0].insts != [] && !bs[0].insts[0].Effect()
    ensures !StartsAtTop(bs) && 0 !in LiftedSet(bs)
    ensures FilterIr(bs, 0) == [Return(ToPtrace(0))] && TableOf(bs, 0) == [Named(name)]
  {
    hide HasEffect;
    assert forall p | p in bs[0].parents :: p < 0;
    assert Coloured(bs, 0) && Start(bs, 0) == FirstEffect(bs[0].insts) > 0 && Only(bs, 0);
    assert [Mark(Named(name)), Return(ToPtrace(0))][1..] == [Return(ToPtrace(0))];
  }

  // ---------- The policy ----------

  /** The tracer's text has no line for the hand-off to go to. */
  lemma {:induction false} NoLabelInText(b: Built)
    requires b.bs != [] && Ordered(b.bs) && DistinctLabels(b.bs) && 0 !in LiftedSet(b.bs)
    ensures LabelC(b.bs[0].label_) !in Text(b)
  {
    var x := JobOf(b.ck, b.at, b.bs, b.n);
    hide LiftedSet, TableOf, WellFormedJob, ProgramLines, Ordered;
    if WellFormedJob(x) {
      ProgramLiftedLabels(x, 0);
    }
  }

  /** So nothing is decided, whatever the policy says. */
  lemma {:induction false} AsksLateUndecided(m: Machine, ps: Builts, ck: Check, nrs: Numbers, defaultDeny: bool,
                                             data: Data)
    requires Alone(ps, ck) && Concerns(m, ck, nrs, data) && AsksLate(ck.body)
    ensures ps != [] && Observed(m, ps, nrs, defaultDeny, data) == None
  {
    hide *;
    AloneIs(ps, ck);
    var b, l := ps[0], Named(ck.name);
    ConcernsArgs(m, ck, nrs, data);
    BuiltIsCompiled(b);
    CompiledIsGood(ck, b.at, b.bs, 0);
    GoodIsOrdered(ck, b.at, b.bs);
    EntryIsLeftOut(ck, b.bs);
    NoLabelInText(b);
    TextAlone(ps);
    HandsOff(m, EnvOf(ck.params, data.args), ArgIndexOf(ck.params), AtEntry(m, data));
    AloneReturns(m, ps, ck, nrs, defaultDeny, data);
    NowhereToGo(m, ps, nrs, defaultDeny, data, l);
  }

  lemma {:induction false} NowhereToGo(m: Machine, ps: Builts, nrs: Numbers, defaultDeny: bool, data: Data, l: Label)
    requires |ps| == 1 && ps[0].bs != [] && Ordered(ps[0].bs) && TableOf(ps[0].bs, ps[0].n) == [l]
    requires LabelC(l) !in TracerText(ps)
    requires RunF(m, data, Assembled(ResolvedFilter(ps, nrs, defaultDeny)), 0, 0, 0) == Verdict(RetTrace(0))
    ensures Observed(m, ps, nrs, defaultDeny, data) == None
  {
    hide RunF, ResolvedFilter, Assembled, RunC, TracerText, AfterLabel, EnvOf, HasTracerBlock, OwnerOf, TableOf;
    assert JmpTable(ps[1..]) == [];
    assert JmpTable(ps) == [l];
  }

  /** `if (cond) deny; allow;` with a call is ruled as it says exactly if the condition begins with
      one; otherwise nothing is decided. */
  lemma {:induction false} TracedGuardIff(m: Machine, ps: Builts, ck: Check, nrs: Numbers, defaultDeny: bool,
                                          data: Data, cond: Expr)
    requires ck.body == OneGuard(cond) && SingleTest(cond) && !NoCalls(cond) && m.jumps && m.alu == Alu32
    requires Alone(ps, ck) && Concerns(m, ck, nrs, data)
    ensures ps != []
    ensures Observed(m, ps, nrs, defaultDeny, data) == Some(Intended(m, [ck], nrs, defaultDeny, data)) <==>
      CondStartsWithCall(cond)
    ensures !CondStartsWithCall(cond) ==> Observed(m, ps, nrs, defaultDeny, data) == None
  {
    hide *;
    OneGuardIsGuards(cond);
    GuardIsScreened(ck, cond);
    ConcernsArgs(m, ck, nrs, data);
    if CondStartsWithCall(cond) {
      AloneParts(ps, ck);
      AloneIsChosen(m, ps, ck, nrs, data);
      ShortFits(ps, nrs, defaultDeny);
      Alu32Commutes(m);
      PlainPolicyRules(m, ps, nrs, defaultDeny, data);
    } else {
      AsksLateUndecided(m, ps, ck, nrs, defaultDeny, data);
    }
  }

  lemma {:induction false} AloneParts(ps: Builts, ck: Check)
    requires Alone(ps, ck)
    ensures WellBuiltPolicy(ps) && Checks(ps) == [ck] && ShortPolicy(Checks(ps))
  {
  }

  lemma {:induction false} GuardIsScreened(ck: Check, cond: Expr)
    requires ck.body == OneGuard(cond) && !NoCalls(cond) && Guards(AsList(OneGuard(cond)))
    ensures if CondStartsWithCall(cond) then PlainCheck(ck) else AsksLate(ck.body)
  {
    hide NoCalls, CondStartsWithCall, Simple;
    var ss := OneGuard(cond).stmts;
    assert ss[0] == If(cond, Permit(Deny), None) && ss[1..] == [Permit(Allow)] && ss[1..][1..] == [];
    assert AsList(Permit(Deny)) == [Permit(Deny)] && LeafList([Permit(Deny)]);
    assert LeafScreened(ck.copied, [Permit(Deny)], true) && LeafScreened(ck.copied, ss[1..], true);
    if CondStartsWithCall(cond) {
      hide LeafScreened;
      assert TestScreened(cond, false) && Screened(ck.copied, ss[1..], true);
    }
  }

  // ---------- Such a policy ----------

  /** `a + 1 == f(b)` */
  const LATE_CALL: Expr := Binary(EQ, Binary(PLUS, Ref("a"), Value(1)), Invoke("f", ["b"]))

  /** `if (a + 1 == f(b)) deny; allow;` */
  const ASKS_LATE: Check := Check("nice", ["a", "b"], OneGuard(LATE_CALL), {})

  /** It compiles, and no syscall that it is for is decided. */
  method CompileAsksLate(nrs: Numbers, defaultDeny: bool) returns (out: Option<Output>, ghost ps: Builts)
    requires "nice" in nrs
    ensures out.Some? && Alone(ps, ASKS_LATE) && ps != [] && Outputs(out.value, ps, nrs, defaultDeny)
    ensures forall m, data | Concerns(m, ASKS_LATE, nrs, data) :: Observed(m, ps, nrs, defaultDeny, data) == None
  {
    LateIsTyped();
    LateHasFilter();
    hide *;
    out, ps := CompileAlone(ASKS_LATE, nrs, defaultDeny);
    IsAlone(ps, ASKS_LATE);
    forall m, data | Concerns(m, ASKS_LATE, nrs, data)
      ensures Observed(m, ps, nrs, defaultDeny, data) == None
    {
      AsksLateUndecided(m, ps, ASKS_LATE, nrs, defaultDeny, data);
    }
  }

  lemma {:induction false} LateIsTyped()
    ensures var s := OneGuard(LATE_CALL);
      && ASKS_LATE.body == s && ASKS_LATE.name == "nice" && WellTyped(s) && StmtDeclared(ASKS_LATE.params, s)
      && ShortPolicy([ASKS_LATE]) && AsksLate(s)
  {
    LateCall(LATE_CALL);
    LateFields();
    hide *;
    OneGuardIsTyped(LATE_CALL);
    OneGuardText(["a", "b"], LATE_CALL);
    OneGuardIsGuards(LATE_CALL);
    GuardIsScreened(ASKS_LATE, LATE_CALL);
    GuardIsShort(ASKS_LATE, LATE_CALL);
  }

  lemma {:induction false} LateFields()
    ensures ASKS_LATE.body == OneGuard(LATE_CALL) && ASKS_LATE.name == "nice" && ASKS_LATE.params == ["a", "b"]
  {
  }

  lemma {:induction false} GuardIsShort(ck: Check, cond: Expr)
    requires ck.body == OneGuard(cond) && CondLength(cond) <= 17 && StmtLength(OneGuard(cond)) == CondLength(cond) + 4
    ensures ShortPolicy([ck])
  {
    hide StmtLength, CondLength, OneGuard;
    assert [ck][1..] == [] && LinesOfAll([ck][1..]) == 0;
    assert LinesOf(ck) == 10 * (1 + CondLength(cond) + 4);
    assert LinesOfAll([ck]) == 2 + LinesOf(ck);
  }

  lemma {:induction false} LateCall(e: Expr)
    requires e == LATE_CALL
    ensures CondExpr(e) && ExprDeclared(["a", "b"], e) && CondLength(e) == 3 && !NoCalls(e) && !CondStartsWithCall(e)
    ensures SingleTest(e)
  {
    assert IntExpr(e.left) && IntExpr(e.right) && CondExpr(e);
    assert ExprDeclared(["a", "b"], e.left) && ExprDeclared(["a", "b"], e.right);
    assert ExprLength(e.left) == 1 && ExprLength(e.right) == 1 && CondLength(e) == 3;
    assert !NoCalls(e.right) && !StartsWithCall(e.left);
  }

  lemma {:induction false} LateHasFilter()
    requires AsksLate(ASKS_LATE.body)
    ensures !Fails(ASKS_LATE)
  {
    forall bs: Blocks | GoodBlocks(ASKS_LATE, Base(0, 0), bs) && bs != [] && Ordered(bs)
      ensures FilterOf(ASKS_LATE, bs, 0).Some?
    {
      hide *;
      EntryIsLeftOut(ASKS_LATE, bs);
      FilterIsGen(ASKS_LATE, bs, 0);
      ReturnGenerates(ArgIndexOf(ASKS_LATE.params));
    }
    hide GoodBlocks, FilterOf, ASKS_LATE;
  }
}
