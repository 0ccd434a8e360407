/** Jumps around an `else` that are deleted although the branch in front of it does not decide. */
module LimitsElse {
  import opened Syntax
  import opened Ir
  import opened IrGen
  import opened Merge
  import opened DeadCode
  import opened Bpf
  import opened BpfGen
  import opened Reading
  import opened Cfg
  import opened Colour
  import opened Check
  import opened Declared
  import opened CheckRun
  import opened Policy
  import opened PolicyRun
  import opened Idle
  import opened GuardCode
  import opened FilterOnly
  import opened Short
  import opened Compile
  import opened Limits
  import opened LimitsTracer

  /** `if (x op n) ; else p; q;` */
  function EmptyThen(op: OpCode, x: string, n: Word, p: Perm, q: Perm): Stmt {
    Compound([If(Binary(op, Ref(x), Value(n)), Empty, Some(Permit(p))), Permit(q)])
  }

  // ---------- The code ----------

  function ElseTest(op: OpCode, x: string, n: Word): Inst {
    Branch(op, Mem(x), Imm(n), Fresh(1), Fresh(2))
  }

  /** Both arms lead to the decision of the `else`, and the one behind it is gone. */
  function ElseCode(op: OpCode, x: string, n: Word, p: Perm): Code {
    [ElseTest(op, x, n), Mark(Fresh(1)), Mark(Fresh(2)), Return(Decision(p))]
  }

  function ElseRaw(op: OpCode, x: string, n: Word, p: Perm, q: Perm): Code {
    [ElseTest(op, x, n), Mark(Fresh(1)), Jump(Fresh(3)), Mark(Fresh(2)), Return(Decision(p)), Mark(Fresh(3)),
      Return(Decision(q))]
  }

  lemma {:induction false} RawIs(ck: Check, op: OpCode, x: string, n: Word, p: Perm, q: Perm)
    requires IsCompare(op) && ck.body == EmptyThen(op, x, n, p, q)
    ensures RawCode(ck, Base(0, 0)) == ElseRaw(op, x, n, p, q)
  {
    var cond := Binary(op, Ref(x), Value(n));
    var ss := ck.body.stmts;
    var s := If(cond, Empty, Some(Permit(p)));
    assert ss[0] == s && ss[1..] == [Permit(q)] && ss[1..][1..] == [];
    assert CondCode(cond, Fresh(1), Fresh(2), 2, 0) == Gen([ElseTest(op, x, n)], 2, 0);
    hide CondCode;
    assert StmtCode(Empty, 2, 0) == Gen([], 2, 0);
    assert StmtCode(Permit(p), 3, 0) == Gen([Return(Decision(p))], 3, 0);
    var g := StmtCode(s, 0, 0);
    assert g.code == [ElseTest(op, x, n), Mark(Fresh(1)), Jump(Fresh(3)), Mark(Fresh(2)), Return(Decision(p)),
      Mark(Fresh(3))];
    assert BodyCode(ss[1..], g.labels, g.ids).code == [Return(Decision(q))];
    assert StmtCode(ck.body, 0, 0).code == g.code + [Return(Decision(q))];
    assert g.code + [Return(Decision(q))] == ElseRaw(op, x, n, p, q);
  }

  lemma {:induction false} SweepStep(i: Inst, rest: Code, prev: Option<Inst>)
    ensures Sweep([i] + rest, prev) ==
      if prev.Some? && (prev.value.Return? || i.Jump?) && !i.Mark? then Sweep(rest, prev)
        else [i] + Sweep(rest, Some(i))
  {
    assert ([i] + rest)[1..] == rest;
  }

  lemma {:induction false} PurgeStep(i: Inst, rest: Code, prev: Option<Inst>, purging: bool, reach: set<Label>)
    ensures Purge([i] + rest, prev, purging, reach) ==
      if Dropped(i, prev, purging, reach) then Purge(rest, Some(i), true, reach)
      else [i] + Purge(rest, Some(i), false, reach + TargetSet(i))
  {
    assert ([i] + rest)[1..] == rest;
  }

  lemma {:induction false} SweptIs(b: Inst, p: Perm, q: Perm)
    requires b.Branch?
    ensures var t, f, out := Mark(Fresh(1)), Mark(Fresh(2)), Mark(Fresh(3));
      Sweep([b, t, Jump(Fresh(3)), f, Return(Decision(p)), out, Return(Decision(q))], None) ==
      [b, t, f, Return(Decision(p)), out, Return(Decision(q))]
  {
    hide Sweep;
    var t, f, out, j := Mark(Fresh(1)), Mark(Fresh(2)), Mark(Fresh(3)), Jump(Fresh(3));
    var r, r' := Return(Decision(p)), Return(Decision(q));
    assert [b, t, j, f, r, out, r'] == [b] + ([t] + ([j] + ([f] + ([r] + ([out] + ([r'] + []))))));
    NothingSwept(Some(r'));
    SweepStep(r', [], Some(out));
    SweepStep(out, [r'] + [], Some(r));
    SweepStep(r, [out] + ([r'] + []), Some(f));
    SweepStep(f, [r] + ([out] + ([r'] + [])), Some(t));
    SweepStep(j, [f] + ([r] + ([out] + ([r'] + []))), Some(t));
    SweepStep(t, [j] + ([f] + ([r] + ([out] + ([r'] + [])))), Some(b));
    SweepStep(b, [t] + ([j] + ([f] + ([r] + ([out] + ([r'] + []))))), None);
  }

  lemma {:induction false} NothingSwept(prev: Option<Inst>)
    ensures Sweep([], prev) == []
  {
  }

  lemma {:induction false} NothingPurged(prev: Option<Inst>, purging: bool, reach: set<Label>)
    ensures Purge([], prev, purging, reach) == []
  {
  }

  lemma {:induction false} PurgedIs(b: Inst, p: Perm, q: Perm)
    requires b.Branch? && b.t == Fresh(1) && b.f == Fresh(2)
    ensures var t, f, out := Mark(Fresh(1)), Mark(Fresh(2)), Mark(Fresh(3));
      var kept := [b, t, f, Return(Decision(p))];
      Purge(kept + [out, Return(Decision(q))], None, false, {}) == kept && Purge(kept, None, false, {}) == kept
  {
    var r, r', out := Return(Decision(p)), Return(Decision(q)), Mark(Fresh(3));
    var kept := [b, Mark(Fresh(1)), Mark(Fresh(2)), r];
    var reach := {Fresh(1), Fresh(2)};
    EndIsPurged(r, r', reach);
    hide Purge;
    FrontIsKept(b, r, [out] + ([r'] + []));
    FrontIsKept(b, r, []);
    assert kept == [b] + ([Mark(Fresh(1))] + ([Mark(Fresh(2))] + ([r] + [])));
    assert kept + [out, r'] ==
      [b] + ([Mark(Fresh(1))] + ([Mark(Fresh(2))] + ([r] + ([out] + ([r'] + [])))));
  }

  /** Behind the decision: nothing, or the block of a label that nothing goes to. */
  lemma {:induction false} EndIsPurged(r: Inst, r': Inst, reach: set<Label>)
    requires r.Return? && r'.Return? && reach == {Fresh(1), Fresh(2)}
    ensures Purge([], Some(r), false, reach) == [] && Purge([Mark(Fresh(3))] + ([r'] + []), Some(r), false, reach) == []
  {
    hide Purge;
    NothingPurged(Some(r), false, reach);
    NothingPurged(Some(r'), true, reach);
    PurgeStep(r', [], Some(Mark(Fresh(3))), true, reach);
    PurgeStep(Mark(Fresh(3)), [r'] + [], Some(r), false, reach);
  }

  lemma {:induction false} FrontIsKept(b: Inst, r: Inst, tail: Code)
    requires b.Branch? && b.t == Fresh(1) && b.f == Fresh(2) && r.Return?
    requires Purge(tail, Some(r), false, {Fresh(1), Fresh(2)}) == []
    ensures Purge([b] + ([Mark(Fresh(1))] + ([Mark(Fresh(2))] + ([r] + tail))), None, false, {}) ==
      [b] + ([Mark(Fresh(1))] + ([Mark(Fresh(2))] + ([r] + [])))
  {
    var t, f := Mark(Fresh(1)), Mark(Fresh(2));
    var reach := {} + TargetSet(b);
    assert reach == {Fresh(1), Fresh(2)} by { assert b.t in b.Targets() && b.f in b.Targets(); }
    assert TargetSet(t) == {} && TargetSet(f) == {} && TargetSet(r) == {};
    assert reach + {} == reach;
    hide Purge, TargetSet;
    PurgeStep(r, tail, Some(f), false, reach);
    PurgeStep(f, [r] + tail, Some(t), false, reach);
    PurgeStep(t, [f] + ([r] + tail), Some(b), false, reach);
    PurgeStep(b, [t] + ([f] + ([r] + tail)), None, false, {});
  }

  lemma {:induction false} ElseCheckCode(ck: Check, op: OpCode, x: string, n: Word, p: Perm, q: Perm)
    requires IsCompare(op) && ck.body == EmptyThen(op, x, n, p, q)
    ensures CheckCode(ck, Base(0, 0)) == ElseCode(op, x, n, p) && NoEffects(ElseCode(op, x, n, p))
  {
    assert NoEffects(ElseCode(op, x, n, p));
    var raw, kept := ElseRaw(op, x, n, p, q), ElseCode(op, x, n, p);
    assert NoAdjacentMarks(raw);
    var b := raw[0];
    assert b.Branch? && b.t == Fresh(1) && b.f == Fresh(2);
    assert raw == [b, Mark(Fresh(1)), Jump(Fresh(3)), Mark(Fresh(2)), Return(Decision(p)), Mark(Fresh(3)),
      Return(Decision(q))];
    assert kept == [b, Mark(Fresh(1)), Mark(Fresh(2)), Return(Decision(p))];
    var swept := kept + [Mark(Fresh(3)), Return(Decision(q))];
    assert swept == [b, Mark(Fresh(1)), Mark(Fresh(2)), Return(Decision(p)), Mark(Fresh(3)), Return(Decision(q))];
    hide *;
    RawIs(ck, op, x, n, p, q);
    NothingMerges(raw, false);
    RetargetIdle(raw);
    SweptIs(b, p, q);
    PurgedIs(b, p, q);
    SettlesTo(swept, kept);
    MergedIs(raw);
    FrontIsPassed(ck, Base(0, 0));
    LiveIs(raw);
  }

  lemma {:induction false} MergedIs(c: Code)
    requires Strip(c, false) == c && Heads(c, None) == map[] && RetargetAll(map[], c) == c
    ensures Merged(c) == c
  {
  }

  lemma {:induction false} LiveIs(c: Code)
    ensures Live(c) == Settle(Sweep(c, None))
  {
  }

  // ---------- The ruling ----------

  /** Whatever the test says, the filter returns the decision of the `else`. */
  lemma {:induction false} ElseReads(m: Machine, idx: ArgIndex, env: Env, r: Regs, op: OpCode, x: string, n: Word,
                                     p: Perm)
    requires IsCompare(op)
    ensures Read(m, idx, ElseCode(op, x, n, p), env, map[], r) == Settled(Decision(p))
  {
    var t, f, ret := Mark(Fresh(1)), Mark(Fresh(2)), [Return(Decision(p))];
    var c := ElseCode(op, x, n, p);
    var r' := Regs(Lookup(env, x), r.x);
    var yes := ReadTest(op, false, Lookup(env, x), n);
    TestReads(m, idx, env, r, op, x, n, [t] + ([f] + ret));
    assert c == [ElseTest(op, x, n)] + ([t] + ([f] + ret));
    DecisionReads(m, idx, env, r', p);
    hide Read, ReadJump, ReadTest;
    assert [] + ([t] + ([f] + ret)) == [t] + ([f] + ret);
    ReadLands(m, idx, [], [f] + ret, Fresh(1), env, r');
    ReadLands(m, idx, [t], ret, Fresh(2), env, r');
  }

  lemma {:induction false} TestReads(m: Machine, idx: ArgIndex, env: Env, r: Regs, op: OpCode, x: string, n: Word,
                                     rest: Code)
    requires IsCompare(op)
    ensures Read(m, idx, [ElseTest(op, x, n)] + rest, env, map[], r) ==
      ReadJump(m, idx, rest, if ReadTest(op, false, Lookup(env, x), n) then Fresh(1) else Fresh(2), env,
        Regs(Lookup(env, x), r.x))
  {
    hide ReadJump, ReadTest;
    assert ([ElseTest(op, x, n)] + rest)[1..] == rest;
  }

  lemma {:induction false} DecisionReads(m: Machine, idx: ArgIndex, env: Env, r: Regs, p: Perm)
    ensures Read(m, idx, [Return(Decision(p))], env, map[], r) == Settled(Decision(p))
    ensures Read(m, idx, [Mark(Fresh(2))] + [Return(Decision(p))], env, map[], r) == Settled(Decision(p))
  {
    var ret := [Return(Decision(p))];
    assert ([Mark(Fresh(2))] + ret)[1..] == ret;
    assert Read(m, idx, ret, env, map[], r) == Settled(Decision(p));
  }

  lemma {:induction false} ElseSays(m: Machine, env: Env, op: OpCode, x: string, n: Word, p: Perm, q: Perm)
    requires IsCompare(op)
    ensures Exec(m, EmptyThen(op, x, n, p, q), env) == Stop(if Compare(op, Lookup(env, x), n) then q else p, env)
  {
    hide Compare;
    var cond := Binary(op, Ref(x), Value(n));
    var ss := EmptyThen(op, x, n, p, q).stmts;
    assert ss[0] == If(cond, Empty, Some(Permit(p))) && ss[1..] == [Permit(q)] && ss[1..][0] == Permit(q);
    assert Holds(m, cond, env) <==> Compare(op, Lookup(env, x), n);
    assert Exec(m, ss[0], env) == if Compare(op, Lookup(env, x), n) then Next(env) else Stop(p, env);
    assert ExecAll(m, ss[1..], env) == Stop(q, env);
  }

  /** The policy is ruled as it says exactly where the test fails, or both decisions are the same. */
  lemma {:induction false} DeletedJumpIff(m: Machine, ps: Builts, ck: Check, nrs: Numbers, defaultDeny: bool,
                                          data: Data, op: OpCode, x: string, n: Word, p: Perm, q: Perm)
    requires IsCompare(op) && ck.body == EmptyThen(op, x, n, p, q) && Alone(ps, ck) && Concerns(m, ck, nrs, data)
    ensures ps != [] && |ck.params| <= |data.args|
    ensures Observed(m, ps, nrs, defaultDeny, data) == Some(Ruling(p, data.args))
    ensures Observed(m, ps, nrs, defaultDeny, data) == Some(Intended(m, [ck], nrs, defaultDeny, data)) <==>
      !Compare(op, Lookup(EnvOf(ck.params, data.args), x), n) || p == q
  {
    hide *;
    ConcernsArgs(m, ck, nrs, data);
    var env := EnvOf(ck.params, data.args);
    ElseCheckCode(ck, op, x, n, p, q);
    ElseReads(m, ArgIndexOf(ck.params), env, AtEntry(m, data), op, x, n, p);
    FilterRules(m, ps, ck, nrs, defaultDeny, data, p);
    ElseSays(m, env, op, x, n, p, q);
    IntendedAlone(m, ck, nrs, defaultDeny, data);
    UnassignedRegisters(ck.params, data.args);
  }

  // ---------- Such a policy ----------

  /** `if (a == 1) ; else deny; allow;` */
  const EMPTY_THEN: Check := Check("nice", ["a"], EmptyThen(EQ, "a", 1, Deny, Allow), {})

  lemma {:induction false} ElseGenerates(idx: ArgIndex, op: OpCode, x: string, n: Word, p: Perm)
    requires IsCompare(op)
    ensures GenAll(ElseCode(op, x, n, p), EMPTY_STATE, idx).Some?
  {
    hide AddressMode, OpBits, LoadArgumentOrInt, ReturnAction;
    var c := ElseCode(op, x, n, p);
    assert c[1..] == [Mark(Fresh(1)), Mark(Fresh(2)), Return(Decision(p))];
    assert c[1..][1..] == [Mark(Fresh(2)), Return(Decision(p))];
    assert c[1..][1..][1..] == [Return(Decision(p))] && c[1..][1..][1..][1..] == [];
    assert GenAll(c[1..][1..][1..], EMPTY_STATE, idx).Some?;
    assert GenAll(c[1..][1..], EMPTY_STATE, idx).Some?;
    assert GenAll(c[1..], EMPTY_STATE, idx).Some?;
  }

  lemma {:induction false} ElseHasFilter()
    ensures !Fails(EMPTY_THEN)
  {
    assert EMPTY_THEN.body == EmptyThen(EQ, "a", 1, Deny, Allow);
    forall bs: Blocks | GoodBlocks(EMPTY_THEN, Base(0, 0), bs) && bs != [] && Ordered(bs)
      ensures FilterOf(EMPTY_THEN, bs, 0).Some?
    {
      hide *;
      assert IsCompare(EQ) by { ComparesEqual(); }
      GoodIsOrdered(EMPTY_THEN, Base(0, 0), bs);
      ElseCheckCode(EMPTY_THEN, EQ, "a", 1, Deny, Allow);
      NothingIsTraced(EMPTY_THEN, Base(0, 0), bs, 0);
      FilterIsGen(EMPTY_THEN, bs, 0);
      ElseGenerates(ArgIndexOf(EMPTY_THEN.params), EQ, "a", 1, Deny);
    }
    hide GoodBlocks, FilterOf, EMPTY_THEN;
  }

  lemma {:induction false} ComparesEqual()
    ensures IsCompare(EQ)
  {
  }

  lemma {:induction false} ElseIsTyped()
    ensures var s := EmptyThen(EQ, "a", 1, Deny, Allow);
      && EMPTY_THEN.body == s && EMPTY_THEN.name == "nice" && EMPTY_THEN.params == ["a"]
      && WellTyped(s) && StmtDeclared(["a"], s) && ShortPolicy([EMPTY_THEN])
      && Decides(s) && !ThenBranchesDecide(s)
  {
    var s := EmptyThen(EQ, "a", 1, Deny, Allow);
    var cond := Binary(EQ, Ref("a"), Value(1));
    var ifs := If(cond, Empty, Some(Permit(Deny)));
    assert s.stmts[0] == ifs && s.stmts[1] == Permit(Allow) && s.stmts[1..] == [Permit(Allow)];
    assert s.stmts[1..][1..] == [];
    assert s.stmts[0] in s.stmts && s.stmts[1] in s.stmts;
    assert CondExpr(cond) && ExprDeclared(["a"], cond) && CondLength(cond) == 1;
    assert WellTyped(ifs) && StmtDeclared(["a"], ifs) && StmtLength(ifs) == 6;
    assert BodyLength(s.stmts[1..]) == 1 && StmtLength(s) == 7;
    assert [EMPTY_THEN][1..] == [] && LinesOf(EMPTY_THEN) == 80;
  }

  /** It compiles, and denies one, which it says it allows. */
  method CompileEmptyThen(nrs: Numbers, defaultDeny: bool) returns (out: Option<Output>, ghost ps: Builts)
    requires "nice" in nrs
    ensures out.Some? && Alone(ps, EMPTY_THEN) && ps != [] && Outputs(out.value, ps, nrs, defaultDeny)
    ensures forall m, data | Concerns(m, EMPTY_THEN, nrs, data) :: |data.args| >= 1 && (data.args[0] == 1 ==>
      && Observed(m, ps, nrs, defaultDeny, data) == Some(Ruling(Deny, data.args))
      && Intended(m, [EMPTY_THEN], nrs, defaultDeny, data) == Ruling(Allow, data.args))
  {
    ElseIsTyped();
    ElseHasFilter();
    hide *;
    out, ps := CompileAlone(EMPTY_THEN, nrs, defaultDeny);
    IsAlone(ps, EMPTY_THEN);
    forall m, data | Concerns(m, EMPTY_THEN, nrs, data)
      ensures |data.args| >= 1 && (data.args[0] == 1 ==>
        && Observed(m, ps, nrs, defaultDeny, data) == Some(Ruling(Deny, data.args))
        && Intended(m, [EMPTY_THEN], nrs, defaultDeny, data) == Ruling(Allow, data.args))
    {
      OneIsDenied(m, ps, nrs, defaultDeny, data);
    }
  }

  /** One is denied, and the policy says it is allowed. */
  lemma {:induction false} OneIsDenied(m: Machine, ps: Builts, nrs: Numbers, defaultDeny: bool, data: Data)
    requires Alone(ps, EMPTY_THEN) && Concerns(m, EMPTY_THEN, nrs, data)
    ensures ps != [] && |data.args| >= 1
    ensures data.args[0] == 1 ==>
      && Observed(m, ps, nrs, defaultDeny, data) == Some(Ruling(Deny, data.args))
      && Intended(m, [EMPTY_THEN], nrs, defaultDeny, data) == Ruling(Allow, data.args)
  {
    var one: Word := 1;
    ElseIsTyped();
    hide *;
    ConcernsArgs(m, EMPTY_THEN, nrs, data);
    ComparesEqual();
    OneArgument(data.args);
    DeletedJumpIff(m, ps, EMPTY_THEN, nrs, defaultDeny, data, EQ, "a", one, Deny, Allow);
    var env := EnvOf(EMPTY_THEN.params, data.args);
    ElseSays(m, env, EQ, "a", one, Deny, Allow);
    IntendedAlone(m, EMPTY_THEN, nrs, defaultDeny, data);
    UnassignedRegisters(EMPTY_THEN.params, data.args);
  }

  lemma {:induction false} OneArgument(args: seq<Word>)
    requires |args| >= |["a"]|
    ensures Lookup(EnvOf(["a"], args), "a") == args[0] && (Compare(EQ, args[0], 1) <==> args[0] == 1)
  {
    assert ["a"][0] == "a";
  }
}
