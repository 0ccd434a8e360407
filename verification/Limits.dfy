/** Where the filter does not do what the policy says, and exactly when it does: policies of one
    guard, compiled and run. */
module Limits {
  import opened Syntax
  import opened Ir
  import opened IrGen
  import opened Cfg
  import opened Colour
  import opened Bpf
  import opened BpfGen
  import opened Reading
  import opened Misread
  import opened Scratch
  import opened Generated
  import opened FrontEnd
  import opened Resolve
  import opened Dispatch
  import opened Check
  import opened Declared
  import opened CheckRun
  import opened Policy
  import opened PolicyRun
  import opened EmitShape
  import opened GuardCode
  import opened FilterOnly
  import opened Short
  import opened Compile

  // ---------- Hand-off numbers ----------

  /** A hand-off number reaches the tracer exactly if it has sixteen bits. */
  lemma {:induction false} NumberSurvivesIff(n: nat)
    ensures ReturnAction(ToPtrace(n)) == RetTrace(n) <==> n < 0x1_0000
  {
  }

  // ---------- Policies of one check ----------

  /** The policy of this check alone, compiled. */
  ghost predicate Alone(ps: Builts, ck: Check) {
    WellBuiltPolicy(ps) && Checks(ps) == [ck] && ShortPolicy([ck])
  }

  lemma {:induction false} IsAlone(ps: Builts, ck: Check)
    requires WellBuiltPolicy(ps) && Checks(ps) == [ck] && ShortPolicy([ck])
    ensures Alone(ps, ck)
  {
  }

  /** A syscall that the check is for. */
  predicate Concerns(m: Machine, ck: Check, nrs: Numbers, data: Data) {
    data.arch == T_ARCH && SyscallNr(m, data) == NumberOf(nrs, ck.name) && |ck.params| <= |data.args|
  }

  lemma {:induction false} AloneIs(ps: Builts, ck: Check)
    requires Alone(ps, ck)
    ensures |ps| == 1 && ps[0].ck == ck && ps[0].at == Base(0, 0) && ps[0].n == 0 && WellBuilt(ps[0])
    ensures ps[0].bs != [] && Ordered(ps[0].bs)
  {
    hide WellBuilt;
    assert Checks(ps)[0] == ck;
    BuiltIsCompiled(ps[0]);
    CompiledIsGood(ck, ps[0].at, ps[0].bs, 0);
  }

  /** Then the filter returns what the reading of its code says. */
  lemma {:induction false} AloneReturns(m: Machine, ps: Builts, ck: Check, nrs: Numbers, defaultDeny: bool, data: Data)
    requires Alone(ps, ck) && Concerns(m, ck, nrs, data)
    ensures |ps| == 1 && ps[0].bs != [] && Ordered(ps[0].bs)
    ensures var reading := Read(m, ArgIndexOf(ck.params), FilterIr(ps[0].bs, 0), EnvOf(ck.params, data.args), map[],
      AtEntry(m, data));
      reading.Settled? ==>
        RunF(m, data, Assembled(ResolvedFilter(ps, nrs, defaultDeny)), 0, 0, 0) == Verdict(ReturnAction(reading.val))
  {
    hide RunF, Read, FilterIr, ReturnAction, EnvOf, WellBuilt, Assembled, ResolvedFilter, WellBuiltPolicy, ShortPolicy,
      NarrowOffsets, SyscallNr, InSequence, ChosenAt;
    AloneIs(ps, ck);
    ShortFits(ps, nrs, defaultDeny);
    AloneIsChosen(m, ps, ck, nrs, data);
    assert ps[0..] == ps && ps[0] in ps;
    StartIs(m, data, ps, nrs, defaultDeny);
    PolicyReads(m, ps, nrs, defaultDeny, data);
  }

  /** The number leads to the check. */
  lemma {:induction false} AloneIsChosen(m: Machine, ps: Builts, ck: Check, nrs: Numbers, data: Data)
    requires Alone(ps, ck) && Concerns(m, ck, nrs, data)
    ensures ChosenAt(m, ps, nrs, data) == Some(0) && DistinctNames(ps)
  {
    hide WellBuilt, WellBuiltPolicy, ShortPolicy, SyscallNr, EntryOf;
    AloneIs(ps, ck);
    NamesAreLookedUp(m, ps, nrs, data);
    assert Entries(ps, nrs)[0].nr == NumberOf(nrs, ck.name) by { EntryIs(ps[0], nrs); }
    hide ChosenAt, Entries;
    assert FindEntry(Entries(ps, nrs), SyscallNr(m, data)) == Some(0);
  }

  /** A check without calls and stores is ruled by the filter as its code reads. */
  lemma {:induction false} FilterRules(m: Machine, ps: Builts, ck: Check, nrs: Numbers, defaultDeny: bool, data: Data,
                                       p: Perm)
    requires Alone(ps, ck) && Concerns(m, ck, nrs, data) && NoEffects(CheckCode(ck, Base(0, 0)))
    requires Read(m, ArgIndexOf(ck.params), CheckCode(ck, Base(0, 0)), EnvOf(ck.params, data.args), map[],
      AtEntry(m, data)) == Settled(Decision(p))
    ensures ps != [] && Observed(m, ps, nrs, defaultDeny, data) == Some(Ruling(p, data.args))
  {
    hide RunF, Read, FilterIr, EnvOf, WellTyped, VariablesDeclared, BlocksOf, FilterOf, Assembled, ResolvedFilter,
      CheckCode, NoEffects, Traced,
      Alone, Concerns, AtEntry, Ordered, TableOf;
    AloneIs(ps, ck);
    AloneReturns(m, ps, ck, nrs, defaultDeny, data);
    NothingIsTraced(ck, Base(0, 0), ps[0].bs, 0);
  }

  /** What the policy says of a syscall that the check is for. */
  lemma {:induction false} IntendedAlone(m: Machine, ck: Check, nrs: Numbers, defaultDeny: bool, data: Data)
    requires Concerns(m, ck, nrs, data)
    ensures Intended(m, [ck], nrs, defaultDeny, data) ==
      match Exec(m, ck.body, EnvOf(ck.params, data.args))
      case Stop(p, env) => Ruling(p, Registers(ck.params, data.args, env))
      case Next(env) => Ruling(if defaultDeny then Deny else Allow, Registers(ck.params, data.args, env))
  {
    hide Exec, EnvOf, Registers, SyscallNr;
    assert CheckFor([ck], nrs, SyscallNr(m, data)) == Some(ck);
  }

  // ---------- One guard ----------

  /** `if (cond) deny; allow;` */
  function OneGuard(cond: Expr): Stmt {
    Compound([If(cond, Permit(Deny), None), Permit(Allow)])
  }

  /** A test without boolean operators. */
  predicate SingleTest(e: Expr) {
    !(e.Unary? && e.op == NOT) && !(e.Binary? && (e.op == AND || e.op == OR))
  }

  function GuardTail(t: Label, f: Label): Code {
    [Mark(t), Return(Decision(Deny)), Mark(f), Return(Decision(Allow))]
  }

  lemma {:induction false} OneGuardIsGuards(cond: Expr)
    requires SingleTest(cond)
    ensures Guards(AsList(OneGuard(cond)))
  {
    var ss := OneGuard(cond).stmts;
    assert ss[1..] == [Permit(Allow)] && ss[1..][1..] == [];
    assert LeafList(ss[1..]) && Guards(ss[1..]);
  }

  lemma {:induction false} OneGuardParts(cond: Expr)
    requires SingleTest(cond) && Guards(AsList(OneGuard(cond)))
    ensures PartsCode(AsList(OneGuard(cond)), 0, 0) ==
      TestCode(cond, Fresh(1), Fresh(2), 2, 0).code + GuardTail(Fresh(1), Fresh(2))
  {
    hide TestCode, Simple;
    var ss := OneGuard(cond).stmts;
    var t, f := Fresh(1), Fresh(2);
    var c := CondCode(cond, t, f, 2, 0);
    assert c == TestCode(cond, t, f, 2, 0);
    hide CondCode;
    var rest := ss[1..];
    assert rest == [Permit(Allow)] && rest[1..] == [];
    assert BodyCode(rest, c.labels, c.ids).code == [Return(Decision(Allow))];
    assert PartsCode(rest, c.labels, c.ids) == [Return(Decision(Allow))];
    assert c.code + [Mark(t)] + [Return(Decision(Deny))] + [Mark(f)] + [Return(Decision(Allow))] ==
      c.code + GuardTail(t, f);
  }

  /** The code of a policy of one guard. */
  lemma {:induction false} OneGuardCode(ck: Check, cond: Expr)
    requires ck.body == OneGuard(cond) && SingleTest(cond)
    ensures CheckCode(ck, Base(0, 0)) == TestCode(cond, Fresh(1), Fresh(2), 2, 0).code + GuardTail(Fresh(1), Fresh(2))
    ensures NoCalls(cond) ==> NoEffects(CheckCode(ck, Base(0, 0)))
  {
    hide TestCode, PartsCode, Guards, FrontCode, OneGuard, CondCode;
    OneGuardIsGuards(cond);
    OneGuardParts(cond);
    GuardsFront(ck.body, 0, 0);
    if NoCalls(cond) {
      CondHasNoEffects(cond, Fresh(1), Fresh(2), 2, 0);
      assert CondCode(cond, Fresh(1), Fresh(2), 2, 0) ==
        TestCode(cond, Fresh(1), Fresh(2), 2, 0) by { TestIsCond(cond, Fresh(1), Fresh(2), 2, 0); }
    }
  }

  lemma {:induction false} TestIsCond(cond: Expr, t: Label, f: Label, lab: nat, id: nat)
    requires SingleTest(cond)
    ensures CondCode(cond, t, f, lab, id) == TestCode(cond, t, f, lab, id)
  {
    hide TestCode;
  }

  lemma {:induction false} OneGuardSays(m: Machine, cond: Expr, env: Env)
    ensures Exec(m, OneGuard(cond), env) == Stop(if Holds(m, cond, env) then Deny else Allow, env)
  {
    hide Holds;
    var ss := OneGuard(cond).stmts;
    assert ss[0] == If(cond, Permit(Deny), None) && ss[1..] == [Permit(Allow)] && ss[1..][0] == Permit(Allow);
    assert Exec(m, ss[0], env) == if Holds(m, cond, env) then Stop(Deny, env) else Next(env);
    assert Exec(m, Permit(Allow), env) == Stop(Allow, env);
    assert ExecAll(m, ss[1..], env) == Stop(Allow, env);
  }

  /** Behind its test the filter returns the decision of the arm that was taken. */
  lemma {:induction false} TailReads(m: Machine, idx: ArgIndex, env: Env, r: Regs, yes: bool)
    ensures ReadJump(m, idx, GuardTail(Fresh(1), Fresh(2)), if yes then Fresh(1) else Fresh(2), env, r)
         == Settled(Decision(if yes then Deny else Allow))
  {
    var c := GuardTail(Fresh(1), Fresh(2));
    assert c[1..] == [Return(Decision(Deny)), Mark(Fresh(2)), Return(Decision(Allow))];
    assert c[1..][1..] == [Mark(Fresh(2)), Return(Decision(Allow))] && c[1..][1..][1..] == [Return(Decision(Allow))];
    assert c[0] == Mark(Fresh(1)) && c[2] == Mark(Fresh(2));
    if yes {
      assert After(c, Fresh(1)) == c[1..];
    } else {
      assert After(c, Fresh(2)) == [Return(Decision(Allow))];
    }
  }

  /** A test of two operands that need no computation. */
  lemma {:induction false} PlainTestReads(m: Machine, idx: ArgIndex, op: OpCode, x: string, b: Operand, env: Env,
                                          r: Regs)
    requires !b.Tmp?
    ensures Read(m, idx, [Branch(op, Mem(x), b, Fresh(1), Fresh(2))] + GuardTail(Fresh(1), Fresh(2)), env, map[], r)
         == Settled(Decision(if ReadTest(op, b.Mem?, Lookup(env, x), KValue(KField(b, idx))) then Deny else Allow))
  {
    hide ReadJump, ReadTest;
    var i, tail := Branch(op, Mem(x), b, Fresh(1), Fresh(2)), GuardTail(Fresh(1), Fresh(2));
    assert ([i] + tail)[0] == i && ([i] + tail)[1..] == tail;
    var yes := ReadTest(op, b.Mem?, Lookup(env, x), KValue(KField(b, idx)));
    TailReads(m, idx, env, Regs(Lookup(env, x), r.x), yes);
  }

  /** With a negation on the right. */
  lemma {:induction false} NegatedTestReads(m: Machine, idx: ArgIndex, op: OpCode, x: string, o: Operand, env: Env,
                                            r: Regs)
    requires !o.Tmp?
    ensures Read(m, idx, [Arith1(0, UMINUS, o), Branch(op, Mem(x), Tmp(0), Fresh(1), Fresh(2))] +
      GuardTail(Fresh(1), Fresh(2)), env, map[], r)
         == Settled(Decision(if ReadTest(op, true, m.alu(MINUS, 0, r.x), KValue(KField(Mem(x), idx))) then Deny
           else Allow))
  {
    hide ReadJump, ReadTest;
    var i, tail := Branch(op, Mem(x), Tmp(0), Fresh(1), Fresh(2)), GuardTail(Fresh(1), Fresh(2));
    var c := [Arith1(0, UMINUS, o), i] + tail;
    assert c[1..] == [i] + tail && c[1..][1..] == tail;
    var v := m.alu(MINUS, 0, r.x);
    var yes := ReadTest(op, true, v, KValue(KField(Mem(x), idx)));
    TailReads(m, idx, env, Regs(v, r.x), yes);
  }

  // ---------- What becomes of one guard ----------

  /** The policy `if (x op y) deny; allow;` on one syscall, with `y` an argument or a literal. */
  lemma {:induction false} PlainGuardRules(m: Machine, ps: Builts, ck: Check, nrs: Numbers, defaultDeny: bool,
                                           data: Data, op: OpCode, x: string, y: Expr)
    requires IsCompare(op) && (y.Ref? || y.Value?) && ck.body == OneGuard(Binary(op, Ref(x), y))
    requires Alone(ps, ck) && Concerns(m, ck, nrs, data)
    ensures ps != []
    ensures var env, o := EnvOf(ck.params, data.args), ExprCode(y, 0).val;
      && !o.Tmp?
      && Observed(m, ps, nrs, defaultDeny, data) ==
         Some(Ruling(if ReadTest(op, y.Ref?, Lookup(env, x), KValue(KField(o, ArgIndexOf(ck.params)))) then Deny
           else Allow, data.args))
      && Intended(m, [ck], nrs, defaultDeny, data) ==
         Ruling(if Compare(op, Lookup(env, x), Eval(m, y, env)) then Deny else Allow, data.args)
  {
    hide Alone, Concerns, Read, Observed, Intended, EnvOf, Registers, ReadTest, Compare, CheckCode, KField, NoEffects,
      AtEntry;
    ConcernsArgs(m, ck, nrs, data);
    var cond, env, o := Binary(op, Ref(x), y), EnvOf(ck.params, data.args), ExprCode(y, 0).val;
    assert NoCalls(Ref(x)) && NoCalls(y) && NoCalls(cond);
    var i := Branch(op, Mem(x), o, Fresh(1), Fresh(2));
    assert TestCode(cond, Fresh(1), Fresh(2), 2, 0).code == [i];
    OneGuardCode(ck, cond);
    var yes := ReadTest(op, y.Ref?, Lookup(env, x), KValue(KField(o, ArgIndexOf(ck.params))));
    PlainTestReads(m, ArgIndexOf(ck.params), op, x, o, env, AtEntry(m, data));
    FilterRules(m, ps, ck, nrs, defaultDeny, data, if yes then Deny else Allow);
    OneGuardSays(m, cond, env);
    IntendedAlone(m, ck, nrs, defaultDeny, data);
    UnassignedRegisters(ck.params, data.args);
  }

  lemma {:induction false} ConcernsArgs(m: Machine, ck: Check, nrs: Numbers, data: Data)
    requires Concerns(m, ck, nrs, data)
    ensures |ck.params| <= |data.args|
  {
  }

  /** `if (x op n) deny; allow;` is ruled as it says exactly if the operator is not `<` or `<=`,
      or the argument differs from the literal. */
  lemma {:induction false} LiteralGuardIff(m: Machine, ps: Builts, ck: Check, nrs: Numbers, defaultDeny: bool,
                                           data: Data, op: OpCode, x: string, n: Word)
    requires IsCompare(op) && ck.body == OneGuard(Binary(op, Ref(x), Value(n)))
    requires Alone(ps, ck) && Concerns(m, ck, nrs, data)
    ensures ps != []
    ensures Observed(m, ps, nrs, defaultDeny, data) == Some(Intended(m, [ck], nrs, defaultDeny, data)) <==>
      op !in {LT, LE} || Lookup(EnvOf(ck.params, data.args), x) != n
  {
    hide Alone, Concerns, Observed, Intended, EnvOf, ReadTest, Compare;
    ConcernsArgs(m, ck, nrs, data);
    PlainGuardRules(m, ps, ck, nrs, defaultDeny, data, op, x, Value(n));
    LiteralTestIff(op, Lookup(EnvOf(ck.params, data.args), x), n);
  }

  /** `if (x op y) deny; allow;` with two arguments compares the first with the offset of the
      second; so exactly when is it ruled as it says. */
  lemma {:induction false} ArgumentGuardIff(m: Machine, ps: Builts, ck: Check, nrs: Numbers, defaultDeny: bool,
                                            data: Data, op: OpCode, x: string, y: string)
    requires IsCompare(op) && ck.body == OneGuard(Binary(op, Ref(x), Ref(y))) && y in ck.params
    requires Alone(ps, ck) && Concerns(m, ck, nrs, data)
    ensures ps != []
    ensures var env := EnvOf(ck.params, data.args);
      var u, v, k := Lookup(env, x), Lookup(env, y), KValue(ArgField(ArgIndexOf(ck.params)[y]));
      Observed(m, ps, nrs, defaultDeny, data) == Some(Intended(m, [ck], nrs, defaultDeny, data)) <==>
        match op
        case GT => !(v < u <= k) && !(k < u <= v)
        case GE => !(v <= u < k) && !(k <= u < v)
        case LT => !(v <= u <= k) && !(k < u < v)
        case LE => !(v < u < k) && !(k <= u <= v)
        case _ => if u == v then k <= u else u < k
  {
    hide Alone, Concerns, Observed, Intended, EnvOf, ReadTest, Compare, KValue;
    ConcernsArgs(m, ck, nrs, data);
    PlainGuardRules(m, ps, ck, nrs, defaultDeny, data, op, x, Ref(y));
    var env := EnvOf(ck.params, data.args);
    ArgumentTestIff(op, Lookup(env, x), Lookup(env, y), KValue(ArgField(ArgIndexOf(ck.params)[y])));
  }

  /** `if (x == -e) deny; allow;` never denies: the negation is zero minus an X that was never
      loaded, and zero is compared with the offset of `x`.  So it is ruled as it says exactly if
      the argument is not the negated value. */
  lemma {:induction false} NegatedGuardIff(m: Machine, ps: Builts, ck: Check, nrs: Numbers, defaultDeny: bool,
                                           data: Data, x: string, e: Expr)
    requires (e.Ref? || e.Value?) && ck.body == OneGuard(Binary(EQ, Ref(x), Unary(UMINUS, e))) && m.alu == Alu32
    requires Alone(ps, ck) && Concerns(m, ck, nrs, data) && x in ck.params && ArgIndexOf(ck.params)[x] < 6
    ensures ps != []
    ensures Observed(m, ps, nrs, defaultDeny, data) == Some(Ruling(Allow, data.args))
    ensures var env := EnvOf(ck.params, data.args);
      Observed(m, ps, nrs, defaultDeny, data) == Some(Intended(m, [ck], nrs, defaultDeny, data)) <==>
        Lookup(env, x) != (0 - Eval(m, e, env)) % MODULUS
  {
    hide *;
    ConcernsArgs(m, ck, nrs, data);
    var env := EnvOf(ck.params, data.args);
    NegatedCode(ck, x, e);
    var o := ExprCode(e, 0).val;
    NegatedTestReads(m, ArgIndexOf(ck.params), EQ, x, o, env, AtEntry(m, data));
    NeverDenies(m, data, x, ArgIndexOf(ck.params));
    FilterRules(m, ps, ck, nrs, defaultDeny, data, Allow);
    NegatedSays(m, x, e, env);
    OneGuardSays(m, Binary(EQ, Ref(x), Unary(UMINUS, e)), env);
    IntendedAlone(m, ck, nrs, defaultDeny, data);
    UnassignedRegisters(ck.params, data.args);
  }

  lemma {:induction false} NegatedCode(ck: Check, x: string, e: Expr)
    requires (e.Ref? || e.Value?) && ck.body == OneGuard(Binary(EQ, Ref(x), Unary(UMINUS, e)))
    ensures !ExprCode(e, 0).val.Tmp? && NoEffects(CheckCode(ck, Base(0, 0)))
    ensures CheckCode(ck, Base(0, 0)) ==
      [Arith1(0, UMINUS, ExprCode(e, 0).val), Branch(EQ, Mem(x), Tmp(0), Fresh(1), Fresh(2))] +
        GuardTail(Fresh(1), Fresh(2))
  {
    hide CheckCode, NoEffects, GuardTail;
    var cond := Binary(EQ, Ref(x), Unary(UMINUS, e));
    assert NoCalls(e) && NoCalls(Ref(x)) && NoCalls(Unary(UMINUS, e)) && NoCalls(cond);
    var g := ExprCode(Unary(UMINUS, e), 0);
    assert ExprCode(e, 0).code == [] && g == ExprGen(Tmp(0), [] + [Arith1(0, UMINUS, ExprCode(e, 0).val)], 1);
    assert TestCode(cond, Fresh(1), Fresh(2), 2, 0).code ==
      [Arith1(0, UMINUS, ExprCode(e, 0).val), Branch(EQ, Mem(x), Tmp(0), Fresh(1), Fresh(2))];
    OneGuardCode(ck, cond);
  }

  lemma {:induction false} NeverDenies(m: Machine, data: Data, x: string, idx: ArgIndex)
    requires m.alu == Alu32 && x in idx && idx[x] < 6
    ensures AtEntry(m, data).x == 0 && !ReadTest(EQ, true, m.alu(MINUS, 0, 0), KValue(KField(Mem(x), idx)))
  {
    hide SyscallNr;
    assert m.alu(MINUS, 0, 0) == 0;
  }

  lemma {:induction false} NegatedSays(m: Machine, x: string, e: Expr, env: Env)
    requires m.alu == Alu32
    ensures Holds(m, Binary(EQ, Ref(x), Unary(UMINUS, e)), env) <==> Lookup(env, x) == (0 - Eval(m, e, env)) % MODULUS
  {
    assert Eval(m, Unary(UMINUS, e), env) == Alu32(UMINUS, Eval(m, e, env), 0);
  }

  // ---------- Policies that are ruled wrongly ----------

  /** `if (a == b) deny; allow;` */
  const SAME_ARGUMENTS: Check := Check("dup2", ["a", "b"], OneGuard(Binary(EQ, Ref("a"), Ref("b"))), {})

  /** Two zeros are denied, and let through. */
  lemma {:induction false} SameArgumentsAllowed(m: Machine, ps: Builts, nrs: Numbers, defaultDeny: bool, data: Data)
    requires Alone(ps, SAME_ARGUMENTS) && Concerns(m, SAME_ARGUMENTS, nrs, data)
    ensures ps != [] && |data.args| >= 2
    ensures data.args[0] == data.args[1] == 0 ==>
      && Observed(m, ps, nrs, defaultDeny, data) == Some(Ruling(Allow, data.args))
      && Intended(m, [SAME_ARGUMENTS], nrs, defaultDeny, data) == Ruling(Deny, data.args)
  {
    var ck := SAME_ARGUMENTS;
    hide *;
    ConcernsArgs(m, ck, nrs, data);
    SameParts(m, data.args);
    PlainGuardRules(m, ps, ck, nrs, defaultDeny, data, EQ, "a", Ref("b"));
  }

  lemma {:induction false} SameParts(m: Machine, args: seq<Word>)
    requires |SAME_ARGUMENTS.params| <= |args|
    ensures |args| >= 2 && SAME_ARGUMENTS.body == OneGuard(Binary(EQ, Ref("a"), Ref("b"))) && IsCompare(EQ)
    ensures var idx, env := ArgIndexOf(SAME_ARGUMENTS.params), EnvOf(SAME_ARGUMENTS.params, args);
      && ExprCode(Ref("b"), 0).val == Mem("b") && Lookup(env, "a") == args[0] && Eval(m, Ref("b"), env) == args[1]
      && Compare(EQ, args[0], args[1]) == (args[0] == args[1]) && !ReadTest(EQ, true, 0, KValue(KField(Mem("b"), idx)))
  {
    var params := SAME_ARGUMENTS.params;
    assert params[0] == "a" && params[1] == "b";
    assert ArgIndexOf(params)["b"] == 1 && ArgIndexOf(params)["a"] == 0;
  }

  /** `if (fd == -1) deny; allow;` */
  const MINUS_ONE: Check := Check("close", ["fd"], OneGuard(Binary(EQ, Ref("fd"), Unary(UMINUS, Value(1)))), {})

  /** Minus one is denied, and let through. */
  lemma {:induction false} MinusOneAllowed(m: Machine, ps: Builts, nrs: Numbers, defaultDeny: bool, data: Data)
    requires Alone(ps, MINUS_ONE) && Concerns(m, MINUS_ONE, nrs, data) && m.alu == Alu32
    ensures ps != [] && |data.args| >= 1
    ensures Observed(m, ps, nrs, defaultDeny, data) == Some(Ruling(Allow, data.args))
    ensures data.args[0] == 0xFFFF_FFFF ==> Intended(m, [MINUS_ONE], nrs, defaultDeny, data) == Ruling(Deny, data.args)
  {
    var one: Word := 1;
    hide *;
    var ck := MINUS_ONE;
    ConcernsArgs(m, ck, nrs, data);
    MinusParts(data.args);
    var env := EnvOf(ck.params, data.args);
    NegatedGuardIff(m, ps, ck, nrs, defaultDeny, data, "fd", Value(one));
    NegatedSays(m, "fd", Value(one), env);
    OneOf(m, env);
    OneGuardSays(m, Binary(EQ, Ref("fd"), Unary(UMINUS, Value(one))), env);
    IntendedAlone(m, ck, nrs, defaultDeny, data);
    UnassignedRegisters(ck.params, data.args);
  }

  lemma {:induction false} MinusParts(args: seq<Word>)
    requires |MINUS_ONE.params| <= |args|
    ensures |args| >= 1 && MINUS_ONE.body == OneGuard(Binary(EQ, Ref("fd"), Unary(UMINUS, Value(1))))
    ensures "fd" in MINUS_ONE.params && ArgIndexOf(MINUS_ONE.params)["fd"] == 0
    ensures Lookup(EnvOf(MINUS_ONE.params, args), "fd") == args[0]
  {
    hide OneGuard;
    var params := MINUS_ONE.params;
    assert params[0] == "fd";
    assert ArgIndexOf(params)["fd"] == 0;
  }

  lemma {:induction false} OneOf(m: Machine, env: Env)
    ensures (0 - Eval(m, Value(1), env)) % MODULUS == 0xFFFF_FFFF
  {
  }

  /** `if (a < 5) deny; allow;` */
  const BELOW_FIVE: Check := Check("nice", ["a"], OneGuard(Binary(LT, Ref("a"), Value(5))), {})

  /** Five is let through, and denied; every other argument is ruled as it says. */
  lemma {:induction false} FiveDenied(m: Machine, ps: Builts, nrs: Numbers, defaultDeny: bool, data: Data)
    requires Alone(ps, BELOW_FIVE) && Concerns(m, BELOW_FIVE, nrs, data)
    ensures ps != [] && |data.args| >= 1
    ensures Observed(m, ps, nrs, defaultDeny, data) ==
      Some(Ruling(if data.args[0] <= 5 then Deny else Allow, data.args))
    ensures Intended(m, [BELOW_FIVE], nrs, defaultDeny, data) ==
      Ruling(if data.args[0] < 5 then Deny else Allow, data.args)
  {
    hide *;
    var ck := BELOW_FIVE;
    ConcernsArgs(m, ck, nrs, data);
    FiveParts(m, data.args);
    PlainGuardRules(m, ps, ck, nrs, defaultDeny, data, LT, "a", Value(FIVE));
  }

  const FIVE: Word := 5

  lemma {:induction false} FiveParts(m: Machine, args: seq<Word>)
    requires |BELOW_FIVE.params| <= |args|
    ensures |args| >= 1 && BELOW_FIVE.body == OneGuard(Binary(LT, Ref("a"), Value(FIVE))) && IsCompare(LT)
    ensures var idx, env := ArgIndexOf(BELOW_FIVE.params), EnvOf(BELOW_FIVE.params, args);
      && Lookup(env, "a") == args[0] && Eval(m, Value(FIVE), env) == 5
      && Compare(LT, args[0], 5) == (args[0] < 5)
      && (ReadTest(LT, false, args[0], KValue(KField(ExprCode(Value(FIVE), 0).val, idx))) <==> args[0] <= 5)
  {
    var params := BELOW_FIVE.params;
    assert params[0] == "a";
    assert ArgIndexOf(params)["a"] == 0;
    hide OneGuard;
  }

  // ---------- These policies compile ----------

  lemma {:induction false} TailIsSound(n: nat)
    ensures var c := GuardTail(Fresh(1), Fresh(2)); Sound(c, [], n) && Shallow(c, []) && NoEffects(c)
  {
    var c := GuardTail(Fresh(1), Fresh(2));
    assert c[1..] == [Return(Decision(Deny)), Mark(Fresh(2)), Return(Decision(Allow))];
    assert c[1..][1..] == [Mark(Fresh(2)), Return(Decision(Allow))] && c[1..][1..][1..] == [Return(Decision(Allow))];
    assert c[1..][1..][1..][1..] == [];
    assert Shallow([], []) && Disciplined([], []) && Ascending([], n);
    assert Sound(c[1..][1..][1..], [], n) && Shallow(c[1..][1..][1..], []);
    assert Sound(c[1..][1..], [], n) && Shallow(c[1..][1..], []);
    assert Sound(c[1..], [], n) && Shallow(c[1..], []);
  }

  /** The filter of one guard can be generated exactly if one scratch cell is enough. */
  lemma {:induction false} OneGuardFilter(ck: Check, cond: Expr, bs: Blocks)
    requires ck.body == OneGuard(cond) && SingleTest(cond) && NoCalls(cond) && GoodBlocks(ck, Base(0, 0), bs)
    ensures bs != [] && Ordered(bs) && (FilterOf(ck, bs, 0).Some? <==> CondOneCell(cond))
  {
    hide *;
    GoodIsOrdered(ck, Base(0, 0), bs);
    OneGuardCode(ck, cond);
    NothingIsTraced(ck, Base(0, 0), bs, 0);
    FilterIsGen(ck, bs, 0);
    FilterIrOrder(ck, Base(0, 0), bs, 0);
    var t, f := Fresh(1), Fresh(2);
    TestIsCond(cond, t, f, 2, 0);
    var g := TestCode(cond, t, f, 2, 0);
    TailIsSound(g.ids);
    CondShallow(cond, t, f, 2, 0, GuardTail(t, f));
    EmptyTracks();
    AssertionsHoldIffShallow(FilterIr(bs, 0), [], EMPTY_STATE, ArgIndexOf(ck.params));
  }

  lemma {:induction false} EmptyTracks()
    ensures Tracks([], EMPTY_STATE)
  {
  }

  /** The filter of the check alone cannot be generated. */
  ghost predicate Fails(ck: Check) {
    exists bs: Blocks | GoodBlocks(ck, Base(0, 0), bs) && bs != [] && Ordered(bs) :: FilterOf(ck, bs, 0).None?
  }

  /** The compiler on a policy of one check. */
  method CompileAlone(ck: Check, nrs: Numbers, defaultDeny: bool) returns (out: Option<Output>, ghost ps: Builts)
    requires WellTyped(ck.body) && StmtDeclared(ck.params, ck.body)
    requires ck.name in nrs && ck.name != "__deny" && ck.name != "__allow"
    ensures out.None? ==> Fails(ck)
    ensures out.Some? ==>
      WellBuiltPolicy(ps) && Checks(ps) == [ck] && ps != [] && Outputs(out.value, ps, nrs, defaultDeny)
  {
    hide WellBuiltPolicy, Outputs, StmtDeclared, Stops, IsNext, InSequence, Ordered, WellTyped, Fails;
    ghost var stop;
    out, ps, stop := CompilePolicy([ck], nrs, defaultDeny);
    if out.None? {
      AloneStopped(ps, ck, nrs, stop);
    }
  }

  lemma {:induction false} AloneStopped(ps: Builts, ck: Check, nrs: Numbers, stop: Built)
    requires ck.name in nrs && StmtDeclared(ck.params, ck.body)
    requires
      || (exists k | 0 <= k < |[ck]| :: Undeclared([ck], k))
      || (InSequence(ps, Base(0, 0), 0) && IsNext(ps, [ck], stop) && stop.bs != [] && Ordered(stop.bs) &&
        Stops(stop, nrs))
    ensures Fails(ck)
  {
    hide GoodBlocks, FilterOf, WellTyped, StmtDeclared, VariablesDeclared, BlocksOf, Ordered;
    NextIsGood(ps, [ck], stop);
    assert ps == [] && JmpTable(ps) == [];
  }

  /** One guard without calls compiles exactly if one scratch cell is enough for its condition. */
  method CompileOneGuard(ck: Check, cond: Expr, nrs: Numbers, defaultDeny: bool)
    returns (out: Option<Output>, ghost ps: Builts)
    requires ck.body == OneGuard(cond) && SingleTest(cond) && NoCalls(cond) && CondExpr(cond)
    requires StmtDeclared(ck.params, ck.body)
    requires ck.name in nrs && ck.name != "__deny" && ck.name != "__allow"
    ensures out.Some? <==> CondOneCell(cond)
    ensures out.Some? ==>
      WellBuiltPolicy(ps) && Checks(ps) == [ck] && ps != [] && Outputs(out.value, ps, nrs, defaultDeny)
  {
    hide CondOneCell, WellBuiltPolicy, Outputs, NoCalls, CondExpr, StmtDeclared, SingleTest, Fails;
    assert WellTyped(ck.body) by { OneGuardIsTyped(cond); }
    hide WellTyped, OneGuard;
    out, ps := CompileAlone(ck, nrs, defaultDeny);
    if out.Some? {
      AloneCompiled(ps, ck, cond);
    } else {
      OneGuardFails(ck, cond);
    }
  }

  lemma {:induction false} OneGuardFails(ck: Check, cond: Expr)
    requires Fails(ck) && ck.body == OneGuard(cond) && SingleTest(cond) && NoCalls(cond)
    ensures !CondOneCell(cond)
  {
    hide CondOneCell, SingleTest, NoCalls, OneGuard, GoodBlocks, FilterOf, Ordered;
    var bs: Blocks :| GoodBlocks(ck, Base(0, 0), bs) && bs != [] && Ordered(bs) && FilterOf(ck, bs, 0).None?;
    OneGuardFilter(ck, cond, bs);
  }

  lemma {:induction false} OneGuardIsTyped(cond: Expr)
    requires CondExpr(cond)
    ensures WellTyped(OneGuard(cond))
  {
    hide CondExpr;
    assert WellTyped(Permit(Deny)) && WellTyped(If(cond, Permit(Deny), None));
  }

  lemma {:induction false} OneGuardText(params: seq<string>, cond: Expr)
    ensures StmtDeclared(params, OneGuard(cond)) <==> ExprDeclared(params, cond)
    ensures StmtLength(OneGuard(cond)) == CondLength(cond) + 4
  {
    hide CondLength, ExprDeclared;
    var ss := OneGuard(cond).stmts;
    assert ss[0] == If(cond, Permit(Deny), None) && ss[1..] == [Permit(Allow)] && ss[1..][1..] == [];
    assert BodyLength(ss[1..]) == 1 && StmtLength(ss[0]) == CondLength(cond) + 3;
    assert StmtLength(OneGuard(cond)) == BodyLength(ss) == StmtLength(ss[0]) + BodyLength(ss[1..]);
    assert StmtDeclared(params, ss[0]) <==> ExprDeclared(params, cond);
    assert ss[0] in ss && forall s | s in ss :: s == ss[0] || s == Permit(Allow);
  }

  lemma {:induction false} AloneCompiled(ps: Builts, ck: Check, cond: Expr)
    requires WellBuiltPolicy(ps) && Checks(ps) == [ck] && ck.body == OneGuard(cond) && SingleTest(cond) && NoCalls(cond)
    ensures ps != [] && CondOneCell(cond)
  {
    hide CondOneCell, SingleTest, NoCalls, OneGuard, GoodBlocks, FilterOf, WellTyped, VariablesDeclared, BlocksOf,
      Ordered;
    assert Checks(ps)[0] == ck;
    CompiledIsGood(ck, ps[0].at, ps[0].bs, 0);
    OneGuardFilter(ck, cond, ps[0].bs);
  }

  // ---------- Scratch cells ----------

  /** `a + 1 == (b + 1) * (c + 1)` */
  function TwoCells(): Expr {
    Binary(EQ, Binary(PLUS, Ref("a"), Value(1)),
      Binary(MULT, Binary(PLUS, Ref("b"), Value(1)), Binary(PLUS, Ref("c"), Value(1))))
  }

  lemma {:induction false} TwoCellsNeedTwo()
    ensures var e := TwoCells();
      SingleTest(e) && NoCalls(e) && CondExpr(e) && ExprDeclared(["a", "b", "c"], e) && !CondOneCell(e)
  {
    var e := TwoCells();
    var l, r := e.left, e.right;
    assert IntExpr(l) && IntExpr(r.left) && IntExpr(r.right) && IntExpr(r) && CondExpr(e);
    assert NoCalls(l) && NoCalls(r.left) && NoCalls(r.right) && NoCalls(r);
    assert ExprDeclared(["a", "b", "c"], l) && ExprDeclared(["a", "b", "c"], r.left);
    assert ExprDeclared(["a", "b", "c"], r.right);
    assert PairNode(r) && HasPair(r) && PairNode(e);
    assert !OneCell(e);
  }

  /** `if (a + 1 == (b + 1) * (c + 1)) deny; allow;` has no filter. */
  method CompileTwoCells(nrs: Numbers, defaultDeny: bool) returns (out: Option<Output>)
    requires "nice" in nrs
    ensures out.None?
  {
    TwoCellsNeedTwo();
    OneGuardText(["a", "b", "c"], TwoCells());
    hide SingleTest, NoCalls, CondExpr, ExprDeclared, CondOneCell, StmtDeclared, TwoCells, OneGuard, Outputs,
      WellBuiltPolicy;
    ghost var ps;
    out, ps := CompileOneGuard(Check("nice", ["a", "b", "c"], OneGuard(TwoCells()), {}), TwoCells(), nrs, defaultDeny);
  }
}
