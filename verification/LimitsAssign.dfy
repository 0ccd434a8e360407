/** An assignment that the tracer evaluates once more when it writes the register back. */
module LimitsAssign {
  import opened Syntax
  import opened Ir
  import opened IrGen
  import opened Lowering
  import opened Cfg
  import opened Colour
  import opened Bpf
  import opened Scratch
  import opened Lifter
  import opened LifterProof
  import opened Relift
  import opened Layout
  import opened LiftedRun
  import opened LiftedStart
  import opened Check
  import opened Declared
  import opened CheckRun
  import opened Policy
  import opened PolicyRun
  import opened GuardCode
  import opened Guarded
  import opened Short
  import opened Compile
  import opened Limits
  import opened LimitsText

  // ---------- The text's reading of an expression ----------

  lemma {:induction false} ReadCompute(m: Machine, x: Job, i: Inst, rest: Code, env: Env, tmp: Temps, regs: Env)
    requires Grounded(x.defs) && AllKnown(x.defs, [i] + rest) && i.Computes() && Result(m, i, env, tmp).Some?
    ensures AllKnown(x.defs, rest)
    ensures ReadInsts(m, x, [i] + rest, env, tmp, regs) ==
      ReadInsts(m, x, rest, env, tmp[i.id := Result(m, i, env, tmp).value], regs)
  {
    hide OperandsKnown, Grounded, LiftExpr, Eval;
    assert ([i] + rest)[1..] == rest;
    forall i' | i' in rest
      ensures OperandsKnown(x.defs, i')
    {
      assert i' in [i] + rest;
    }
  }

  /** The code of an expression leaves its value in the operand that names it, also in the text. */
  lemma {:induction false} ExprReads(m: Machine, x: Job, e: Expr, id: nat, rest: Code, env: Env, tmp: Temps, regs: Env)
    returns (tmp': Temps)
    requires Grounded(x.defs) && AllKnown(x.defs, ExprCode(e, id).code + rest)
    ensures AllKnown(x.defs, rest)
    ensures ReadInsts(m, x, ExprCode(e, id).code + rest, env, tmp, regs) == ReadInsts(m, x, rest, env, tmp', regs)
    ensures Val(ExprCode(e, id).val, env, tmp') == Some(Eval(m, e, env))
    ensures Keeps(tmp, tmp', id) && OlderOperand(ExprCode(e, id).val, ExprCode(e, id).ids)
  {
    hide ReadInsts, AllKnown, Grounded;
    var g := ExprCode(e, id);
    match e {
      case Ref(_) =>
        assert [] + rest == rest;
        tmp' := tmp;
      case Value(_) =>
        assert [] + rest == rest;
        tmp' := tmp;
      case Invoke(f, params) =>
        ReadCompute(m, x, Call(id, f, params), rest, env, tmp, regs);
        tmp' := tmp[id := Eval(m, e, env)];
      case Unary(op, arg) =>
        var y := ExprCode(arg, id);
        var i := Arith1(y.ids, op, y.val);
        assert g.code + rest == y.code + ([i] + rest);
        var t := ExprReads(m, x, arg, id, [i] + rest, env, tmp, regs);
        ReadCompute(m, x, i, rest, env, t, regs);
        tmp' := t[y.ids := Eval(m, e, env)];
      case Binary(op, left, right) =>
        var y := ExprCode(left, id);
        var z := ExprCode(right, y.ids);
        var i := Arith2(z.ids, op, y.val, z.val);
        assert g.code + rest == y.code + (z.code + ([i] + rest));
        var t := ExprReads(m, x, left, id, z.code + ([i] + rest), env, tmp, regs);
        var t' := ExprReads(m, x, right, y.ids, [i] + rest, env, t, regs);
        tmp' := PairReads(m, x, i, Eval(m, left, env), Eval(m, right, env), rest, env, tmp, t, t', id, y.ids, regs);
    }
  }

  lemma {:induction false} PairReads(m: Machine, x: Job, i: Inst, u: Word, v: Word, rest: Code, env: Env,
                                     t0: Temps, t1: Temps, t2: Temps, id: nat, mid: nat, regs: Env)
    returns (tmp: Temps)
    requires Grounded(x.defs) && AllKnown(x.defs, [i] + rest)
    requires i.Arith2? && id <= mid <= i.id && OlderOperand(i.a, mid)
    requires Val(i.a, env, t1) == Some(u) && Val(i.b, env, t2) == Some(v)
    requires Keeps(t0, t1, id) && Keeps(t1, t2, mid)
    ensures AllKnown(x.defs, rest)
    ensures ReadInsts(m, x, [i] + rest, env, t2, regs) == ReadInsts(m, x, rest, env, tmp, regs)
    ensures Keeps(t0, tmp, id) && Val(Tmp(i.id), env, tmp) == Some(m.alu(i.op, u, v))
  {
    hide ReadInsts, AllKnown, Grounded;
    ReadCompute(m, x, i, rest, env, t2, regs);
    tmp := t2[i.id := m.alu(i.op, u, v)];
  }

  // ---------- One assignment and a decision ----------

  /** `x = e; p;` */
  function AssignThen(e: Expr, x: string, p: Perm): Stmt {
    Compound([Assign(e, x), Permit(p)])
  }

  function AssignCode(e: Expr, x: string, p: Perm): Code {
    ExprCode(e, 0).code + ([Store(ExprCode(e, 0).val, x)] + [Return(Decision(p))])
  }

  /** The tracer can take over at the top: what is computed first is a call, or nothing is. */
  predicate StartsTraced(e: Expr) {
    !Computed(e) || StartsWithCall(e)
  }

  lemma {:induction false} AssignParts(e: Expr, x: string, p: Perm, l: Label)
    ensures var ss := AsList(AssignThen(e, x, p));
      Guards(ss) && Parts(ss, l, 0, 0) == [Block(l, AssignCode(e, x, p), [], [])]
    ensures StartsTraced(e) ==> AssignCode(e, x, p) != [] && AssignCode(e, x, p)[0].Effect()
  {
    var ss := AsList(AssignThen(e, x, p));
    assert ss[0] == Assign(e, x) && ss[1..] == [Permit(p)] && ss[1..][1..] == [];
    assert LeafList(ss[1..]) && LeafList(ss);
    var g := ExprCode(e, 0);
    var st := StmtCode(ss[0], 0, 0);
    assert st.code == g.code + [Store(g.val, x)];
    assert BodyCode(ss[1..], st.labels, st.ids).code == [Return(Decision(p))];
    assert BodyCode(ss, 0, 0).code == AssignCode(e, x, p);
    if StartsTraced(e) {
      LeafStarts(ss, 0, 0);
    }
  }

  /** One block, which is all the tracer's. */
  lemma {:induction false} AssignIsTraced(ck: Check, bs: Blocks, e: Expr, x: string, p: Perm)
    requires GoodBlocks(ck, Base(0, 0), bs) && ck.body == AssignThen(e, x, p) && StartsTraced(e)
    ensures |bs| == 1 && bs[0].label_ == Named(ck.name) && bs[0].insts == AssignCode(e, x, p) && Ordered(bs)
    ensures FilterIr(bs, 0) == [Return(ToPtrace(0))] && TableOf(bs, 0) == [Named(ck.name)] && LiftedSet(bs) == {0}
  {
    hide *;
    GoodIsOrdered(ck, Base(0, 0), bs);
    AssignParts(e, x, p, Named(ck.name));
    BlocksAreParts(ck, Base(0, 0), bs);
    StartsHere(bs, 0);
    OneTraced(bs, ck.name);
  }

  lemma {:induction false} OneTraced(bs: Blocks, name: string)
    requires |bs| == 1 && Ordered(bs) && bs[0].label_ == Named(name) && Coloured(bs, 0) && Start(bs, 0) == 0
    ensures FilterIr(bs, 0) == [Return(ToPtrace(0))] && TableOf(bs, 0) == [Named(name)] && LiftedSet(bs) == {0}
  {
    hide Coloured, Start;
    assert Only(bs, 0) by {
      assert forall p | p in bs[0].parents :: p < 0;
    }
    assert [Mark(Named(name)), Return(ToPtrace(0))][1..] == [Return(ToPtrace(0))];
  }

  /** What the register holds in the end. */
  function WrittenBack(m: Machine, copied: set<string>, e: Expr, x: string, env: Env): Word {
    var v := Eval(m, e, env);
    if x in copied then v else Eval(m, e, env[x := v])
  }

  lemma {:induction false} AssignReads(m: Machine, j: Job, e: Expr, x: string, p: Perm, env: Env)
    requires Grounded(j.defs) && AllKnown(j.defs, AssignCode(e, x, p)) && DefsMatch(j.defs, AssignCode(e, x, p))
    ensures ReadInsts(m, j, AssignCode(e, x, p), env, map[], env) ==
      Ends(Done(p, env[x := WrittenBack(m, j.copied, e, x, env)]))
  {
    var g := ExprCode(e, 0);
    var st, ret := Store(g.val, x), [Return(Decision(p))];
    ExprCodeStraight(e, 0);
    forall i | i in g.code
      ensures i.Computes() && i.id in j.defs && j.defs[i.id] == i
    {
      assert i in AssignCode(e, x, p);
    }
    assert Defines(j.defs, g.code);
    hide AllKnown, Grounded, Eval, ExprCode, LiftExpr, DefsMatch;
    LiftingInvertsLowering(j.defs, e, 0);
    var tmp := ExprReads(m, j, e, 0, [st] + ret, env, map[], env);
    StoreReads(m, j, st, e, p, env, tmp);
  }

  lemma {:induction false} StoreReads(m: Machine, j: Job, st: Inst, e: Expr, p: Perm, env: Env, tmp: Temps)
    requires st.Store? && Grounded(j.defs) && AllKnown(j.defs, [st] + [Return(Decision(p))])
    requires Val(st.src, env, tmp) == Some(Eval(m, e, env)) && Known(j.defs, st.src) && LiftExpr(j.defs, st.src) == e
    ensures ReadInsts(m, j, [st] + [Return(Decision(p))], env, tmp, env) ==
      Ends(Done(p, env[st.dst := WrittenBack(m, j.copied, e, st.dst, env)]))
  {
    hide Eval, LiftExpr, Grounded;
    var ret := [Return(Decision(p))];
    assert ([st] + ret)[1..] == ret;
    assert [st] + ret == [st, Return(Decision(p))];
  }

  // ---------- The policy ----------

  /** What the tracer's text of the check does. */
  lemma {:induction false} AssignText(m: Machine, b: Built, e: Expr, x: string, p: Perm, env: Env)
    requires WellBuilt(b) && b.at == Base(0, 0) && b.n == 0 && b.ck.body == AssignThen(e, x, p) && StartsTraced(e)
    ensures var l := Named(b.ck.name);
      && LabelC(l) in Text(b) && Table(b) == [l] && b.bs != [] && Ordered(b.bs) &&
         FilterIr(b.bs, 0) == [Return(ToPtrace(0))]
      && RunC(m, AfterLabel(Text(b), l), env, env) == Done(p, env[x := WrittenBack(m, b.ck.copied, e, x, env)])
  {
    hide *;
    BuiltIsCompiled(b);
    CompiledIsGood(b.ck, b.at, b.bs, b.n);
    AssignIsTraced(b.ck, b.bs, e, x, p);
    JobIsRunnable(b.ck, b.at, b.bs, 0);
    var j := JobOf(b.ck, b.at, b.bs, 0);
    OneJob(b);
    BlockKnown(b.ck, b.at, b.bs, 0);
    AssignReads(m, j, e, x, p, env);
    OneBlockReads(m, j, env);
    TextReadsFrom(m, j, 0, env, env);
  }

  lemma {:induction false} OneJob(b: Built)
    requires b.bs != [] && Ordered(b.bs) && b.n == 0 && TableOf(b.bs, 0) == [Named(b.ck.name)] && LiftedSet(b.bs) == {0}
    requires Ready(JobOf(b.ck, b.at, b.bs, 0))
    ensures var j := JobOf(b.ck, b.at, b.bs, 0);
      && j.bs == b.bs && j.lifted == {0} && Named(b.ck.name) in j.iface && j.copied == b.ck.copied && Grounded(j.defs)
      && j.defs == DefsFor(b.ck, b.at) && WellFormedJob(j) && Text(b) == ProgramLines(j, 0)
    ensures Table(b) == [Named(b.ck.name)]
  {
    hide LiftedSet, TableOf, WellFormedJob, ProgramLines, Ordered, DefsFor, Grounded;
    ReadyParts(JobOf(b.ck, b.at, b.bs, 0));
    assert Grounded(JobOf(b.ck, b.at, b.bs, 0).defs) by { ReadyIsGrounded(JobOf(b.ck, b.at, b.bs, 0)); }
  }

  lemma {:induction false} ReadyIsGrounded(j: Job)
    requires Ready(j)
    ensures Grounded(j.defs)
  {
    hide Grounded, AllKnown;
  }

  lemma {:induction false} OneBlockReads(m: Machine, j: Job, env: Env)
    requires Ready(j) && |j.bs| == 1 && j.lifted == {0} && Grounded(j.defs) && AllKnown(j.defs, j.bs[0].insts)
    requires ReadInsts(m, j, j.bs[0].insts, env, map[], env).Ends?
    ensures ReadText(m, j, 0, env, env) == ReadInsts(m, j, j.bs[0].insts, env, map[], env).o
  {
    hide Ready, ReadInsts, AllKnown, Grounded;
  }

  /** `x = e; p;` is ruled as it says exactly if the argument is written back to memory, or to
      evaluate the expression once more, with the value assigned, gives that value again. */
  lemma {:induction false} AssignIff(m: Machine, ps: Builts, ck: Check, nrs: Numbers, defaultDeny: bool, data: Data,
                                     e: Expr, x: string, p: Perm)
    requires ck.body == AssignThen(e, x, p) && StartsTraced(e) && x in ck.params
    requires Alone(ps, ck) && Concerns(m, ck, nrs, data)
    ensures ps != [] && |ck.params| <= |data.args|
    ensures var env := EnvOf(ck.params, data.args);
      var v := Eval(m, e, env);
      && Observed(m, ps, nrs, defaultDeny, data) ==
         Some(Ruling(p, Registers(ck.params, data.args, env[x := WrittenBack(m, ck.copied, e, x, env)])))
      && Intended(m, [ck], nrs, defaultDeny, data) == Ruling(p, Registers(ck.params, data.args, env[x := v]))
      && (Observed(m, ps, nrs, defaultDeny, data) == Some(Intended(m, [ck], nrs, defaultDeny, data)) <==>
            x in ck.copied || Eval(m, e, env[x := v]) == v)
  {
    hide *;
    AloneIs(ps, ck);
    var b := ps[0];
    ConcernsArgs(m, ck, nrs, data);
    var env := EnvOf(ck.params, data.args);
    AssignText(m, b, e, x, p, env);
    TextAlone(ps);
    HandsOff(m, env, ArgIndexOf(ck.params), AtEntry(m, data));
    AloneReturns(m, ps, ck, nrs, defaultDeny, data);
    var v, back := Eval(m, e, env), WrittenBack(m, ck.copied, e, x, env);
    TracedAlone(m, ps, nrs, defaultDeny, data, p, env[x := back]);
    AssignSays(m, e, x, p, env);
    IntendedAlone(m, ck, nrs, defaultDeny, data);
    SameRegisters(ck.params, data.args, env, x, v, back);
    BackIs(m, ck.copied, e, x, env);
  }

  lemma {:induction false} BackIs(m: Machine, copied: set<string>, e: Expr, x: string, env: Env)
    ensures var v := Eval(m, e, env); WrittenBack(m, copied, e, x, env) == v <==>
      x in copied || Eval(m, e, env[x := v]) == v
  {
    hide Eval;
  }

  lemma {:induction false} AssignSays(m: Machine, e: Expr, x: string, p: Perm, env: Env)
    ensures Exec(m, AssignThen(e, x, p), env) == Stop(p, env[x := Eval(m, e, env)])
  {
    hide Eval;
    var ss := AssignThen(e, x, p).stmts;
    assert ss[0] == Assign(e, x) && ss[1..] == [Permit(p)] && ss[1..][0] == Permit(p);
    var env' := env[x := Eval(m, e, env)];
    assert Exec(m, ss[0], env) == Next(env');
    assert ExecAll(m, ss[1..], env') == Stop(p, env');
  }

  /** Two values of a parameter are told apart by its register. */
  lemma {:induction false} SameRegisters(params: seq<string>, args: seq<Word>, env: Env, x: string, v: Word, w: Word)
    requires |params| <= |args| && x in params
    ensures Registers(params, args, env[x := v]) == Registers(params, args, env[x := w]) <==> v == w
  {
    var k := ArgIndexOf(params)[x];
    hide ArgIndexOf;
    assert Registers(params, args, env[x := v])[k] == v && Registers(params, args, env[x := w])[k] == w;
  }

  // ---------- Such a policy ----------

  /** `n = f(n) + 1; allow;` */
  function AddOne(): Stmt {
    AssignThen(Binary(PLUS, Invoke("f", ["n"]), Value(1)), "n", Allow)
  }

  const ADD_ONE: Check := Check("nice", ["n"], AddOne(), {})

  /** `f(n) + 1` */
  function AskedPlusOne(m: Machine, n: Word): Word {
    (m.helper("f", [n]) + 1) % MODULUS
  }

  /** The policy lets the syscall go ahead with `f(n) + 1`, and it goes ahead with
      `f(f(n) + 1) + 1`. */
  lemma {:induction false} AddsOneTwice(m: Machine, ps: Builts, nrs: Numbers, defaultDeny: bool, data: Data)
    requires Alone(ps, ADD_ONE) && Concerns(m, ADD_ONE, nrs, data) && m.alu == Alu32
    ensures ps != [] && |data.args| >= 1
    ensures var v := AskedPlusOne(m, data.args[0]);
      && Intended(m, [ADD_ONE], nrs, defaultDeny, data) == Ruling(Allow, data.args[0 := v])
      && Observed(m, ps, nrs, defaultDeny, data) ==
         Some(Ruling(Allow, data.args[0 := AskedPlusOne(m, v)]))
  {
    var e := Binary(PLUS, Invoke("f", ["n"]), Value(1));
    hide *;
    AddOneParts(e);
    assert "n" in ["n"] && "n" !in {};
    ConcernsArgs(m, ADD_ONE, nrs, data);
    AssignIff(m, ps, ADD_ONE, nrs, defaultDeny, data, e, "n", Allow);
    var env := EnvOf(["n"], data.args);
    OneParameter(data.args);
    AddOneIs(m, env);
    var v := Eval(m, e, env);
    AddOneIs(m, env["n" := v]);
    Assigned(env, "n", v);
    BackTwice(m, ADD_ONE.copied, e, "n", env);
    OneRegister(data.args, env, v);
    OneRegister(data.args, env, Eval(m, e, env["n" := v]));
  }

  lemma {:induction false} AddOneParts(e: Expr)
    requires e == Binary(PLUS, Invoke("f", ["n"]), Value(1))
    ensures ADD_ONE.body == AssignThen(e, "n", Allow) && StartsTraced(e) && ADD_ONE.params == ["n"]
    ensures ADD_ONE.copied == {}
  {
  }

  lemma {:induction false} Assigned(env: Env, x: string, v: Word)
    ensures Lookup(env[x := v], x) == v
  {
  }

  lemma {:induction false} BackTwice(m: Machine, copied: set<string>, e: Expr, x: string, env: Env)
    requires x !in copied
    ensures WrittenBack(m, copied, e, x, env) == Eval(m, e, env[x := Eval(m, e, env)])
  {
    hide Eval;
  }

  lemma {:induction false} OneParameter(args: seq<Word>)
    requires |["n"]| <= |args|
    ensures Lookup(EnvOf(["n"], args), "n") == args[0]
  {
    assert ["n"][0] == "n";
  }

  lemma {:induction false} AddOneIs(m: Machine, env: Env)
    requires m.alu == Alu32
    ensures Eval(m, Binary(PLUS, Invoke("f", ["n"]), Value(1)), env) == AskedPlusOne(m, Lookup(env, "n"))
  {
    assert ParamValues(["n"], env) == [Lookup(env, "n")];
    var w := m.helper("f", [Lookup(env, "n")]);
    assert Eval(m, Invoke("f", ["n"]), env) == w && Eval(m, Value(1), env) == 1;
    assert Alu32(PLUS, w, 1) == (w + 1) % MODULUS;
  }

  lemma {:induction false} OneRegister(args: seq<Word>, env: Env, v: Word)
    requires |["n"]| <= |args|
    ensures Registers(["n"], args, env["n" := v]) == args[0 := v]
  {
    assert ["n"][0] == "n" && ArgIndexOf(["n"])["n"] == 0;
  }

  lemma {:induction false} AddOneIsTyped()
    ensures var s := AddOne();
      && ADD_ONE.body == s && ADD_ONE.name == "nice" && ADD_ONE.params == ["n"]
      && WellTyped(s) && StmtDeclared(["n"], s) && ShortPolicy([ADD_ONE])
  {
    var s := AddOne();
    var e := Binary(PLUS, Invoke("f", ["n"]), Value(1));
    var ss := s.stmts;
    assert ss[0] == Assign(e, "n") && ss[1..] == [Permit(Allow)] && ss[1..][1..] == [];
    assert ExprLength(e) == 2 && IntExpr(e) && ExprDeclared(["n"], e);
    assert WellTyped(ss[0]) && StmtDeclared(["n"], ss[0]) && StmtLength(ss[0]) == 3;
    assert BodyLength(ss[1..]) == 1 && StmtLength(s) == 4;
    assert [ADD_ONE][1..] == [] && LinesOfAll([ADD_ONE][1..]) == 0 && LinesOf(ADD_ONE) == 50;
  }

  lemma {:induction false} AddOneHasFilter()
    ensures !Fails(ADD_ONE)
  {
    var e := Binary(PLUS, Invoke("f", ["n"]), Value(1));
    assert ADD_ONE.body == AssignThen(e, "n", Allow) && StartsTraced(e);
    forall bs: Blocks | GoodBlocks(ADD_ONE, Base(0, 0), bs) && bs != [] && Ordered(bs)
      ensures FilterOf(ADD_ONE, bs, 0).Some?
    {
      hide *;
      AssignIsTraced(ADD_ONE, bs, e, "n", Allow);
      FilterIsGen(ADD_ONE, bs, 0);
      ReturnGenerates(ArgIndexOf(ADD_ONE.params));
    }
    hide GoodBlocks, FilterOf, ADD_ONE;
  }

  /** It compiles. */
  method CompileAddOne(nrs: Numbers, defaultDeny: bool) returns (out: Option<Output>, ghost ps: Builts)
    requires "nice" in nrs
    ensures out.Some? && Alone(ps, ADD_ONE) && ps != [] && Outputs(out.value, ps, nrs, defaultDeny)
  {
    AddOneIsTyped();
    AddOneHasFilter();
    hide *;
    out, ps := CompileAlone(ADD_ONE, nrs, defaultDeny);
    IsAlone(ps, ADD_ONE);
  }
}
