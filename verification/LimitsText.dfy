/** Where the tracer's text does not do what the blocks do: a block that runs on, and an assignment
    that reads what it assigns. */
module LimitsText {
  import opened Syntax
  import opened Ir
  import opened IrGen
  import opened Cfg
  import opened Colour
  import opened Split
  import opened Bpf
  import opened BpfGen
  import opened Reading
  import opened Lifter
  import opened LifterProof
  import opened Layout
  import opened LiftedRun
  import opened LiftedStart
  import opened Resolve
  import opened Dispatch
  import opened Check
  import opened Declared
  import opened CheckRun
  import opened Policy
  import opened PolicyRun
  import opened Idle
  import opened Guarded
  import opened Short
  import opened Compile
  import opened Limits
  import opened LimitsTracer

  // ---------- A block that runs on ----------

  /** `if (f(p)) { p = g(p); } allow;` */
  function OpenBody(): Stmt {
    Compound([If(Invoke("f", ["p"]), Compound([Assign(Invoke("g", ["p"]), "p")]), None), Permit(Allow)])
  }

  const OPEN: Check := Check("open", ["p"], OpenBody(), {"p"})

  const ASK_F: Code := [Call(0, "f", ["p"]), Branch(NE, Tmp(0), Imm(0), Fresh(1), Fresh(2))]
  const ASSIGN_G: Code := [Call(1, "g", ["p"]), Store(Tmp(1), "p")]
  const ALLOW: Code := [Return(Decision(Allow))]

  const OPEN_CODE: Code := ASK_F + ([Mark(Fresh(1))] + (ASSIGN_G + ([Mark(Fresh(2))] + ALLOW)))

  lemma {:induction false} OpenRawCode()
    ensures RawCode(OPEN, Base(0, 0)) == OPEN_CODE
  {
    var ss := OpenBody().stmts;
    var c := CondCode(Invoke("f", ["p"]), Fresh(1), Fresh(2), 2, 0);
    assert c == Gen(ASK_F, 2, 1);
    hide CondCode;
    var th := [Assign(Invoke("g", ["p"]), "p")];
    assert th[1..] == [] && ss[1..] == [Permit(Allow)] && ss[1..][1..] == [];
    assert StmtCode(th[0], 2, 1) == Gen(ASSIGN_G, 2, 2);
    assert BodyCode(th, 2, 1) == Gen(ASSIGN_G + [], 2, 2);
    assert ss[0] == If(Invoke("f", ["p"]), Compound(th), None);
    assert StmtCode(Compound(th), 2, 1) == Gen(ASSIGN_G, 2, 2);
    var x := StmtCode(ss[0], 0, 0);
    assert x.code == Joined(Joined(ASK_F, Fresh(1), ASSIGN_G), Fresh(2), []);
    assert BodyCode(ss[1..], x.labels, x.ids).code == ALLOW;
    assert RawCode(OPEN, Base(0, 0)) == x.code + ALLOW;
  }

  lemma {:induction false} OpenIsTidy()
    ensures Tidy(OPEN_CODE, Inside, {})
  {
    hide Tidy;
    var br := ASK_F[1];
    var reach := {} + {Fresh(1), Fresh(2)};
    assert Tidy([], BehindEnd, reach) by { NothingIsTidy(reach); }
    NoTargetSets(reach);
    NoTargetSets({});
    assert ALLOW == [ALLOW[0]] + [];
    TidyStep(ALLOW[0], [], BehindMark, reach);
    TidyStep(Mark(Fresh(2)), ALLOW, Inside, reach);
    TidyStep(ASSIGN_G[1], [Mark(Fresh(2))] + ALLOW, Inside, reach);
    TidyStep(ASSIGN_G[0], [ASSIGN_G[1]] + ([Mark(Fresh(2))] + ALLOW), BehindMark, reach);
    assert [ASSIGN_G[0]] + ([ASSIGN_G[1]] + ([Mark(Fresh(2))] + ALLOW)) == ASSIGN_G + ([Mark(Fresh(2))] + ALLOW);
    assert br.t == Fresh(1) && br.f == Fresh(2) && br.Branch?;
    BranchThenTidy(br, Fresh(1), ASSIGN_G + ([Mark(Fresh(2))] + ALLOW), Inside, {});
    TidyStep(ASK_F[0], [br] + ([Mark(Fresh(1))] + (ASSIGN_G + ([Mark(Fresh(2))] + ALLOW))), Inside, {});
    assert OPEN_CODE == [ASK_F[0]] + ([br] + ([Mark(Fresh(1))] + (ASSIGN_G + ([Mark(Fresh(2))] + ALLOW))));
  }

  lemma {:induction false} NothingIsTidy(reach: set<Label>)
    ensures Tidy([], BehindEnd, reach)
  {
  }

  lemma {:induction false} OpenCheckCode()
    ensures CheckCode(OPEN, Base(0, 0)) == OPEN_CODE
  {
    hide *;
    OpenRawCode();
    OpenIsTidy();
    PassesIdle(OPEN_CODE);
    FrontIsPassed(OPEN, Base(0, 0));
  }

  function OpenBlocks(): Blocks {
    [Bare(Named("open"), ASK_F), Bare(Fresh(1), ASSIGN_G), Bare(Fresh(2), ALLOW)]
  }

  lemma {:induction false} OpenFlat()
    ensures Flat(OpenBlocks()) == [Mark(Named("open"))] + OPEN_CODE && MarkFree(OpenBlocks())
  {
    var bs := OpenBlocks();
    NoBlocks();
    hide Flat;
    assert bs == [bs[0]] + ([bs[1]] + ([bs[2]] + []));
    FlatMore(bs[2], []);
    FlatMore(bs[1], [bs[2]] + []);
    FlatMore(bs[0], [bs[1]] + ([bs[2]] + []));
  }

  /** Three blocks: the question, the assignment, which runs on, and the decision. */
  predicate OpenShape(bs: Blocks) {
    && |bs| == 3 && bs[0].insts == ASK_F && bs[1].insts == ASSIGN_G && bs[2].insts == ALLOW
    && bs[0].label_ == Named("open") && bs[1].label_ == Fresh(1) && bs[2].label_ == Fresh(2)
  }

  lemma {:induction false} OpenBlocksAre(bs: Blocks)
    requires BlocksOf(OPEN, Base(0, 0), bs)
    ensures OpenShape(bs)
  {
    var xs := OpenBlocks();
    OpenFlat();
    OpenCheckCode();
    assert Flat(bs) == Flat(xs) && MarkFree(bs) by { hide CheckCode, Flat; }
    hide CheckCode, Flat, BlocksOf, MarkFree;
    SameBlocks(bs, xs);
  }

  // ---------- Everything is the tracer's ----------

  lemma {:induction false} FirstIsTraced(bs: Blocks)
    requires OpenShape(bs) && Ordered(bs)
    ensures Coloured(bs, 0) && Start(bs, 0) == 0 && Only(bs, 0)
  {
    assert forall p | p in bs[0].parents :: p < 0;
    assert ASK_F[0] in ASK_F && ASK_F[0].Effect();
    assert HasEffect(ASK_F);
  }

  lemma {:induction false} OpenIsTraced(bs: Blocks)
    requires GoodBlocks(OPEN, Base(0, 0), bs)
    ensures OpenShape(bs) && Ordered(bs) && bs != []
    ensures FilterIr(bs, 0) == [Return(ToPtrace(0))] && TableOf(bs, 0) == [Named("open")]
    ensures LiftedSet(bs) == {0, 1, 2}
  {
    hide CheckCode, Flat, IsCfg, GoodBlock, DefsFor, Coloured, Start, Only, Emit, Edges;
    OpenBlocksAre(bs);
    FirstIsTraced(bs);
    var br := ASK_F[1];
    assert br in bs[0].insts && Fresh(1) in br.Targets() && Fresh(2) in br.Targets();
    ColourFollows(OPEN, Base(0, 0), bs, 0, br, Fresh(1));
    ColourFollows(OPEN, Base(0, 0), bs, 0, br, Fresh(2));
    assert Find(bs, 1, Fresh(1)) == Some(1) && Find(bs, 1, Fresh(2)) == Some(2);
    assert [Mark(Named("open")), Return(ToPtrace(0))][1..] == [Return(ToPtrace(0))];
  }

  // ---------- The text ----------

  lemma {:induction false} OpenSlots()
    ensures Slots(ASK_F, Fresh(1)) == 1 && Slots(ASK_F, Fresh(2)) == 1 && Slots(ASK_F, Named("open")) == 0
    ensures forall l :: Slots(ASSIGN_G, l) == 0 && Slots(ALLOW, l) == 0
  {
    assert ASK_F[1..] == [ASK_F[1]] && ASK_F[1..][1..] == [];
    assert ASSIGN_G[1..] == [ASSIGN_G[1]] && ASSIGN_G[1..][1..] == [] && ALLOW[1..] == [];
    forall l
      ensures Slots(ASK_F, l) == (if l == Fresh(1) then 1 else 0) + (if l == Fresh(2) then 1 else 0)
      ensures Slots(ASSIGN_G, l) == 0 && Slots(ALLOW, l) == 0
    {
      CountTargets(ASK_F[1], l);
      assert Slots(ASK_F[1..], l) == Count(ASK_F[1].Targets(), l);
      assert Slots(ASSIGN_G[1..], l) == 0;
    }
  }

  lemma {:induction false} RefsOfThree(x: Job, l: Label)
    requires OpenShape(x.bs) && x.lifted == {0, 1, 2}
    ensures Refs(x, 0, l) == Slots(ASK_F, l) + Slots(ASSIGN_G, l) + Slots(ALLOW, l)
  {
    hide Slots;
    assert Refs(x, 3, l) == 0;
    assert Refs(x, 2, l) == Slots(ALLOW, l);
    assert Refs(x, 1, l) == Slots(ASSIGN_G, l) + Refs(x, 2, l);
  }

  /** Both arms are inlined, and nothing stands behind the first block. */
  lemma {:induction false} OpenLayout(x: Job)
    requires Ready(x) && OpenShape(x.bs) && x.lifted == {0, 1, 2}
    ensures TextNext(x, 1) == 3 && Refers(x, 0, 1) && Refers(x, 0, 2)
  {
    OpenSlots();
    RefsOfThree(x, Fresh(1));
    RefsOfThree(x, Fresh(2));
    RefsOfThree(x, Named("open"));
    hide Slots, Ready, WellFormedJob;
    assert Referrer(x, 0, Fresh(1)) == 0;
    assert TopOf(x, 0) == 0 && TopOf(x, 1) == 0;
    assert NextTop(x, 3) == 3;
  }

  /** The tracer's text of the check: where the helper says yes, it assigns and falls out. */
  lemma {:induction false} OpenTextReads(m: Machine, x: Job, env: Env)
    requires Ready(x) && OpenShape(x.bs) && x.lifted == {0, 1, 2}
    ensures ReadText(m, x, 0, env, env) == if m.helper("f", [Lookup(env, "p")]) != 0 then FellOut else Done(Allow, env)
  {
    OpenLayout(x);
    hide Ready, WellFormedJob, Refers, TextNext, TopOf, LiftExpr, Inlined;
    var p := Lookup(env, "p");
    assert AllKnown(x.defs, ASK_F) && AllKnown(x.defs, ASSIGN_G) && AllKnown(x.defs, ALLOW) &&
      Grounded(x.defs) by { ThreeKnown(x); }
    AskReads(m, x, env);
    AssignReads(m, x, env);
    AllowReads(m, x, env);
    hide ReadInsts, AllKnown;
    assert Find(x.bs, 1, Fresh(1)) == Some(1) && Find(x.bs, 1, Fresh(2)) == Some(2);
    var e := ReadInsts(m, x, ASSIGN_G, env, map[], env);
    assert ReadText(m, x, 3, e.loc, e.regs) == FellOut;
    assert ReadText(m, x, 1, env, env) == FellOut;
    assert ReadText(m, x, 2, env, env) == Done(Allow, env);
  }

  lemma {:induction false} ThreeKnown(x: Job)
    requires Ready(x) && OpenShape(x.bs) && x.lifted == {0, 1, 2}
    ensures Grounded(x.defs) && AllKnown(x.defs, ASK_F) && AllKnown(x.defs, ASSIGN_G) && AllKnown(x.defs, ALLOW)
  {
    hide AllKnown, Grounded, TargetsLifted;
    assert AllKnown(x.defs, x.bs[0].insts) && AllKnown(x.defs, x.bs[1].insts) && AllKnown(x.defs, x.bs[2].insts);
  }

  lemma {:induction false} AskReads(m: Machine, x: Job, env: Env)
    requires Grounded(x.defs) && AllKnown(x.defs, ASK_F)
    ensures ReadInsts(m, x, ASK_F, env, map[], env) ==
      To(if m.helper("f", [Lookup(env, "p")]) != 0 then Fresh(1) else Fresh(2), env, env)
  {
    assert ParamValues(["p"], env) == [Lookup(env, "p")];
    assert ASK_F[1..] == [ASK_F[1]] && ASK_F[1] in ASK_F;
    var v := m.helper("f", [Lookup(env, "p")]);
    assert Result(m, ASK_F[0], env, map[]) == Some(v);
    assert ReadInsts(m, x, [ASK_F[1]], env, map[0 := v], env) == To(if v != 0 then Fresh(1) else Fresh(2), env, env);
    assert map[][0 := v] == map[0 := v];
  }

  lemma {:induction false} AssignReads(m: Machine, x: Job, env: Env)
    requires Grounded(x.defs) && AllKnown(x.defs, ASSIGN_G)
    ensures ReadInsts(m, x, ASSIGN_G, env, map[], env).Out?
  {
    hide LiftExpr, Eval;
    assert ASSIGN_G[1..] == [ASSIGN_G[1]] && ASSIGN_G[1..][1..] == [] && ASSIGN_G[1] in ASSIGN_G;
    var v := Result(m, ASSIGN_G[0], env, map[]).value;
    assert ReadInsts(m, x, [ASSIGN_G[1]], env, map[1 := v], env).Out?;
    assert map[][1 := v] == map[1 := v];
  }

  lemma {:induction false} AllowReads(m: Machine, x: Job, env: Env)
    requires Grounded(x.defs) && AllKnown(x.defs, ALLOW)
    ensures ReadInsts(m, x, ALLOW, env, map[], env) == Ends(Done(Allow, env))
  {
  }

  /** The check hands everything to the tracer, whose text allows the syscall where the helper says
      no, and where it says yes makes no decision at all. */
  lemma {:induction false} TextFallsOut(m: Machine, b: Built, env: Env)
    requires WellBuilt(b) && b.ck == OPEN && b.at == Base(0, 0) && b.n == 0
    ensures LabelC(Named("open")) in Text(b) && Table(b) == [Named("open")]
    ensures RunC(m, AfterLabel(Text(b), Named("open")), env, env) ==
      if m.helper("f", [Lookup(env, "p")]) != 0 then FellOut else Done(Allow, env)
    ensures Exec(m, OPEN.body, env) ==
      Stop(Allow, if m.helper("f", [Lookup(env, "p")]) != 0 then env["p" := m.helper("g", [Lookup(env, "p")])] else env)
  {
    hide *;
    BuiltIsCompiled(b);
    CompiledIsGood(b.ck, b.at, b.bs, b.n);
    OpenIsTraced(b.bs);
    JobIsRunnable(b.ck, b.at, b.bs, 0);
    var x := JobOf(b.ck, b.at, b.bs, 0);
    OpenJob(b);
    OpenTextReads(m, x, env);
    OpenParts(b.bs);
    TextReadsFrom(m, x, 0, env, env);
    OpenSays(m, env);
  }

  lemma {:induction false} OpenParts(bs: Blocks)
    requires OpenShape(bs)
    ensures |bs| == 3 && bs[0].label_ == Named("open")
  {
  }

  lemma {:induction false} OpenJob(b: Built)
    requires b.bs != [] && Ordered(b.bs) && b.n == 0 && TableOf(b.bs, 0) == [Named("open")]
    requires LiftedSet(b.bs) == {0, 1, 2}
    requires Ready(JobOf(b.ck, b.at, b.bs, 0))
    ensures var x := JobOf(b.ck, b.at, b.bs, 0);
      && x.bs == b.bs && x.lifted == {0, 1, 2} && Named("open") in x.iface && WellFormedJob(x) &&
         Text(b) == ProgramLines(x, 0)
    ensures Table(b) == [Named("open")]
  {
    hide LiftedSet, TableOf, WellFormedJob, ProgramLines, Ordered;
    ReadyParts(JobOf(b.ck, b.at, b.bs, 0));
  }

  lemma {:induction false} OpenSays(m: Machine, env: Env)
    ensures var v := Lookup(env, "p");
      Exec(m, OPEN.body, env) == Stop(Allow, if m.helper("f", [v]) != 0 then env["p" := m.helper("g", [v])] else env)
  {
    var v := Lookup(env, "p");
    assert ParamValues(["p"], env) == [v];
    var ss := OpenBody().stmts;
    var asg := Assign(Invoke("g", ["p"]), "p");
    var th := [asg];
    assert ss[0] == If(Invoke("f", ["p"]), Compound(th), None) && ss[1..] == [Permit(Allow)];
    assert ss[1..][0] == Permit(Allow) && th[1..] == [];
    assert Holds(m, Invoke("f", ["p"]), env) <==> m.helper("f", [v]) != 0;
    var env' := env["p" := m.helper("g", [v])];
    assert Exec(m, asg, env) == Next(env');
    assert ExecAll(m, th, env) == Next(env') by { assert ExecAll(m, [], env') == Next(env'); }
    assert forall e :: ExecAll(m, ss[1..], e) == Stop(Allow, e);
  }

  /** Where the helper says yes, the policy allows the syscall with a new argument, and the system
      makes no decision of its own; so it is ruled as the policy says exactly where the helper says
      no. */
  lemma {:induction false} RunsOnUndecided(m: Machine, ps: Builts, nrs: Numbers, defaultDeny: bool, data: Data)
    requires Alone(ps, OPEN) && Concerns(m, OPEN, nrs, data)
    ensures ps != [] && |data.args| >= 1
    ensures m.helper("f", [data.args[0]]) != 0 ==>
      Observed(m, ps, nrs, defaultDeny, data) == None && Intended(m, [OPEN], nrs, defaultDeny, data).perm == Allow
    ensures Observed(m, ps, nrs, defaultDeny, data) == Some(Intended(m, [OPEN], nrs, defaultDeny, data)) <==>
      m.helper("f", [data.args[0]]) == 0
  {
    hide *;
    AloneIs(ps, OPEN);
    var b := ps[0];
    var env := OpenEnv(m, nrs, data);
    BuiltIsCompiled(b);
    CompiledIsGood(b.ck, b.at, b.bs, 0);
    OpenIsTraced(b.bs);
    HandsOff(m, env, ArgIndexOf(OPEN.params), AtEntry(m, data));
    AloneReturns(m, ps, OPEN, nrs, defaultDeny, data);
    TextFallsOut(m, b, env);
    IntendedAlone(m, OPEN, nrs, defaultDeny, data);
    if m.helper("f", [data.args[0]]) != 0 {
      NotDecided(m, ps, nrs, defaultDeny, data);
    } else {
      TextAlone(ps);
      OpenIsNamed();
      TracedAlone(m, ps, nrs, defaultDeny, data, Allow, env);
    }
  }

  lemma {:induction false} OpenIsNamed()
    ensures OPEN.name == "open"
  {
  }

  lemma {:induction false} OpenEnv(m: Machine, nrs: Numbers, data: Data) returns (env: Env)
    requires Concerns(m, OPEN, nrs, data)
    ensures |OPEN.params| <= |data.args| && |data.args| >= 1 && env == EnvOf(OPEN.params, data.args)
    ensures Lookup(env, "p") == data.args[0]
  {
    hide SyscallNr, OpenBody;
    env := EnvOf(OPEN.params, data.args);
    assert OPEN.params[0] == "p";
  }

  lemma {:induction false} HandsOff(m: Machine, env: Env, idx: ArgIndex, r: Regs)
    ensures Read(m, idx, [Return(ToPtrace(0))], env, map[], r) == Settled(ToPtrace(0))
    ensures ReturnAction(ToPtrace(0)) == RetTrace(0)
  {
  }

  lemma {:induction false} NotDecided(m: Machine, ps: Builts, nrs: Numbers, defaultDeny: bool, data: Data)
    requires |ps| == 1 && WellBuilt(ps[0]) && ps[0].ck == OPEN && Table(ps[0]) == [Named("open")]
    requires |OPEN.params| <= |data.args| && LabelC(Named("open")) in Text(ps[0])
    requires var env := EnvOf(OPEN.params, data.args);
      RunC(m, AfterLabel(Text(ps[0]), Named("open")), env, env) == FellOut
    requires RunF(m, data, Assembled(ResolvedFilter(ps, nrs, defaultDeny)), 0, 0, 0) == Verdict(RetTrace(0))
    ensures Observed(m, ps, nrs, defaultDeny, data) == None
  {
    hide RunF, ResolvedFilter, Assembled, RunC, Text, Table, AfterLabel, EnvOf, HasTracerBlock, OwnerOf, WellBuilt,
      TextAfter;
    TextAlone(ps);
    assert JmpTable(ps[1..]) == [];
    assert JmpTable(ps) == [Named("open")];
  }

  lemma {:induction false} TracedAlone(m: Machine, ps: Builts, nrs: Numbers, defaultDeny: bool, data: Data, p: Perm,
                                       regs: Env)
    requires |ps| == 1 && |ps[0].ck.params| <= |data.args|
    requires var l := Named(ps[0].ck.name);
      && Table(ps[0]) == [l] && LabelC(l) in Text(ps[0]) && TracerText(ps) == Text(ps[0])
      && var env := EnvOf(ps[0].ck.params, data.args);
         RunC(m, AfterLabel(Text(ps[0]), l), env, env) == Done(p, regs)
    requires RunF(m, data, Assembled(ResolvedFilter(ps, nrs, defaultDeny)), 0, 0, 0) == Verdict(RetTrace(0))
    ensures Observed(m, ps, nrs, defaultDeny, data) == Some(Ruling(p, Registers(ps[0].ck.params, data.args, regs)))
  {
    hide RunF, ResolvedFilter, Assembled, RunC, Text, Table, TracerText, AfterLabel, EnvOf, HasTracerBlock, OwnerOf,
      Registers;
    var l := Named(ps[0].ck.name);
    assert JmpTable(ps[1..]) == [];
    assert JmpTable(ps) == [l];
    assert OwnerOf(ps, l) == Some(0) by {
      TextLabels(ps[0], l);
      OwnerExists(ps, l, 0);
    }
  }

  /** The text of one check is all there is. */
  lemma {:induction false} TextAlone(ps: Builts)
    requires |ps| == 1 && WellBuilt(ps[0])
    ensures TracerText(ps) == Text(ps[0])
  {
    hide Text, Table, WellBuilt, TextAfter;
    ForeignText(ps[0], []);
    assert ps[1..] == [] && TextsAfter(ps[1..], [] + Table(ps[0])) == [];
  }

  lemma {:induction false} OpenHasFilter()
    ensures !Fails(OPEN)
  {
    forall bs: Blocks | GoodBlocks(OPEN, Base(0, 0), bs) && bs != [] && Ordered(bs)
      ensures FilterOf(OPEN, bs, 0).Some?
    {
      hide *;
      OpenIsTraced(bs);
      FilterIsGen(OPEN, bs, 0);
      ReturnGenerates(ArgIndexOf(OPEN.params));
    }
    hide GoodBlocks, FilterOf, OPEN;
  }

  lemma {:induction false} ReturnGenerates(idx: ArgIndex)
    ensures GenAll([Return(ToPtrace(0))], EMPTY_STATE, idx).Some?
  {
    assert [Return(ToPtrace(0))][1..] == [];
  }

  lemma {:induction false} OpenIsTyped()
    ensures OPEN.body == OpenBody() && OPEN.name == "open" && WellTyped(OpenBody())
    ensures StmtDeclared(OPEN.params, OpenBody()) && ShortPolicy([OPEN])
  {
    var ss := OpenBody().stmts;
    var th := [Assign(Invoke("g", ["p"]), "p")];
    assert ss[0] == If(Invoke("f", ["p"]), Compound(th), None) && ss[1..] == [Permit(Allow)] && ss[1..][1..] == [];
    assert th[1..] == [];
    assert BodyLength(th) == 2 && CondLength(Invoke("f", ["p"])) == 2;
    assert WellTyped(th[0]) && WellTyped(Compound(th)) && StmtDeclared(["p"], th[0]);
    assert StmtDeclared(["p"], Compound(th));
    assert StmtLength(ss[0]) == 6 && BodyLength(ss[1..]) == 1;
    assert StmtLength(OpenBody()) == 7;
    assert [OPEN][1..] == [];
  }

  /** The policy compiles, so there is such a text. */
  method CompileOpen(nrs: Numbers, defaultDeny: bool) returns (out: Option<Output>, ghost ps: Builts)
    requires "open" in nrs
    ensures out.Some? && Alone(ps, OPEN) && ps != [] && Outputs(out.value, ps, nrs, defaultDeny)
  {
    OpenIsTyped();
    OpenHasFilter();
    hide WellTyped, StmtDeclared, OpenBody, Fails, WellBuiltPolicy, Outputs, ShortPolicy;
    out, ps := CompileAlone(OPEN, nrs, defaultDeny);
  }

  // ---------- An assignment that reads what it assigns ----------

  /** `a = a + 1` of an argument in a register: evaluated once more, it adds two. */
  lemma {:induction false} IncrementAddsTwo(m: Machine, x: Job, loc: Env, rest: Lines)
    requires m.alu == Alu32 && "a" !in x.copied
    ensures var e := Binary(PLUS, Ref("a"), Value(1));
      var v := Lookup(loc, "a");
      RunC(m, [AssignC("a", e), WriteBack(x, "a", e)] + rest, loc, loc) ==
      RunC(m, rest, loc["a" := (v + 1) % MODULUS], loc["a" := (v + 2) % MODULUS])
  {
    hide RunC;
    var e := Binary(PLUS, Ref("a"), Value(1));
    WriteBackIsRightIff(m, x, "a", e, rest, loc, loc);
    Incremented(m, loc);
    var v := Lookup(loc, "a");
    Incremented(m, loc["a" := (v + 1) % MODULUS]);
    OneAndOne(v);
  }

  lemma {:induction false} Incremented(m: Machine, loc: Env)
    requires m.alu == Alu32
    ensures Eval(m, Binary(PLUS, Ref("a"), Value(1)), loc) == (Lookup(loc, "a") + 1) % MODULUS
  {
    assert Eval(m, Ref("a"), loc) == Lookup(loc, "a") && Eval(m, Value(1), loc) == 1;
  }

  lemma {:induction false} OneAndOne(v: Word)
    ensures ((v + 1) % MODULUS + 1) % MODULUS == (v + 2) % MODULUS
  {
  }
}
