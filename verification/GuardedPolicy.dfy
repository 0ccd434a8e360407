/** Policies that their text says are ruled as they were meant, and examples of them. */
module GuardedPolicy {
  import opened Syntax
  import opened Bpf
  import opened Scratch
  import opened Colour
  import opened Resolve
  import opened Check
  import opened Declared
  import opened CheckRun
  import opened Policy
  import opened PolicyRun
  import opened GuardCode
  import opened Guarded
  import opened FilterOnly
  import opened Short
  import opened Compile

  /** Checks whose text shows that they are decided as they were meant. */
  predicate PlainCheck(ck: Check) {
    GuardCheck(ck) || (FilterStmt(ck.body) && Decides(ck.body) && ThenBranchesDecide(ck.body))
  }

  lemma {:induction false} PlainIsSupported(ps: Builts)
    requires WellBuiltPolicy(ps) && forall ck | ck in Checks(ps) :: PlainCheck(ck)
    ensures SupportedPolicy(ps)
  {
    hide WellBuiltPolicy, WellBuilt, Supported, Decides, ThenBranchesDecide, FilterStmt, GuardCheck;
    AllWellBuilt(ps);
    CheckIsListed(ps);
    forall b | b in ps
      ensures Supported(b.ck, b.at, b.bs, b.n) && Decides(b.ck.body) && ThenBranchesDecide(b.ck.body)
    {
      assert b.ck in Checks(ps);
      PlainBuilt(b);
    }
  }

  lemma {:induction false} PlainBuilt(b: Built)
    requires WellBuilt(b) && PlainCheck(b.ck)
    ensures Supported(b.ck, b.at, b.bs, b.n) && Decides(b.ck.body) && ThenBranchesDecide(b.ck.body)
  {
    hide Supported, Decides, ThenBranchesDecide, FilterStmt, WellTyped, VariablesDeclared, BlocksOf, FilterOf, RawCode,
      Guards, Screened, Ordered;
    if GuardCheck(b.ck) {
      GuardsAreSupported(b.ck, b.at, b.bs, b.n);
      GuardBodyDecides(b.ck.body);
    } else {
      FilterStmtIsSupported(b.ck, b.at, b.bs, b.n);
    }
  }

  /** A compiled policy of such checks with different names is ruled as it says on every syscall. */
  lemma {:induction false} PlainPolicyRules(m: Machine, ps: Builts, nrs: Numbers, defaultDeny: bool, data: Data)
    requires WellBuiltPolicy(ps) && (forall ck | ck in Checks(ps) :: PlainCheck(ck) && |ck.params| <= |data.args|)
    requires DistinctNames(ps) && m.jumps && Commutes(m)
    requires NarrowOffsets(ResolvedFilter(ps, nrs, defaultDeny)) && |JmpTable(ps)| <= 0x1_0000
    ensures Observed(m, ps, nrs, defaultDeny, data) == Some(Intended(m, Checks(ps), nrs, defaultDeny, data))
  {
    hide *;
    PlainIsSupported(ps);
    CheckIsListed(ps);
    assert forall b | b in ps :: b.ck in Checks(ps);
    SupportedPolicyRules(m, ps, nrs, defaultDeny, data);
  }

  /** On this many arguments the policy is ruled as it says, for every interpretation of the helpers. */
  ghost predicate RuledAsMeant(ps: Builts, nrs: Numbers, defaultDeny: bool, arity: nat)
    requires ps != [] && forall ck | ck in Checks(ps) :: |ck.params| <= arity
  {
    forall m: Machine, data: Data | m.jumps && m.alu == Alu32 && |data.args| == arity ::
      Observed(m, ps, nrs, defaultDeny, data) == Some(Intended(m, Checks(ps), nrs, defaultDeny, data))
  }

  lemma {:induction false} PlainIsRuled(ps: Builts, nrs: Numbers, defaultDeny: bool, arity: nat)
    requires WellBuiltPolicy(ps) && DistinctNames(ps) && ShortPolicy(Checks(ps))
    requires forall ck | ck in Checks(ps) :: PlainCheck(ck) && |ck.params| <= arity
    ensures ps != [] && RuledAsMeant(ps, nrs, defaultDeny, arity)
  {
    hide WellBuiltPolicy, DistinctNames, ShortPolicy, PlainCheck, Observed, Intended, NarrowOffsets, JmpTable, Alu32,
      Commutes;
    PolicyHasChecks(ps);
    ShortFits(ps, nrs, defaultDeny);
    forall m: Machine, data: Data | m.jumps && m.alu == Alu32 && |data.args| == arity
      ensures Observed(m, ps, nrs, defaultDeny, data) == Some(Intended(m, Checks(ps), nrs, defaultDeny, data))
    {
      Alu32Commutes(m);
      PlainPolicyRules(m, ps, nrs, defaultDeny, data);
    }
  }

  // ---------- From the text to the ruling ----------

  /** What a caller checks of a policy before it is compiled. */
  predicate PlainPolicy(cks: seq<Check>, nrs: Numbers, arity: nat) {
    && cks != [] && DifferentNames(cks) && ShortPolicy(cks)
    && forall ck | ck in cks :: PlainEntry(ck, nrs, arity)
  }

  predicate PlainEntry(ck: Check, nrs: Numbers, arity: nat) {
    && WellTyped(ck.body) && StmtDeclared(ck.params, ck.body) && PlainCheck(ck) && |ck.params| <= arity
    && ck.name in nrs && ck.name != "__deny" && ck.name != "__allow"
  }

  lemma {:induction false} GuardsDoNotStop(ps: Builts, cks: seq<Check>, nrs: Numbers, stop: Built)
    requires IsNext(ps, cks, stop) && stop.bs != [] && Ordered(stop.bs) && GuardCheck(stop.ck) && stop.ck.name in nrs
    ensures !Stops(stop, nrs)
  {
    hide GuardCheck, WellTyped, VariablesDeclared, BlocksOf, Supported, FilterOf, RawCode, StartAt, JmpTable;
    GuardsAreSupported(stop.ck, stop.at, stop.bs, stop.n);
  }

  /** The compiler, on every policy of plain checks: its filter, text and tables rule on every
      syscall as the policy says, and it stops at most at a check that is not one of screened
      guards, for the scratch cells of which it does not look at the text. */
  method CompilePlain(cks: seq<Check>, nrs: Numbers, defaultDeny: bool, arity: nat)
    returns (out: Option<Output>, ghost ps: Builts)
    requires PlainPolicy(cks, nrs, arity)
    ensures out.Some? ==>
      WellBuiltPolicy(ps) && Checks(ps) == cks && (forall ck | ck in cks :: |ck.params| <= arity) && ps != []
    ensures out.Some? ==> Outputs(out.value, ps, nrs, defaultDeny) && RuledAsMeant(ps, nrs, defaultDeny, arity)
    ensures out.None? ==> exists ck | ck in cks :: !GuardCheck(ck)
  {
    hide WellBuiltPolicy, Outputs, RuledAsMeant, DifferentNames, DistinctNames, ShortPolicy, WellTyped, StmtDeclared,
      GuardCheck, PlainCheck, Stops, IsNext, InSequence, Ordered;
    ghost var stop;
    out, ps, stop := CompilePolicy(cks, nrs, defaultDeny);
    if out.None? {
      hide PlainPolicy, PlainEntry;
      PlainStops(ps, cks, nrs, arity, stop);
    } else {
      assert forall ck | ck in cks :: PlainEntry(ck, nrs, arity);
      NamesDiffer(ps);
      PlainIsRuled(ps, nrs, defaultDeny, arity);
    }
  }

  lemma {:induction false} PlainStops(ps: Builts, cks: seq<Check>, nrs: Numbers, arity: nat, stop: Built)
    requires PlainPolicy(cks, nrs, arity)
    requires
      || (exists k | 0 <= k < |cks| :: Undeclared(cks, k))
      || (InSequence(ps, Base(0, 0), 0) && IsNext(ps, cks, stop) && stop.bs != [] && Ordered(stop.bs) &&
        Stops(stop, nrs))
    ensures exists ck | ck in cks :: !GuardCheck(ck)
  {
    hide DifferentNames, ShortPolicy, WellTyped, StmtDeclared, GuardCheck, PlainCheck, Ordered, Stops,
      VariablesDeclared, BlocksOf, RawCode, StartAt, JmpTable, InSequence;
    assert forall k | 0 <= k < |cks| :: cks[k] in cks;
    if GuardCheck(stop.ck) && IsNext(ps, cks, stop) && stop.bs != [] && Ordered(stop.bs) {
      GuardsDoNotStop(ps, cks, nrs, stop);
    }
  }

  predicate GuardPolicy(cks: seq<Check>, nrs: Numbers, arity: nat) {
    PlainPolicy(cks, nrs, arity) && forall ck | ck in cks :: GuardCheck(ck)
  }

  /** On a policy of screened guards the compiler does not stop. */
  method CompileGuards(cks: seq<Check>, nrs: Numbers, defaultDeny: bool, arity: nat)
    returns (out: Output, ghost ps: Builts)
    requires GuardPolicy(cks, nrs, arity)
    ensures WellBuiltPolicy(ps) && Checks(ps) == cks && (forall ck | ck in cks :: |ck.params| <= arity) && ps != []
    ensures Outputs(out, ps, nrs, defaultDeny) && RuledAsMeant(ps, nrs, defaultDeny, arity)
  {
    hide PlainPolicy, GuardCheck, WellBuiltPolicy, Outputs, RuledAsMeant;
    var compiled;
    compiled, ps := CompilePlain(cks, nrs, defaultDeny, arity);
    out := compiled.value;
  }

  // ---------- Examples ----------

  /** `if (protected_file(pathname)) { pathname = safex(pathname); allow; } else { allow; }` */
  function Safex(): Stmt {
    If(Invoke("protected_file", ["pathname"]),
       Compound([Assign(Invoke("safex", ["pathname"]), "pathname"), Permit(Allow)]),
       Some(Compound([Permit(Allow)])))
  }

  /** `if (a == 1) allow; if (f(p)) deny; allow;` */
  function FirstFilterThenTracer(): Stmt {
    Compound([
      If(Binary(EQ, Ref("a"), Value(1)), Permit(Allow), None),
      If(Invoke("f", ["p"]), Permit(Deny), None),
      Permit(Allow)])
  }

  function ExamplePolicy(): seq<Check> {
    [Check("openat", ["dirfd", "pathname", "flags"], Safex(), {"pathname"}),
     Check("kill", ["a", "p"], FirstFilterThenTracer(), {})]
  }

  lemma {:induction false} SafexIsGuarded()
    ensures WellTyped(Safex()) && StmtDeclared(["dirfd", "pathname", "flags"], Safex()) && StmtLength(Safex()) == 10
    ensures Guards(AsList(Safex())) && Screened({"pathname"}, AsList(Safex()), false)
  {
    var thn, els := Safex().thn, Safex().els.value;
    var ss := thn.stmts;
    assert ss[1..] == [Permit(Allow)] && ss[1..][1..] == [] && els.stmts[1..] == [];
    assert LeafList(ss[1..]) && LeafList(ss) && LeafList(els.stmts);
    assert Leaf(thn) && Leaf(els);
    assert BodyLength(ss[1..]) == 1 && BodyLength(els.stmts) == 1;
    assert AsList(Safex()) == [Safex()];
  }

  lemma {:induction false} MixedIsTyped()
    ensures var s := FirstFilterThenTracer(); WellTyped(s) && StmtDeclared(["a", "p"], s) && StmtLength(s) == 10
  {
    var ss := FirstFilterThenTracer().stmts;
    assert ss[1..][1..] == [Permit(Allow)] && ss[1..][1..][1..] == [] && ss[1..][0] == ss[1];
    assert StmtLength(ss[0]) == 4 && StmtLength(ss[1]) == 5 && BodyLength(ss[1..][1..]) == 1;
    assert BodyLength(ss[1..]) == 6 && StmtLength(FirstFilterThenTracer()) == BodyLength(ss);
    assert WellTyped(ss[0]) && WellTyped(ss[1]) && StmtDeclared(["a", "p"], ss[0]) && StmtDeclared(["a", "p"], ss[1]);
  }

  lemma {:induction false} MixedIsGuarded()
    ensures var ss := AsList(FirstFilterThenTracer()); Guards(ss) && Screened({}, ss, false)
  {
    var ss := FirstFilterThenTracer().stmts;
    var l := [Permit(Allow)];
    assert ss[1..][1..] == l && ss[1..][1..][1..] == [] && ss[1..][0] == ss[1];
    assert LeafList(l) && AsList(Permit(Allow)) == l && LeafList([Permit(Deny)]);
    assert Guards(l) && Guards(ss[1..]) && Guards(ss);
    assert LeafScreened({}, [Permit(Deny)], true) && LeafScreened({}, l, false) && LeafScreened({}, l, true);
    hide LeafScreened, LeafList;
    assert Screened({}, l, true);
    assert TestScreened(ss[1].cond, false) && TestScreened(ss[0].cond, false) && NoCalls(ss[0].cond);
    assert !NoCalls(ss[1].cond);
    hide TestScreened, NoCalls;
    assert Screened({}, ss[1..], false);
  }

  /** Two checks of which one is the tracer's alone and one is shared: compiled, they rule on every
      syscall as they say, whatever the helpers are. */
  method CompileExample(nrs: Numbers, defaultDeny: bool) returns (out: Output, ghost ps: Builts)
    requires "openat" in nrs && "kill" in nrs
    ensures Checks(ps) == ExamplePolicy() && (forall ck | ck in ExamplePolicy() :: |ck.params| <= 6) && ps != []
    ensures Outputs(out, ps, nrs, defaultDeny) && RuledAsMeant(ps, nrs, defaultDeny, 6)
  {
    SafexIsGuarded();
    MixedIsTyped();
    MixedIsGuarded();
    var cks := ExamplePolicy();
    hide WellTyped, StmtDeclared, Guards, Screened, StmtLength, RuledAsMeant, Outputs, WellBuiltPolicy;
    assert cks[1..][1..] == [];
    assert LinesOfAll(cks[1..]) == 2 + LinesOf(cks[1]) && LinesOfAll(cks) == 2 + LinesOf(cks[0]) + LinesOfAll(cks[1..]);
    out, ps := CompileGuards(cks, nrs, defaultDeny, 6);
  }
}
