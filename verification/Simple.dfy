/** Policies whose checks are one decision, or one guard with a literal: they always compile. */
module Simple {
  import opened Syntax
  import opened Ir
  import opened BpfGen
  import opened Cfg
  import opened Colour
  import opened Check
  import opened Declared
  import opened CheckRun
  import opened Policy
  import opened PolicyRun
  import opened Idle
  import opened FilterOnly
  import opened Compile
  import opened LimitsTracer
  import opened Undecided

  /** `p;`, or `if (x op n) p;` */
  predicate SimpleBody(s: Stmt) {
    s.Permit? || SimpleGuard(s)
  }

  predicate SimpleGuard(s: Stmt) {
    && s.If? && s.cond.Binary? && s.cond.left.Ref? && s.cond.right.Value?
    && exists p: Perm :: LoneGuard(s, s.cond.op, s.cond.left.name, s.cond.right.n, p)
  }

  lemma {:induction false} GuardIsSimple(s: Stmt, op: OpCode, x: string, n: Word, p: Perm)
    requires LoneGuard(s, op, x, n, p)
    ensures SimpleBody(s)
  {
  }

  // ---------- One decision ----------

  lemma {:induction false} PermitCode(ck: Check, at: Base, p: Perm)
    requires ck.body == Permit(p)
    ensures CheckCode(ck, at) == [Return(Decision(p))] && NoEffects(CheckCode(ck, at))
  {
    var c := [Return(Decision(p))];
    assert RawCode(ck, at) == c && NoEffects(c);
    assert c[1..] == [];
    assert Tidy(c, Inside, {});
    hide *;
    PassesIdle(c);
    FrontIsPassed(ck, at);
  }

  lemma {:induction false} PermitBuilt(b: Built, p: Perm)
    requires WellBuilt(b) && b.ck.body == Permit(p)
    ensures b.bs != [] && Ordered(b.bs) && FilterIr(b.bs, b.n) == [Return(Decision(p))] && Table(b) == []
  {
    hide WellBuilt, CheckCode, NoEffects, GoodBlocks, FilterIr, TableOf, FilterOf, Coloured, Only, BlocksOf;
    BuiltIsCompiled(b);
    CompiledIsGood(b.ck, b.at, b.bs, b.n);
    BuiltBlocks(b);
    PermitCode(b.ck, b.at, p);
    NothingIsTraced(b.ck, b.at, b.bs, b.n);
  }

  // ---------- They compile ----------

  lemma {:induction false} ReturnGenerates(p: Perm, idx: ArgIndex)
    ensures GenAll([Return(Decision(p))], EMPTY_STATE, idx).Some?
  {
    assert [Return(Decision(p))][1..] == [];
  }

  lemma {:induction false} LoneGenerates(op: OpCode, x: string, n: Word, p: Perm, lab: nat, idx: ArgIndex)
    requires IsCompare(op)
    ensures GenAll(LoneCode(op, x, n, p, lab), EMPTY_STATE, idx).Some?
  {
    hide AddressMode, OpBits, LoadArgumentOrInt, ReturnAction;
    var tail := [Return(Decision(p)), Mark(Fresh(lab + 2))];
    assert tail[1..] == [Mark(Fresh(lab + 2))] && tail[1..][1..] == [];
    assert GenAll(tail[1..], EMPTY_STATE, idx).Some?;
    assert GenAll(tail, EMPTY_STATE, idx).Some?;
    var c := LoneCode(op, x, n, p, lab);
    assert c[1..] == [Mark(Fresh(lab + 1))] + tail && ([Mark(Fresh(lab + 1))] + tail)[1..] == tail;
    assert GenAll([Mark(Fresh(lab + 1))] + tail, EMPTY_STATE, idx).Some?;
  }

  lemma {:induction false} SimpleHasFilter(ck: Check, at: Base, bs: Blocks, n: nat)
    requires SimpleBody(ck.body) && BlocksOf(ck, at, bs) && bs != [] && Ordered(bs)
    ensures FilterOf(ck, bs, n).Some?
  {
    hide LoneGuard, CheckCode, NoEffects, BlocksOf, Ordered, FilterIr, FilterOf, GenAll, LoneCode, TableOf, Coloured,
      Only;
    var s, idx := ck.body, ArgIndexOf(ck.params);
    FilterIsGen(ck, bs, n);
    if s.Permit? {
      PermitCode(ck, at, s.perm);
      ReturnGenerates(s.perm, idx);
    } else {
      var p: Perm :| LoneGuard(s, s.cond.op, s.cond.left.name, s.cond.right.n, p);
      LoneCompares(s, s.cond.op, s.cond.left.name, s.cond.right.n, p);
      LoneCheckCode(ck, at, s.cond.op, s.cond.left.name, s.cond.right.n, p);
      LoneGenerates(s.cond.op, s.cond.left.name, s.cond.right.n, p, at.labels, idx);
    }
    NothingIsTraced(ck, at, bs, n);
  }

  lemma {:induction false} SimpleIsTyped(s: Stmt)
    requires SimpleBody(s)
    ensures WellTyped(s)
  {
    if !s.Permit? {
      var p: Perm :| LoneGuard(s, s.cond.op, s.cond.left.name, s.cond.right.n, p);
      assert WellTyped(Permit(p)) && WellTyped(Compound([Permit(p)]));
      assert CondExpr(s.cond);
    }
  }

  /** What a caller sees of such a check. */
  predicate SimpleCheck(ck: Check, nrs: Numbers) {
    SimpleBody(ck.body) && StmtDeclared(ck.params, ck.body) && ck.name in nrs && ck.name != "__deny" &&
      ck.name != "__allow"
  }

  lemma {:induction false} SimpleNeverStops(ps: Builts, cks: seq<Check>, nrs: Numbers, stop: Built)
    requires forall ck | ck in cks :: SimpleCheck(ck, nrs)
    ensures forall k | 0 <= k < |cks| :: !Undeclared(cks, k)
    ensures !(IsNext(ps, cks, stop) && stop.bs != [] && Ordered(stop.bs) && Stops(stop, nrs))
  {
    hide SimpleBody, StmtDeclared, WellTyped, VariablesDeclared, BlocksOf, RawCode, StartAt, JmpTable, FilterOf,
      Ordered;
    assert forall k | 0 <= k < |cks| :: cks[k] in cks;
    if IsNext(ps, cks, stop) && stop.bs != [] && Ordered(stop.bs) {
      SimpleHasFilter(stop.ck, stop.at, stop.bs, stop.n);
    }
  }

  /** The compiler does not stop on such policies, whether names are repeated or not. */
  method CompileSimple(cks: seq<Check>, nrs: Numbers, defaultDeny: bool) returns (out: Output, ghost ps: Builts)
    requires cks != [] && forall ck | ck in cks :: SimpleCheck(ck, nrs)
    ensures WellBuiltPolicy(ps) && Checks(ps) == cks && ps != [] && Outputs(out, ps, nrs, defaultDeny)
  {
    forall ck | ck in cks
      ensures WellTyped(ck.body)
    {
      SimpleIsTyped(ck.body);
    }
    hide SimpleBody, StmtDeclared, WellTyped, WellBuiltPolicy, Outputs, Undeclared, IsNext, Stops, Ordered, InSequence;
    var compiled, built, stop := CompilePolicy(cks, nrs, defaultDeny);
    if compiled.None? {
      assert false by { SimpleNeverStops(built, cks, nrs, stop); }
    }
    ps := built;
    out := compiled.value;
  }
}
