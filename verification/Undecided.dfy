/** Bodies that do not decide: the filter runs on into the tests of the checks behind them, with
    whatever the body left in A in place of the number. */
module Undecided {
  import opened Syntax
  import opened Ir
  import opened IrGen
  import opened Bpf
  import opened BpfGen
  import opened Reading
  import opened Misread
  import opened Colour
  import opened Resolve
  import opened Dispatch
  import opened Check
  import opened CheckRun
  import opened Policy
  import opened PolicyRun
  import opened Idle
  import opened FilterOnly
  import opened LimitsTracer

  // ---------- Any body that runs off its end ----------

  /** In front of the lines of the checks behind it. */
  lemma {:induction false} BodyRunsOn(m: Machine, data: Data, ps: Builts, nrs: Numbers, defaultDeny: bool, r: Regs,
                                      r': Regs, mem: Word)
    returns (mem': Word)
    requires ps != [] && Followable(ps, data.args) && Chained(Entries(ps, nrs)) && ps[0].bs != [] && Ordered(ps[0].bs)
    requires var b := ps[0];
      |b.ck.params| <= |data.args| &&
      Read(m, ArgIndexOf(b.ck.params), FilterIr(b.bs, b.n), EnvOf(b.ck.params, data.args), map[], r) == RunsOn(r')
    ensures var es := Entries(ps, nrs);
      var rest := Chain(es[1..], DefaultLabel(defaultDeny)) + Epilogue(defaultDeny);
      RunF(m, data, es[0].body + rest, r.a, r.x, mem) == RunF(m, data, rest, r'.a, r'.x, mem')
  {
    var es, b := Entries(ps, nrs), ps[0];
    var rest := Chain(es[1..], DefaultLabel(defaultDeny)) + Epilogue(defaultDeny);
    assert b in ps;
    hide RunF, Chain, Epilogue, Read, FilterIr, FilterOf, ReturnAction, WellBuilt, EnvOf, Entries;
    BodyApart(es, defaultDeny);
    EntryIs(b, nrs);
    BuiltIsCompiled(b);
    CompiledIsGood(b.ck, b.at, b.bs, b.n);
    EnvMatches(b.ck.params, data);
    mem' := FilterDoes(m, b.ck, b.at, b.bs, b.n, data, EnvOf(b.ck.params, data.args), r, rest, mem);
  }

  /** Such a syscall is ruled by the check behind it whose number the body left in A, or by the
      default, whatever the policy says of it. */
  lemma {:induction false} RunsInto(m: Machine, ps: Builts, nrs: Numbers, defaultDeny: bool, data: Data, k: nat,
                                    r: Regs)
    requires WellBuiltPolicy(ps) && TracersApart(ps) && Followable(ps, data.args)
    requires m.jumps && NarrowOffsets(ResolvedFilter(ps, nrs, defaultDeny)) && |JmpTable(ps)| <= 0x1_0000
    requires data.arch == T_ARCH && ChosenAt(m, ps, nrs, data) == Some(k) && ps[k].bs != [] && Ordered(ps[k].bs)
    requires var b := ps[k];
      |b.ck.params| <= |data.args| &&
      Read(m, ArgIndexOf(b.ck.params), FilterIr(b.bs, b.n), EnvOf(b.ck.params, data.args), map[], AtEntry(m, data)) ==
        RunsOn(r)
    requires var e := EnteredAt(ps[k + 1..], nrs, r.a); e.Some? ==> MeantAt(m, ps[k + 1..][e.value], data, r)
    ensures var e := EnteredAt(ps[k + 1..], nrs, r.a);
      && (e.Some? ==> |ps[k + 1..][e.value].ck.params| <= |data.args|)
      && Observed(m, ps, nrs, defaultDeny, data) == Some(RulingOf(m, CheckAt(ps[k + 1..], e), defaultDeny, data.args))
  {
    hide *;
    var es, rest := Entries(ps, nrs), ps[k + 1..];
    PolicyHasChecks(ps);
    EntriesFit(ps, nrs);
    ChainedWhole(es);
    AssembledRuns(m, ps, nrs, defaultDeny, data);
    ProgramChooses(m, data, es, defaultDeny);
    StartIs(m, data, ps, nrs, defaultDeny);
    ChosenIsSuffix(m, data, es);
    EntriesFrom(ps, nrs, k);
    EntriesFrom(ps, nrs, k + 1);
    FollowableTail(ps, data.args, k);
    FollowableTail(ps, data.args, k + 1);
    Tails(ps, k);
    Tails(es, k);
    ChainedFrom(es, k);
    ChainedFrom(es, k + 1);
    StartsWithNumber(m, data);
    var mem := BodyRunsOn(m, data, ps[k..], nrs, defaultDeny, AtEntry(m, data), r, 0);
    ChainedParts(es[k + 1..]);
    ChainEntered(m, data, es[k + 1..], defaultDeny, r.a, r.x, mem);
    FromIs(m, data, rest, nrs, defaultDeny, r);
    EnteredIsSuffix(es[k + 1..], r.a);
    var e := EnteredAt(rest, nrs, r.a);
    if e.None? {
      DefaultRules(m, ps, nrs, defaultDeny, data);
      assert CheckAt(rest, e) == None by { AtNone(rest); }
    } else {
      var at := k + 1 + e.value;
      TailAt(ps, es, k + 1, e.value);
      MeantParts(m, ps, at, data, r);
      var act := EntryRules(m, ps, at, data, r);
      EntryIs(ps[at], nrs);
      EntriesAre(ps, nrs, at);
      ChainedFrom(es, at);
      BodyApart(es[at..], defaultDeny);
      var s := es[at..];
      SettlesHere(m, data, s[0].body, r.a, r.x, act, Chain(s[1..], DefaultLabel(defaultDeny)) + Epilogue(defaultDeny),
        mem);
      CheckRulesIt(m, ps, nrs, defaultDeny, data, at, act);
      assert CheckAt(rest, e) == Some(ps[at].ck) by { AtSome(rest, e.value); }
    }
  }

  lemma {:induction false} FollowableTail(ps: Builts, args: seq<Word>, k: nat)
    requires Followable(ps, args) && k <= |ps|
    ensures Followable(ps[k..], args)
  {
    hide WellBuilt;
  }

  lemma {:induction false} Tails<T>(s: seq<T>, k: nat)
    requires k < |s|
    ensures s[k..] != [] && s[k..][0] == s[k] && s[k..][1..] == s[k + 1..]
  {
  }

  lemma {:induction false} TailAt(ps: Builts, es: seq<Entry>, k: nat, e: nat)
    requires |es| == |ps| && k <= |ps| && e < |ps[k..]|
    ensures k + e < |ps| && ps[k..][e] == ps[k + e] && es[k..][|es[k..]| - (|ps[k..]| - e)..] == es[k + e..]
  {
  }

  lemma {:induction false} EntriesAre(ps: Builts, nrs: Numbers, k: nat)
    requires k < |ps|
    ensures |Entries(ps, nrs)| == |ps| && Entries(ps, nrs)[k..] != [] && Entries(ps, nrs)[k..][0] == EntryOf(ps[k], nrs)
  {
    hide EntryOf;
  }

  lemma {:induction false} MeantParts(m: Machine, ps: Builts, k: nat, data: Data, r: Regs)
    requires k < |ps| && MeantAt(m, ps[k], data, r)
    ensures WellBuilt(ps[k]) && ps[k].bs != [] && Ordered(ps[k].bs) && |ps[k].ck.params| <= |data.args|
    ensures AsMeant(m, ps[k].ck, ps[k].at, ps[k].bs, ps[k].n, EnvOf(ps[k].ck.params, data.args), r)
  {
    hide WellTyped, VariablesDeclared, BlocksOf, FilterOf, AsMeant, Ordered;
  }

  lemma {:induction false} DefaultRules(m: Machine, ps: Builts, nrs: Numbers, defaultDeny: bool, data: Data)
    requires ps != []
    requires RunF(m, data, Assembled(ResolvedFilter(ps, nrs, defaultDeny)), 0, 0, 0) ==
      Verdict(if defaultDeny then RetKill else RetAllow)
    ensures Observed(m, ps, nrs, defaultDeny, data) == Some(RulingOf(m, None, defaultDeny, data.args))
  {
    hide RunF, ResolvedFilter, Assembled;
  }

  lemma {:induction false} CheckRulesIt(m: Machine, ps: Builts, nrs: Numbers, defaultDeny: bool, data: Data, k: nat,
                                        act: Action)
    requires k < |ps| && |ps[k].ck.params| <= |data.args|
    requires RunF(m, data, Assembled(ResolvedFilter(ps, nrs, defaultDeny)), 0, 0, 0) == Verdict(act)
    requires var traced := if act.RetTrace? then Traced(m, ps, act.data, data.args) else None;
      forall dflt :: Acted(act, data.args, traced) == Some(RulingOf(m, Some(ps[k].ck), dflt, data.args))
    ensures Observed(m, ps, nrs, defaultDeny, data) == Some(RulingOf(m, Some(ps[k].ck), defaultDeny, data.args))
  {
    hide RunF, ResolvedFilter, Assembled, RulingOf, Traced;
  }

  lemma {:induction false} AtNone(ps: Builts)
    ensures CheckAt(ps, None) == None
  {
  }

  lemma {:induction false} AtSome(ps: Builts, k: nat)
    requires k < |ps|
    ensures CheckAt(ps, Some(k)) == Some(ps[k].ck)
  {
  }

  // ---------- A guard that does not decide ----------

  /** `if (x op n) p;` and nothing behind it. */
  predicate LoneGuard(s: Stmt, op: OpCode, x: string, n: Word, p: Perm) {
    IsCompare(op) && s.If? && s.cond == Binary(op, Ref(x), Value(n)) && s.els.None? &&
      s.thn in {Permit(p), Compound([Permit(p)])}
  }

  function LoneTest(op: OpCode, x: string, n: Word, lab: nat): Inst {
    Branch(op, Mem(x), Imm(n), Fresh(lab + 1), Fresh(lab + 2))
  }

  function LoneCode(op: OpCode, x: string, n: Word, p: Perm, lab: nat): Code {
    [LoneTest(op, x, n, lab)] + ([Mark(Fresh(lab + 1))] + [Return(Decision(p)), Mark(Fresh(lab + 2))])
  }

  lemma {:induction false} LoneRaw(ck: Check, at: Base, op: OpCode, x: string, n: Word, p: Perm)
    requires LoneGuard(ck.body, op, x, n, p)
    ensures RawCode(ck, at) == LoneCode(op, x, n, p, at.labels)
  {
    var cond, lab := Binary(op, Ref(x), Value(n)), at.labels;
    assert CondCode(cond, Fresh(lab + 1), Fresh(lab + 2), lab + 2, at.ids) ==
      Gen([LoneTest(op, x, n, lab)], lab + 2, at.ids);
    hide CondCode;
    assert [Permit(p)][1..] == [];
    assert StmtCode(Permit(p), lab + 2, at.ids) == Gen([Return(Decision(p))], lab + 2, at.ids);
    assert BodyCode([Permit(p)], lab + 2, at.ids).code == [Return(Decision(p))];
    assert StmtCode(ck.body.thn, lab + 2, at.ids).code == [Return(Decision(p))];
    assert RawCode(ck, at) ==
      Joined(Joined([LoneTest(op, x, n, lab)], Fresh(lab + 1), [Return(Decision(p))]), Fresh(lab + 2), []);
  }

  lemma {:induction false} LoneIsTidy(op: OpCode, x: string, n: Word, p: Perm, lab: nat)
    requires IsCompare(op)
    ensures Tidy(LoneCode(op, x, n, p, lab), Inside, {}) && NoEffects(LoneCode(op, x, n, p, lab))
  {
    assert NoEffects(LoneCode(op, x, n, p, lab));
    hide Tidy, NoEffects;
    var t, f := Fresh(lab + 1), Fresh(lab + 2);
    var reach: set<Label> := {} + {t, f};
    NothingIsTidyBehindMark(reach);
    NoTargetSets(reach);
    var ret := Return(Decision(p));
    assert [ret, Mark(f)] == [ret] + ([Mark(f)] + []);
    TidyStep(Mark(f), [], BehindEnd, reach);
    TidyStep(ret, [Mark(f)] + [], BehindMark, reach);
    BranchThenTidy(LoneTest(op, x, n, lab), t, [ret, Mark(f)], Inside, {});
  }

  lemma {:induction false} NothingIsTidyBehindMark(reach: set<Label>)
    ensures Tidy([], BehindMark, reach)
  {
  }

  /** The code of such a check, wherever its labels start. */
  lemma {:induction false} LoneCheckCode(ck: Check, at: Base, op: OpCode, x: string, n: Word, p: Perm)
    requires LoneGuard(ck.body, op, x, n, p)
    ensures CheckCode(ck, at) == LoneCode(op, x, n, p, at.labels) && NoEffects(CheckCode(ck, at))
  {
    LoneCompares(ck.body, op, x, n, p);
    hide *;
    LoneRaw(ck, at, op, x, n, p);
    LoneIsTidy(op, x, n, p, at.labels);
    PassesIdle(LoneCode(op, x, n, p, at.labels));
    FrontIsPassed(ck, at);
  }

  lemma {:induction false} LoneCompares(s: Stmt, op: OpCode, x: string, n: Word, p: Perm)
    requires LoneGuard(s, op, x, n, p)
    ensures IsCompare(op)
  {
  }

  /** It decides as its test is read, or runs off its end with the argument in A. */
  lemma {:induction false} LoneReads(m: Machine, idx: ArgIndex, env: Env, r: Regs, op: OpCode, x: string, n: Word,
                                     p: Perm, lab: nat)
    requires IsCompare(op)
    ensures var v := Lookup(env, x);
      Read(m, idx, LoneCode(op, x, n, p, lab), env, map[], r) ==
      if ReadTest(op, false, v, n) then Settled(Decision(p)) else RunsOn(Regs(v, r.x))
  {
    var v := Lookup(env, x);
    var t, f := Fresh(lab + 1), Fresh(lab + 2);
    var rest := [Return(Decision(p)), Mark(f)];
    var r' := Regs(v, r.x);
    LoneTestReads(m, idx, env, r, op, x, n, lab, [Mark(t)] + rest);
    DecisionIsRead(m, idx, env, r', p, f);
    hide ReadTest, Read, ReadJump;
    assert LoneCode(op, x, n, p, lab) == [LoneTest(op, x, n, lab)] + ([Mark(t)] + rest);
    assert [] + ([Mark(t)] + rest) == [Mark(t)] + rest;
    ReadLands(m, idx, [], rest, t, env, r');
    var before := [Mark(t), Return(Decision(p))];
    assert before + ([Mark(f)] + []) == [Mark(t)] + rest;
    ReadLands(m, idx, before, [], f, env, r');
  }

  lemma {:induction false} LoneTestReads(m: Machine, idx: ArgIndex, env: Env, r: Regs, op: OpCode, x: string, n: Word,
                                         lab: nat, rest: Code)
    requires IsCompare(op)
    ensures var v := Lookup(env, x);
      Read(m, idx, [LoneTest(op, x, n, lab)] + rest, env, map[], r) ==
      ReadJump(m, idx, rest, if ReadTest(op, false, v, n) then Fresh(lab + 1) else Fresh(lab + 2), env, Regs(v, r.x))
  {
    hide ReadTest, ReadJump;
    assert ([LoneTest(op, x, n, lab)] + rest)[1..] == rest;
  }

  lemma {:induction false} DecisionIsRead(m: Machine, idx: ArgIndex, env: Env, r: Regs, p: Perm, f: Label)
    ensures Read(m, idx, [Return(Decision(p)), Mark(f)], env, map[], r) == Settled(Decision(p))
    ensures Read(m, idx, [], env, map[], r) == RunsOn(r)
  {
  }

  lemma {:induction false} LoneSays(m: Machine, s: Stmt, env: Env, op: OpCode, x: string, n: Word, p: Perm)
    requires LoneGuard(s, op, x, n, p)
    ensures Exec(m, s, env) == if Compare(op, Lookup(env, x), n) then Stop(p, env) else Next(env)
  {
    hide Compare;
    assert Exec(m, Permit(p), env) == Stop(p, env);
    assert ExecAll(m, [Permit(p)], env) == Stop(p, env);
    assert Exec(m, Compound([Permit(p)]), env) == Stop(p, env);
    assert Holds(m, s.cond, env) <==> Compare(op, Lookup(env, x), n);
  }

  /** What is known of a check that was built. */
  lemma {:induction false} LoneBuilt(b: Built, op: OpCode, x: string, n: Word, p: Perm)
    requires WellBuilt(b) && LoneGuard(b.ck.body, op, x, n, p)
    ensures b.bs != [] && Ordered(b.bs) && FilterIr(b.bs, b.n) == LoneCode(op, x, n, p, b.at.labels) && Table(b) == []
  {
    hide WellBuilt, LoneGuard, CheckCode, NoEffects, GoodBlocks, FilterIr, LoneCode, TableOf, FilterOf, Coloured,
      Only, BlocksOf;
    BuiltIsCompiled(b);
    CompiledIsGood(b.ck, b.at, b.bs, b.n);
    BuiltBlocks(b);
    LoneCheckCode(b.ck, b.at, op, x, n, p);
    NothingIsTraced(b.ck, b.at, b.bs, b.n);
  }

  // ---------- What becomes of such a check ----------

  /** Whatever its policy says, it is ruled by the check that the argument in A leads to. */
  lemma {:induction false} GuardRunsOn(m: Machine, ps: Builts, nrs: Numbers, defaultDeny: bool, data: Data, k: nat,
                                       op: OpCode, x: string, n: Word, p: Perm)
    requires WellBuiltPolicy(ps) && TracersApart(ps) && Followable(ps, data.args)
    requires m.jumps && NarrowOffsets(ResolvedFilter(ps, nrs, defaultDeny)) && |JmpTable(ps)| <= 0x1_0000
    requires data.arch == T_ARCH && ChosenAt(m, ps, nrs, data) == Some(k) && LoneGuard(ps[k].ck.body, op, x, n, p)
    requires |ps[k].ck.params| <= |data.args|
    requires var v := Lookup(EnvOf(ps[k].ck.params, data.args), x);
      var e := EnteredAt(ps[k + 1..], nrs, v);
      && (op !in {LT, LE} || v != n)
      && (e.Some? && !Compare(op, v, n) ==> MeantAt(m, ps[k + 1..][e.value], data, Regs(v, 0)))
    ensures var v := Lookup(EnvOf(ps[k].ck.params, data.args), x);
      var e := EnteredAt(ps[k + 1..], nrs, v);
      && (e.Some? && !Compare(op, v, n) ==> |ps[k + 1..][e.value].ck.params| <= |data.args|)
      && Observed(m, ps, nrs, defaultDeny, data) == Some(
           if Compare(op, v, n) then Ruling(p, data.args)
           else RulingOf(m, CheckAt(ps[k + 1..], e), defaultDeny, data.args))
  {
    hide *;
    var b := ps[k];
    var env := EnvOf(b.ck.params, data.args);
    var v, r := Lookup(env, x), AtEntry(m, data);
    BuiltAt(ps, data.args, k);
    LoneBuilt(b, op, x, n, p);
    LoneCompares(b.ck.body, op, x, n, p);
    LoneReads(m, ArgIndexOf(b.ck.params), env, r, op, x, n, p, b.at.labels);
    LiteralTestIff(op, v, n);
    StartsWithNumber(m, data);
    if Compare(op, v, n) {
      DecidesAtOnce(m, ps, nrs, defaultDeny, data, k, p);
    } else {
      RunsInto(m, ps, nrs, defaultDeny, data, k, Regs(v, 0));
    }
  }

  lemma {:induction false} BuiltAt(ps: Builts, args: seq<Word>, k: nat)
    requires Followable(ps, args) && k < |ps|
    ensures WellBuilt(ps[k]) && |ps[k].ck.params| <= |args|
  {
    hide WellBuilt;
    assert ps[k] in ps;
  }

  /** A body that returns a decision is ruled by it. */
  lemma {:induction false} DecidesAtOnce(m: Machine, ps: Builts, nrs: Numbers, defaultDeny: bool, data: Data, k: nat,
                                         p: Perm)
    requires WellBuiltPolicy(ps) && Followable(ps, data.args) && NarrowOffsets(ResolvedFilter(ps, nrs, defaultDeny))
    requires data.arch == T_ARCH && ChosenAt(m, ps, nrs, data) == Some(k) && ps[k].bs != [] && Ordered(ps[k].bs)
    requires var b := ps[k];
      && |b.ck.params| <= |data.args|
      && Read(m, ArgIndexOf(b.ck.params), FilterIr(b.bs, b.n), EnvOf(b.ck.params, data.args), map[],
         AtEntry(m, data)) ==
         Settled(Decision(p))
    ensures ps != [] && Observed(m, ps, nrs, defaultDeny, data) == Some(Ruling(p, data.args))
  {
    hide *;
    PolicyHasChecks(ps);
    StartIs(m, data, ps, nrs, defaultDeny);
    FollowableTail(ps, data.args, k);
    Tails(ps, k);
    FollowSettles(m, data, ps[k..], nrs, defaultDeny, AtEntry(m, data), p);
    PolicyReads(m, ps, nrs, defaultDeny, data);
    ObservedDecision(m, ps, nrs, defaultDeny, data, p);
  }

  lemma {:induction false} FollowSettles(m: Machine, data: Data, ps: Builts, nrs: Numbers, defaultDeny: bool, r: Regs,
                                         p: Perm)
    requires ps != [] && Followable(ps, data.args) && ps[0].bs != [] && Ordered(ps[0].bs)
    requires var b := ps[0];
      && |b.ck.params| <= |data.args|
      && Read(m, ArgIndexOf(b.ck.params), FilterIr(b.bs, b.n), EnvOf(b.ck.params, data.args), map[], r) ==
         Settled(Decision(p))
    ensures Follow(m, data, ps, nrs, defaultDeny, r) == Some(Verdict(ReturnAction(Decision(p))))
  {
    hide Read, FilterIr, EnvOf, WellBuilt, ReturnAction;
    assert ps[0] in ps;
  }

  lemma {:induction false} FollowRunsOn(m: Machine, data: Data, ps: Builts, nrs: Numbers, defaultDeny: bool, r: Regs,
                                        r': Regs)
    requires ps != [] && Followable(ps, data.args) && ps[0].bs != [] && Ordered(ps[0].bs)
    requires var b := ps[0];
      && |b.ck.params| <= |data.args|
      && Read(m, ArgIndexOf(b.ck.params), FilterIr(b.bs, b.n), EnvOf(b.ck.params, data.args), map[], r) == RunsOn(r')
    ensures Followable(ps[1..], data.args)
    ensures Follow(m, data, ps, nrs, defaultDeny, r) == FollowFrom(m, data, ps[1..], nrs, defaultDeny, r')
  {
    hide Read, FilterIr, EnvOf, WellBuilt, ReturnAction, FollowFrom;
    assert ps[0] in ps;
  }

  /** What the policy says of a syscall that such a check is found for. */
  lemma {:induction false} IntendedGuard(m: Machine, ps: Builts, nrs: Numbers, defaultDeny: bool, data: Data, k: nat,
                                         op: OpCode, x: string, n: Word, p: Perm)
    requires data.arch == T_ARCH && k < |ps| && LoneGuard(ps[k].ck.body, op, x, n, p)
    requires LookedUp(m, ps, nrs, data) && ChosenAt(m, ps, nrs, data) == Some(k)
    requires forall ck | ck in Checks(ps) :: |ck.params| <= |data.args|
    ensures |ps[k].ck.params| <= |data.args|
    ensures Intended(m, Checks(ps), nrs, defaultDeny, data) ==
      var v := Lookup(EnvOf(ps[k].ck.params, data.args), x);
      Ruling(if Compare(op, v, n) then p else if defaultDeny then Deny else Allow, data.args)
  {
    hide LoneGuard, SyscallNr, EnvOf, Registers, Exec, ChosenAt, Entries, FindEntry, CheckFor, Compare;
    SameChoice(ps, nrs, SyscallNr(m, data));
    assert Checks(ps)[k] == ps[k].ck;
    LoneSays(m, ps[k].ck.body, EnvOf(ps[k].ck.params, data.args), op, x, n, p);
    UnassignedRegisters(ps[k].ck.params, data.args);
  }

  /** One guard that does not decide, in front of any checks: the syscall is ruled as the policy
      says exactly if the guard decides, or what is left in A is the number of no check behind it,
      or the check that has that number says what the default says. */
  lemma {:induction false} UndecidedGuardIff(m: Machine, ps: Builts, nrs: Numbers, defaultDeny: bool, data: Data,
                                             k: nat, op: OpCode, x: string, n: Word, p: Perm)
    requires WellBuiltPolicy(ps) && DistinctNames(ps) && (forall ck | ck in Checks(ps) :: |ck.params| <= |data.args|)
    requires m.jumps && NarrowOffsets(ResolvedFilter(ps, nrs, defaultDeny)) && |JmpTable(ps)| <= 0x1_0000
    requires data.arch == T_ARCH && ChosenAt(m, ps, nrs, data) == Some(k) && LoneGuard(ps[k].ck.body, op, x, n, p)
    requires |ps[k].ck.params| <= |data.args|
    requires var v := Lookup(EnvOf(ps[k].ck.params, data.args), x);
      var e := EnteredAt(ps[k + 1..], nrs, v);
      && (op !in {LT, LE} || v != n)
      && (e.Some? && !Compare(op, v, n) ==> MeantAt(m, ps[k + 1..][e.value], data, Regs(v, 0)))
    ensures forall ck | ck in Checks(ps[k + 1..]) :: |ck.params| <= |data.args|
    ensures var v := Lookup(EnvOf(ps[k].ck.params, data.args), x);
      var next := CheckFor(Checks(ps[k + 1..]), nrs, v);
      var dflt := Ruling(if defaultDeny then Deny else Allow, data.args);
      Observed(m, ps, nrs, defaultDeny, data) == Some(Intended(m, Checks(ps), nrs, defaultDeny, data)) <==>
        Compare(op, v, n) || next.None? || RulingOf(m, next, defaultDeny, data.args) == dflt
  {
    hide *;
    AllFollowable(ps, data.args);
    NamesApart(ps, Base(0, 0), 0);
    NamesAreLookedUp(m, ps, nrs, data);
    GuardRunsOn(m, ps, nrs, defaultDeny, data, k, op, x, n, p);
    IntendedGuard(m, ps, nrs, defaultDeny, data, k, op, x, n, p);
    ChecksOfTail(ps, k + 1, data.args);
    EnteredIsFound(ps[k + 1..], nrs, Lookup(EnvOf(ps[k].ck.params, data.args), x)) by { TailDistinct(ps, k + 1); }
    AbsentRules(m, defaultDeny, data.args);
  }

  lemma {:induction false} AbsentRules(m: Machine, defaultDeny: bool, args: seq<Word>)
    ensures RulingOf(m, None, defaultDeny, args) == Ruling(if defaultDeny then Deny else Allow, args)
  {
  }

  lemma {:induction false} AllFollowable(ps: Builts, args: seq<Word>)
    requires WellBuiltPolicy(ps) && forall ck | ck in Checks(ps) :: |ck.params| <= |args|
    ensures ps != [] && InSequence(ps, Base(0, 0), 0) && Followable(ps, args)
  {
    hide WellBuilt, InSequence;
    forall b | b in ps
      ensures WellBuilt(b) && |b.ck.params| <= |args|
    {
      var k: nat :| k < |ps| && ps[k] == b;
      Later(ps, Base(0, 0), 0, k);
      assert Checks(ps)[k] == b.ck;
    }
  }

  lemma {:induction false} ChecksOfTail(ps: Builts, k: nat, args: seq<Word>)
    requires k <= |ps| && forall ck | ck in Checks(ps) :: |ck.params| <= |args|
    ensures forall ck | ck in Checks(ps[k..]) :: |ck.params| <= |args|
  {
    forall ck | ck in Checks(ps[k..])
      ensures |ck.params| <= |args|
    {
      var i: nat :| i < |ps[k..]| && Checks(ps[k..])[i] == ck;
      assert Checks(ps)[k + i] == ck;
    }
  }

  lemma {:induction false} TailDistinct(ps: Builts, k: nat)
    requires DistinctNames(ps) && k <= |ps|
    ensures DistinctNames(ps[k..])
  {
  }

  /** With different names the check entered is the one with the number. */
  lemma {:induction false} EnteredIsFound(ps: Builts, nrs: Numbers, nr: Word)
    requires DistinctNames(ps)
    ensures CheckAt(ps, EnteredAt(ps, nrs, nr)) == CheckFor(Checks(ps), nrs, nr)
  {
    hide Entries, FindEntry, DifferentEntries, CheckFor, Checks, Entered;
    EntriesDiffer(ps, nrs);
    DispatchedIsFound(Entries(ps, nrs), nr);
    SameChoice(ps, nrs, nr);
  }
}
