/** Policies of two checks of which the first does not decide on every path: the filter runs on into
    the test of the second, with an argument in place of the number. */
module FirstExample {
  import opened Syntax
  import opened Ir
  import opened Bpf
  import opened BpfGen
  import opened Reading
  import opened Misread
  import opened Colour
  import opened Resolve
  import opened Dispatch
  import opened Check
  import opened Declared
  import opened Policy
  import opened PolicyRun
  import opened Short
  import opened Compile
  import opened Undecided
  import opened Simple

  // ---------- Two checks ----------

  /** `def a(...): if (x op n) p; def b(...): q;`, compiled. */
  ghost predicate Pair(ps: Builts, a: Check, b: Check, op: OpCode, x: string, n: Word, p: Perm, q: Perm) {
    && WellBuiltPolicy(ps) && Checks(ps) == [a, b] && a.name != b.name
    && LoneGuard(a.body, op, x, n, p) && b.body == Permit(q)
  }

  /** What is known of it. */
  ghost predicate PairBuilt(ps: Builts, a: Check, b: Check, op: OpCode, x: string, n: Word, p: Perm, q: Perm) {
    && |ps| == 2 && WellBuilt(ps[0]) && WellBuilt(ps[1]) && ps[0].ck == a && ps[1].ck == b
    && (forall k | 0 <= k < 2 :: ps[k].bs != [] && Ordered(ps[k].bs))
    && FilterIr(ps[0].bs, ps[0].n) == LoneCode(op, x, n, p, ps[0].at.labels) && IsCompare(op)
    && FilterIr(ps[1].bs, ps[1].n) == [Return(Decision(q))]
  }

  lemma {:induction false} PairIsBuilt(ps: Builts, a: Check, b: Check, op: OpCode, x: string, n: Word, p: Perm, q: Perm)
    requires Pair(ps, a, b, op, x, n, p, q)
    ensures PairBuilt(ps, a, b, op, x, n, p, q) && DistinctNames(ps) && ShortPolicy([a, b])
  {
    hide WellBuilt, FilterIr, Ordered, BaseAfter, Table, LoneGuard, LoneCode, LinesOfAll;
    var cks := Checks(ps);
    assert cks[0] == ps[0].ck && cks[1] == ps[1].ck && |ps| == 2;
    hide Checks;
    Later(ps, Base(0, 0), 0, 0);
    Later(ps, Base(0, 0), 0, 1);
    LoneBuilt(ps[0], op, x, n, p);
    LoneCompares(a.body, op, x, n, p);
    PermitBuilt(ps[1], q);
    PairIsShort(a, b, op, x, n, p, q);
  }

  lemma {:induction false} PairIsShort(a: Check, b: Check, op: OpCode, x: string, n: Word, p: Perm, q: Perm)
    requires LoneGuard(a.body, op, x, n, p) && b.body == Permit(q)
    ensures ShortPolicy([a, b])
  {
    assert [Permit(p)][1..] == [] && BodyLength([Permit(p)]) == 1;
    assert StmtLength(a.body.thn) == 1;
    assert CondLength(a.body.cond) == 1;
    assert LinesOf(a) == 50 && LinesOf(b) == 20;
    assert [a, b][1..] == [b] && [b][1..] == [];
    assert LinesOfAll([b]) == 22;
  }

  function VerdictOf(p: Perm): Verdict {
    Verdict(if p.Allow? then RetAllow else RetKill)
  }

  function Default(defaultDeny: bool): Perm {
    if defaultDeny then Deny else Allow
  }

  /** The second check, whatever number it is entered with. */
  lemma {:induction false} SecondFollows(m: Machine, data: Data, ps: Builts, nrs: Numbers, defaultDeny: bool, r: Regs,
                                         a: Check, b: Check, op: OpCode, x: string, n: Word, p: Perm, q: Perm)
    requires PairBuilt(ps, a, b, op, x, n, p, q) && |b.params| <= |data.args|
    ensures Followable(ps[1..], data.args)
    ensures Follow(m, data, ps[1..], nrs, defaultDeny, r) == Some(VerdictOf(q))
    ensures FollowFrom(m, data, ps[1..], nrs, defaultDeny, r) ==
      Some(VerdictOf(if r.a == NumberOf(nrs, b.name) then q else Default(defaultDeny)))
  {
    hide WellBuilt, FilterIr, LoneCode, Ordered, NumberOf, Follow, FilterOf;
    var rest := ps[1..];
    assert rest == [ps[1]] && rest[0..] == rest;
    DecisionReads(m, ArgIndexOf(b.params), EnvOf(b.params, data.args), r, q);
    FollowSettles(m, data, rest, nrs, defaultDeny, r, q);
    FromIs(m, data, rest, nrs, defaultDeny, r);
    EntryIs(ps[1], nrs);
    var es := Entries(rest, nrs);
    assert |es| == 1 && es[0].nr == NumberOf(nrs, b.name);
    hide Entries;
    assert es[1..] == [];
  }

  lemma {:induction false} DecisionReads(m: Machine, idx: ArgIndex, env: Env, r: Regs, q: Perm)
    ensures Read(m, idx, [Return(Decision(q))], env, map[], r) == Settled(Decision(q))
    ensures Verdict(ReturnAction(Decision(q))) == VerdictOf(q)
  {
  }

  /** The first one: without a decision it runs on with the argument for the number. */
  lemma {:induction false} FirstFollows(m: Machine, data: Data, ps: Builts, nrs: Numbers, defaultDeny: bool, r: Regs,
                                        a: Check, b: Check, op: OpCode, x: string, n: Word, p: Perm, q: Perm)
    requires PairBuilt(ps, a, b, op, x, n, p, q) && |a.params| <= |data.args| && |b.params| <= |data.args|
    requires op !in {LT, LE} || Lookup(EnvOf(a.params, data.args), x) != n
    ensures Followable(ps, data.args)
    ensures var v := Lookup(EnvOf(a.params, data.args), x);
      Follow(m, data, ps, nrs, defaultDeny, r) ==
        Some(VerdictOf(if Compare(op, v, n) then p else if v == NumberOf(nrs, b.name) then q else Default(defaultDeny)))
  {
    hide *;
    var env := EnvOf(a.params, data.args);
    var v := Lookup(env, x);
    BuiltParts(ps, data.args, a, b, op, x, n, p, q);
    LoneReads(m, ArgIndexOf(a.params), env, r, op, x, n, p, ps[0].at.labels);
    LiteralTestIff(op, v, n);
    DecisionReads(m, ArgIndexOf(a.params), env, r, p);
    if Compare(op, v, n) {
      FollowSettles(m, data, ps, nrs, defaultDeny, r, p);
    } else {
      FollowRunsOn(m, data, ps, nrs, defaultDeny, r, Regs(v, r.x));
      SecondFollows(m, data, ps, nrs, defaultDeny, Regs(v, r.x), a, b, op, x, n, p, q);
    }
  }

  lemma {:induction false} BuiltParts(ps: Builts, args: seq<Word>, a: Check, b: Check, op: OpCode, x: string, n: Word,
                                      p: Perm, q: Perm)
    requires PairBuilt(ps, a, b, op, x, n, p, q) && |a.params| <= |args| && |b.params| <= |args|
    ensures |ps| == 2 && ps[0].ck == a && ps[0].bs != [] && Ordered(ps[0].bs) && Followable(ps, args) && IsCompare(op)
    ensures FilterIr(ps[0].bs, ps[0].n) == LoneCode(op, x, n, p, ps[0].at.labels)
  {
    hide WellBuilt, FilterIr, LoneCode, Ordered;
  }

  /** The decision, by the number. */
  function PairRuling(m: Machine, nrs: Numbers, defaultDeny: bool, data: Data, a: Check, b: Check, first: Perm,
                      q: Perm): Perm {
    if data.arch != T_ARCH then Deny
    else if SyscallNr(m, data) == NumberOf(nrs, a.name) then first
    else if SyscallNr(m, data) == NumberOf(nrs, b.name) then q
    else Default(defaultDeny)
  }

  /** Every syscall under such a policy: where the guard does not decide, the second check is
      asked, under the argument as the number. */
  lemma {:induction false} PairRules(m: Machine, ps: Builts, nrs: Numbers, defaultDeny: bool, data: Data,
                                     a: Check, b: Check, op: OpCode, x: string, n: Word, p: Perm, q: Perm)
    requires Pair(ps, a, b, op, x, n, p, q) && |a.params| <= |data.args| && |b.params| <= |data.args|
    requires op !in {LT, LE} || Lookup(EnvOf(a.params, data.args), x) != n
    ensures ps != []
    ensures var v := Lookup(EnvOf(a.params, data.args), x);
      var first := if Compare(op, v, n) then p else if v == NumberOf(nrs, b.name) then q else Default(defaultDeny);
      Observed(m, ps, nrs, defaultDeny, data) ==
        Some(Ruling(PairRuling(m, nrs, defaultDeny, data, a, b, first, q), data.args))
  {
    hide *;
    PairIsBuilt(ps, a, b, op, x, n, p, q);
    PairParts(ps, a, b, op, x, n, p, q);
    ShortFits(ps, nrs, defaultDeny);
    FirstFollows(m, data, ps, nrs, defaultDeny, AtEntry(m, data), a, b, op, x, n, p, q);
    SecondFollows(m, data, ps, nrs, defaultDeny, AtEntry(m, data), a, b, op, x, n, p, q);
    PolicyReads(m, ps, nrs, defaultDeny, data);
    StartIs(m, data, ps, nrs, defaultDeny);
    PairIsChosen(m, ps, nrs, data);
    var v := Lookup(EnvOf(a.params, data.args), x);
    var first := if Compare(op, v, n) then p else if v == NumberOf(nrs, b.name) then q else Default(defaultDeny);
    var d := PairRuling(m, nrs, defaultDeny, data, a, b, first, q);
    RulingCases(m, nrs, defaultDeny, data, a, b, first, q);
    ObservedVerdict(m, ps, nrs, defaultDeny, data, d);
  }

  lemma {:induction false} PairParts(ps: Builts, a: Check, b: Check, op: OpCode, x: string, n: Word, p: Perm, q: Perm)
    requires Pair(ps, a, b, op, x, n, p, q) && PairBuilt(ps, a, b, op, x, n, p, q)
    ensures WellBuiltPolicy(ps) && Checks(ps) == [a, b] && |ps| == 2 && ps[0].ck == a && ps[1].ck == b && ps[0..] == ps
  {
  }

  lemma {:induction false} PairIsChosen(m: Machine, ps: Builts, nrs: Numbers, data: Data)
    requires DistinctNames(ps) && |ps| == 2
    ensures var nr := SyscallNr(m, data);
      ChosenAt(m, ps, nrs, data) ==
        if nr == NumberOf(nrs, ps[0].ck.name) then Some(0) else if nr == NumberOf(nrs, ps[1].ck.name) then Some(1)
          else None
  {
    hide SyscallNr, NumberOf, FilterOf, ChosenAt;
    NamesAreLookedUp(m, ps, nrs, data);
    var es := Entries(ps, nrs);
    assert |es| == 2 && es[0].nr == NumberOf(nrs, ps[0].ck.name) && es[1].nr == NumberOf(nrs, ps[1].ck.name);
    hide Entries;
    assert es[1..][1..] == [];
  }

  lemma {:induction false} RulingCases(m: Machine, nrs: Numbers, defaultDeny: bool, data: Data, a: Check, b: Check,
                                       first: Perm, q: Perm)
    ensures var d := PairRuling(m, nrs, defaultDeny, data, a, b, first, q);
      var nr := SyscallNr(m, data);
      && (data.arch != T_ARCH ==> d == Deny)
      && (data.arch == T_ARCH ==>
            d == if nr == NumberOf(nrs, a.name) then first else if nr == NumberOf(nrs, b.name) then q
              else Default(defaultDeny))
    ensures VerdictOf(Deny) == Verdict(RetKill)
    ensures VerdictOf(Default(defaultDeny)) == Verdict(if defaultDeny then RetKill else RetAllow)
  {
    hide SyscallNr, NumberOf;
  }

  lemma {:induction false} ObservedVerdict(m: Machine, ps: Builts, nrs: Numbers, defaultDeny: bool, data: Data, p: Perm)
    requires ps != [] && RunF(m, data, Assembled(ResolvedFilter(ps, nrs, defaultDeny)), 0, 0, 0) == VerdictOf(p)
    ensures Observed(m, ps, nrs, defaultDeny, data) == Some(Ruling(p, data.args))
  {
    hide RunF, ResolvedFilter, Assembled;
  }

  /** What such a policy says. */
  lemma {:induction false} PairSays(m: Machine, nrs: Numbers, defaultDeny: bool, data: Data,
                                    a: Check, b: Check, op: OpCode, x: string, n: Word, p: Perm, q: Perm)
    requires LoneGuard(a.body, op, x, n, p) && b.body == Permit(q) && |a.params| <= |data.args|
    requires |b.params| <= |data.args|
    ensures forall ck | ck in [a, b] :: |ck.params| <= |data.args|
    ensures var first := if Compare(op, Lookup(EnvOf(a.params, data.args), x), n) then p else Default(defaultDeny);
      Intended(m, [a, b], nrs, defaultDeny, data) ==
        Ruling(PairRuling(m, nrs, defaultDeny, data, a, b, first, q), data.args)
  {
    hide EnvOf, Registers, SyscallNr, NumberOf, LoneGuard, Compare;
    assert [a, b][1..] == [b] && [b][1..] == [];
    assert CheckFor([b], nrs, SyscallNr(m, data)) == if SyscallNr(m, data) == NumberOf(nrs, b.name) then Some(b)
      else None;
    UnassignedRegisters(a.params, data.args);
    UnassignedRegisters(b.params, data.args);
    LoneSays(m, a.body, EnvOf(a.params, data.args), op, x, n, p);
  }

  // ---------- The first policy of the README ----------

  /** `def open(x, y, z): if (x > 0) { allow; }` */
  const OPEN_IF_POSITIVE: Check :=
    Check("open", ["x", "y", "z"], If(Binary(GT, Ref("x"), Value(0)), Compound([Permit(Allow)]), None), {})

  /** `def close(y): deny;` */
  const NEVER_CLOSE: Check := Check("close", ["y"], Permit(Deny), {})

  const FIRST_POLICY: seq<Check> := [OPEN_IF_POSITIVE, NEVER_CLOSE]

  /** `deny all;` with these two checks is ruled as it says on every syscall, although the first one
      runs on: what it runs into, under whatever number, denies as well. */
  lemma {:induction false} FirstExampleRules(m: Machine, ps: Builts, nrs: Numbers, data: Data)
    requires WellBuiltPolicy(ps) && Checks(ps) == FIRST_POLICY && |data.args| >= 3
    ensures ps != [] && forall ck | ck in FIRST_POLICY :: |ck.params| <= |data.args|
    ensures Observed(m, ps, nrs, true, data) == Some(Intended(m, FIRST_POLICY, nrs, true, data))
  {
    var a, b := OPEN_IF_POSITIVE, NEVER_CLOSE;
    assert LoneGuard(a.body, GT, "x", 0, Allow) && b.body == Permit(Deny) && |a.params| == 3 && |b.params| == 1;
    hide WellBuiltPolicy, Observed, Intended, LoneGuard, EnvOf, OPEN_IF_POSITIVE, NEVER_CLOSE;
    PairRules(m, ps, nrs, true, data, a, b, GT, "x", 0, Allow, Deny);
    PairSays(m, nrs, true, data, a, b, GT, "x", 0, Allow, Deny);
  }

  /** It compiles. */
  method CompileFirst(nrs: Numbers, defaultDeny: bool) returns (out: Output, ghost ps: Builts)
    requires "open" in nrs && "close" in nrs
    ensures WellBuiltPolicy(ps) && Checks(ps) == FIRST_POLICY && ps != [] && Outputs(out, ps, nrs, defaultDeny)
  {
    assert LoneGuard(OPEN_IF_POSITIVE.body, GT, "x", 0, Allow);
    GuardIsSimple(OPEN_IF_POSITIVE.body, GT, "x", 0, Allow);
    hide SimpleBody, WellBuiltPolicy, Outputs, LoneGuard;
    out, ps := CompileSimple(FIRST_POLICY, nrs, defaultDeny);
  }

  // ---------- Policies that are ruled wrongly ----------

  /** `def open(x): if (x == 5) deny;` */
  const OPEN_UNLESS_FIVE: Check := Check("open", ["x"], If(Binary(EQ, Ref("x"), Value(5)), Permit(Deny), None), {})

  const CLOSED_POLICY: seq<Check> := [OPEN_UNLESS_FIVE, NEVER_CLOSE]

  /** `allow all;` with these two: an `open` whose argument happens to be the number of `close` is
      denied by the check of `close`. */
  lemma {:induction false} OpenIsClosed(m: Machine, ps: Builts, nrs: Numbers, data: Data)
    requires WellBuiltPolicy(ps) && Checks(ps) == CLOSED_POLICY && |data.args| >= 1
    requires data.arch == T_ARCH && SyscallNr(m, data) == NumberOf(nrs, "open") && data.args[0] != 5
    ensures ps != [] && forall ck | ck in CLOSED_POLICY :: |ck.params| <= |data.args|
    ensures Intended(m, CLOSED_POLICY, nrs, false, data) == Ruling(Allow, data.args)
    ensures Observed(m, ps, nrs, false, data) ==
      Some(Ruling(if data.args[0] == NumberOf(nrs, "close") then Deny else Allow, data.args))
  {
    var a, b := OPEN_UNLESS_FIVE, NEVER_CLOSE;
    assert LoneGuard(a.body, EQ, "x", 5, Deny) && b.body == Permit(Deny) && a.params == ["x"] && |b.params| == 1;
    FirstArgument(data.args);
    hide WellBuiltPolicy, Observed, Intended, LoneGuard, EnvOf, SyscallNr, NumberOf;
    PairRules(m, ps, nrs, false, data, a, b, EQ, "x", 5, Deny, Deny);
    PairSays(m, nrs, false, data, a, b, EQ, "x", 5, Deny, Deny);
  }

  lemma {:induction false} FirstArgument(args: seq<Word>)
    requires |args| >= 1
    ensures Lookup(EnvOf(["x"], args), "x") == args[0]
  {
    assert ["x"][0] == "x";
  }

  method CompileClosed(nrs: Numbers, defaultDeny: bool) returns (out: Output, ghost ps: Builts)
    requires "open" in nrs && "close" in nrs
    ensures WellBuiltPolicy(ps) && Checks(ps) == CLOSED_POLICY && ps != [] && Outputs(out, ps, nrs, defaultDeny)
  {
    assert LoneGuard(OPEN_UNLESS_FIVE.body, EQ, "x", 5, Deny);
    GuardIsSimple(OPEN_UNLESS_FIVE.body, EQ, "x", 5, Deny);
    hide SimpleBody, WellBuiltPolicy, Outputs, LoneGuard;
    out, ps := CompileSimple(CLOSED_POLICY, nrs, defaultDeny);
  }

  /** `def read(x): allow;` */
  const ALWAYS_READ: Check := Check("read", ["x"], Permit(Allow), {})

  const READ_POLICY: seq<Check> := [OPEN_IF_POSITIVE, ALWAYS_READ]

  /** `deny all;` with the `open` of the README in front of a `read`, whose number is zero: an `open`
      that the policy denies, with zero for `x`, is allowed by the check of `read`. */
  lemma {:induction false} ZeroIsRead(m: Machine, ps: Builts, nrs: Numbers, data: Data)
    requires WellBuiltPolicy(ps) && Checks(ps) == READ_POLICY && |data.args| >= 3 && NumberOf(nrs, "read") == 0
    requires data.arch == T_ARCH && SyscallNr(m, data) == NumberOf(nrs, "open") && data.args[0] == 0
    ensures ps != [] && forall ck | ck in READ_POLICY :: |ck.params| <= |data.args|
    ensures Intended(m, READ_POLICY, nrs, true, data) == Ruling(Deny, data.args)
    ensures Observed(m, ps, nrs, true, data) == Some(Ruling(Allow, data.args))
  {
    var a, b := OPEN_IF_POSITIVE, ALWAYS_READ;
    ReadParts(data.args);
    hide *;
    PairRules(m, ps, nrs, true, data, a, b, GT, "x", 0, Allow, Allow);
    PairSays(m, nrs, true, data, a, b, GT, "x", 0, Allow, Allow);
    RulingCases(m, nrs, true, data, a, b, Allow, Allow);
    RulingCases(m, nrs, true, data, a, b, Deny, Allow);
    GreaterThanZero();
  }

  lemma {:induction false} GreaterThanZero()
    ensures !Compare(GT, 0, 0) && Default(true) == Deny
  {
  }

  lemma {:induction false} ReadParts(args: seq<Word>)
    requires |args| >= 3
    ensures var a, b := OPEN_IF_POSITIVE, ALWAYS_READ;
      && LoneGuard(a.body, GT, "x", 0, Allow) && b.body == Permit(Allow) && |a.params| == 3 && |b.params| == 1
      && READ_POLICY == [a, b] && a.name == "open" && b.name == "read" && Lookup(EnvOf(a.params, args), "x") == args[0]
      && forall ps: Builts | WellBuiltPolicy(ps) && Checks(ps) == READ_POLICY ::
         Pair(ps, a, b, GT, "x", 0, Allow, Allow)
  {
    hide WellBuiltPolicy, EnvOf;
    FirstOfThree(args);
  }

  lemma {:induction false} FirstOfThree(args: seq<Word>)
    requires |args| >= 3
    ensures Lookup(EnvOf(OPEN_IF_POSITIVE.params, args), "x") == args[0]
  {
    var params := ["x", "y", "z"];
    assert params == OPEN_IF_POSITIVE.params;
    assert params[..2] == ["x", "y"] && params[..2][..1] == ["x"] && params[..2][..1][..0] == [];
    assert ArgIndexOf(params)["x"] == 0;
  }

  method CompileRead(nrs: Numbers, defaultDeny: bool) returns (out: Output, ghost ps: Builts)
    requires "open" in nrs && "read" in nrs
    ensures WellBuiltPolicy(ps) && Checks(ps) == READ_POLICY && ps != [] && Outputs(out, ps, nrs, defaultDeny)
  {
    assert LoneGuard(OPEN_IF_POSITIVE.body, GT, "x", 0, Allow);
    GuardIsSimple(OPEN_IF_POSITIVE.body, GT, "x", 0, Allow);
    hide SimpleBody, WellBuiltPolicy, Outputs, LoneGuard;
    out, ps := CompileSimple(READ_POLICY, nrs, defaultDeny);
  }
}
