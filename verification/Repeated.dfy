/** Policies in which a name is repeated: what stands between the two checks is not reached. */
module Repeated {
  import opened Syntax
  import opened Bpf
  import opened Resolve
  import opened Dispatch
  import opened Check
  import opened Policy
  import opened PolicyRun
  import opened Short
  import opened Compile
  import opened Undecided
  import opened Simple

  // ---------- Every syscall is looked up exactly if no name is repeated ----------

  /** Syscalls have one number each, and it is a small one. */
  ghost predicate Numbered(ps: Builts, nrs: Numbers) {
    && (forall b | b in ps :: NumberOf(nrs, b.ck.name) <= UPPER_NR_LIMIT)
    && forall i, j | 0 <= i < j < |ps| :: NumberOf(nrs, ps[i].ck.name) == NumberOf(nrs, ps[j].ck.name) <==>
       ps[i].ck.name == ps[j].ck.name
  }

  lemma {:induction false} EntriesNumbered(ps: Builts, nrs: Numbers)
    requires Numbered(ps, nrs)
    ensures OneNumberEach(Entries(ps, nrs)) && forall e | e in Entries(ps, nrs) :: e.nr <= UPPER_NR_LIMIT
  {
    hide NumberOf, FilterOf;
    var es := Entries(ps, nrs);
    assert forall k | 0 <= k < |ps| ::
      es[k].nr == NumberOf(nrs, ps[k].ck.name) && es[k].name == ps[k].ck.name && ps[k] in ps;
    hide Entries, EntryOf;
  }

  /** The number of every syscall leads to the check that is found for it exactly if no name is
      repeated. */
  lemma {:induction false} LookedUpIff(m: Machine, ps: Builts, nrs: Numbers)
    requires Numbered(ps, nrs)
    ensures DistinctNames(ps) <==> forall data :: LookedUp(m, ps, nrs, data)
  {
    hide *;
    if DistinctNames(ps) {
      forall data
        ensures LookedUp(m, ps, nrs, data)
      {
        NamesAreLookedUp(m, ps, nrs, data);
      }
    } else {
      var data := SomeIsNot(m, ps, nrs);
    }
  }

  lemma {:induction false} SomeIsNot(m: Machine, ps: Builts, nrs: Numbers) returns (data: Data)
    requires Numbered(ps, nrs) && !DistinctNames(ps)
    ensures !LookedUp(m, ps, nrs, data)
  {
    hide *;
    var es := Entries(ps, nrs);
    EntriesNumbered(ps, nrs);
    EntriesDiffer(ps, nrs);
    var nr := RepeatMisses(es);
    DispatchedOrLooked(es, nr);
    data := Data(nr, T_ARCH, []);
    SmallIsDispatched(m, data, es);
    ChosenIsSuffix(m, data, es);
    LookedIs(es, nr);
    ChosenIs(m, ps, nrs, data);
  }

  lemma {:induction false} SmallIsDispatched(m: Machine, data: Data, es: seq<Entry>)
    requires data.nr <= UPPER_NR_LIMIT
    ensures SyscallNr(m, data) == data.nr && Chosen(m, data, es) == Dispatched(es, data.nr)
  {
    hide Dispatched;
  }

  lemma {:induction false} LookedIs(es: seq<Entry>, nr: Word)
    ensures var k := FindEntry(es, nr); Looked(es, nr) == if k.Some? then es[k.value..] else []
  {
    hide FindEntry;
  }

  lemma {:induction false} ChosenIs(m: Machine, ps: Builts, nrs: Numbers, data: Data)
    ensures var s := Chosen(m, data, Entries(ps, nrs));
      && |s| <= |ps| == |Entries(ps, nrs)| && ChosenAt(m, ps, nrs, data) == if s == [] then None else Some(|ps| - |s|)
    ensures LookedUp(m, ps, nrs, data) <==>
      ChosenAt(m, ps, nrs, data) == FindEntry(Entries(ps, nrs), SyscallNr(m, data))
  {
    hide Chosen, FindEntry, SyscallNr, EntryOf;
    ChosenIsSuffix(m, data, Entries(ps, nrs));
  }

  // ---------- What stands between two checks of one name ----------

  /** Check `k` stands between two checks of the first name, and its number is that of none
      behind it. */
  ghost predicate Between(ps: Builts, nrs: Numbers, k: nat, j: nat) {
    && k < j < |ps| && ps[j].ck.name == ps[0].ck.name
    && forall i | j <= i < |ps| :: NumberOf(nrs, ps[i].ck.name) != NumberOf(nrs, ps[k].ck.name)
  }

  lemma {:induction false} BetweenIsNotChosen(m: Machine, ps: Builts, nrs: Numbers, data: Data, k: nat, j: nat)
    requires Between(ps, nrs, k, j) && data.nr <= UPPER_NR_LIMIT && data.nr == NumberOf(nrs, ps[k].ck.name)
    ensures ChosenAt(m, ps, nrs, data) == None && CheckFor(Checks(ps), nrs, SyscallNr(m, data)).Some?
  {
    hide NumberOf, FilterOf, ChosenAt, SyscallNr, Dispatched, FindEntry, CheckFor, Checks, Chosen;
    var es := Entries(ps, nrs);
    assert forall i | 0 <= i < |ps| :: es[i].nr == NumberOf(nrs, ps[i].ck.name) && es[i].name == ps[i].ck.name;
    hide Entries, EntryOf;
    BetweenIsMissed(es, k, j);
    SmallIsDispatched(m, data, es);
    ChosenIs(m, ps, nrs, data);
    SameChoice(ps, nrs, data.nr);
  }

  /** Such a check is never asked: its syscall gets the default, so it is ruled as the policy says
      exactly if the check says what the default says. */
  lemma {:induction false} BetweenIsRuledIff(m: Machine, ps: Builts, nrs: Numbers, defaultDeny: bool, data: Data,
                                             k: nat, j: nat)
    requires WellBuiltPolicy(ps) && NarrowOffsets(ResolvedFilter(ps, nrs, defaultDeny))
    requires forall ck | ck in Checks(ps) :: |ck.params| <= |data.args|
    requires Between(ps, nrs, k, j) && data.arch == T_ARCH && data.nr <= UPPER_NR_LIMIT
    requires data.nr == NumberOf(nrs, ps[k].ck.name)
    ensures var dflt := Ruling(if defaultDeny then Deny else Allow, data.args);
      && Observed(m, ps, nrs, defaultDeny, data) == Some(dflt)
      && (Observed(m, ps, nrs, defaultDeny, data) == Some(Intended(m, Checks(ps), nrs, defaultDeny, data)) <==>
            RulingOf(m, CheckFor(Checks(ps), nrs, data.nr), defaultDeny, data.args) == dflt)
  {
    hide *;
    BetweenIsNotChosen(m, ps, nrs, data, k, j);
    SmallIsDispatched(m, data, []);
    AllFollowable(ps, data.args);
    StartIs(m, data, ps, nrs, defaultDeny);
    PolicyReads(m, ps, nrs, defaultDeny, data);
    DefaultRules(m, ps, nrs, defaultDeny, data);
    AbsentRules(m, defaultDeny, data.args);
    IntendedIs(m, Checks(ps), nrs, defaultDeny, data);
  }

  lemma {:induction false} IntendedIs(m: Machine, cks: seq<Check>, nrs: Numbers, defaultDeny: bool, data: Data)
    requires data.arch == T_ARCH && forall ck | ck in cks :: |ck.params| <= |data.args|
    ensures Intended(m, cks, nrs, defaultDeny, data) ==
      RulingOf(m, CheckFor(cks, nrs, SyscallNr(m, data)), defaultDeny, data.args)
  {
    hide SyscallNr, CheckFor, RulingOf;
  }

  // ---------- A policy that is ruled wrongly ----------

  /** `def socket(domain, type, protocol): allow;` */
  const SOCKET: Check := Check("socket", ["domain", "type", "protocol"], Permit(Allow), {})

  /** `def connect(sockfd, addr, addrlen): deny;` */
  const CONNECT: Check := Check("connect", ["sockfd", "addr", "addrlen"], Permit(Deny), {})

  const REPEATED_POLICY: seq<Check> := [SOCKET, CONNECT, SOCKET]

  /** Under `allow all;` a `connect` between two checks of `socket` goes ahead although its own
      check denies it. */
  lemma {:induction false} ConnectIsAllowed(m: Machine, ps: Builts, nrs: Numbers, data: Data)
    requires WellBuiltPolicy(ps) && Checks(ps) == REPEATED_POLICY && |data.args| >= 3
    requires NumberOf(nrs, "socket") != NumberOf(nrs, "connect") <= UPPER_NR_LIMIT
    requires data.arch == T_ARCH && data.nr == NumberOf(nrs, "connect")
    ensures ps != [] && forall ck | ck in REPEATED_POLICY :: |ck.params| <= |data.args|
    ensures Intended(m, REPEATED_POLICY, nrs, false, data) == Ruling(Deny, data.args)
    ensures Observed(m, ps, nrs, false, data) == Some(Ruling(Allow, data.args))
  {
    var cks := REPEATED_POLICY;
    assert |SOCKET.params| == 3 && |CONNECT.params| == 3;
    RepeatedParts(ps, nrs);
    SmallIsDispatched(m, data, []);
    hide WellBuiltPolicy, ResolvedFilter, NarrowOffsets, Observed, NumberOf, SyscallNr, Checks, JmpTable, ShortPolicy,
      RulingOf, Intended;
    ShortFits(ps, nrs, false);
    BetweenIsRuledIff(m, ps, nrs, false, data, 1, 2);
    IntendedIs(m, cks, nrs, false, data);
    ConnectSays(m, nrs, data.nr, data.args);
  }

  lemma {:induction false} RepeatedParts(ps: Builts, nrs: Numbers)
    requires Checks(ps) == REPEATED_POLICY && NumberOf(nrs, "socket") != NumberOf(nrs, "connect")
    ensures Between(ps, nrs, 1, 2) && ps[1].ck == CONNECT && ShortPolicy(REPEATED_POLICY)
  {
    hide NumberOf;
    var cks := Checks(ps);
    assert cks[0] == ps[0].ck && cks[1] == ps[1].ck && cks[2] == ps[2].ck && |ps| == 3;
    hide Checks;
    assert cks[1..][1..][1..] == [];
    assert LinesOf(SOCKET) == 20 && LinesOf(CONNECT) == 20 && cks[1..][0] == CONNECT && cks[1..][1..][0] == SOCKET;
    assert LinesOfAll(cks[1..][1..]) == 22 && LinesOfAll(cks[1..]) == 44;
  }

  lemma {:induction false} ConnectSays(m: Machine, nrs: Numbers, nr: Word, args: seq<Word>)
    requires |args| >= 3 && nr == NumberOf(nrs, "connect") != NumberOf(nrs, "socket")
    ensures CheckFor(REPEATED_POLICY, nrs, nr) == Some(CONNECT) && |CONNECT.params| == 3
    ensures RulingOf(m, Some(CONNECT), false, args) == Ruling(Deny, args)
  {
    hide NumberOf, Registers, EnvOf;
    assert REPEATED_POLICY[1..][0] == CONNECT;
    UnassignedRegisters(CONNECT.params, args);
    assert Exec(m, CONNECT.body, EnvOf(CONNECT.params, args)) == Stop(Deny, EnvOf(CONNECT.params, args));
  }

  /** It compiles: names are not looked at. */
  method CompileRepeated(nrs: Numbers, defaultDeny: bool) returns (out: Output, ghost ps: Builts)
    requires "socket" in nrs && "connect" in nrs
    ensures WellBuiltPolicy(ps) && Checks(ps) == REPEATED_POLICY && ps != [] && Outputs(out, ps, nrs, defaultDeny)
  {
    hide WellBuiltPolicy, Outputs;
    assert SimpleCheck(SOCKET, nrs) && SimpleCheck(CONNECT, nrs);
    hide SimpleCheck, SOCKET, CONNECT;
    out, ps := CompileSimple(REPEATED_POLICY, nrs, defaultDeny);
  }
}
