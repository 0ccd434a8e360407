/** Filters with more than 258 lines: the jump of the architecture test spans them all, and its
    offset has eight bits. */
module LongFilter {
  import opened Syntax
  import opened Ir
  import opened Bpf
  import opened BpfGen
  import opened BpfSim
  import opened Reading
  import opened Colour
  import opened Resolve
  import opened Dispatch
  import opened Check
  import opened CheckRun
  import opened Policy
  import opened PolicyRun
  import opened Compile
  import opened Undecided
  import opened Simple

  // ---------- Where a wrong architecture lands ----------

  /** The program behind the test of the architecture. */
  function Native(es: seq<Entry>, defaultDeny: bool): Filters
    requires es != []
  {
    Prologue(Named(es[0].name))[2..] + (Chain(es, DefaultLabel(defaultDeny)) + Epilogue(defaultDeny))
  }

  lemma {:induction false} DenialIsLast(es: seq<Entry>, defaultDeny: bool)
    requires es != []
    ensures LabelLine(DENY_LABEL) in Native(es, defaultDeny)
    ensures AfterLine(Native(es, defaultDeny), DENY_LABEL) == [Ret(RetKill)]
  {
    var front := Prologue(Named(es[0].name))[2..] + Chain(es, DefaultLabel(defaultDeny));
    var tail := Epilogue(defaultDeny);
    var last := [LabelLine(DENY_LABEL)] + [Ret(RetKill)];
    assert Native(es, defaultDeny) == front + tail;
    LabelThen(DENY_LABEL, [Ret(RetKill)]);
    if defaultDeny {
      assert tail == last;
    } else {
      assert tail == [LabelLine(ALLOW_LABEL), Ret(RetAllow)] + last;
      AfterLineConcat([LabelLine(ALLOW_LABEL), Ret(RetAllow)], last, DENY_LABEL);
    }
    AfterLineConcat(front, tail, DENY_LABEL);
  }

  /** The two lines in front of it, resolved: the offset is the distance to the last line. */
  lemma {:induction false} ArchTestResolved(es: seq<Entry>, defaultDeny: bool)
    requires es != []
    ensures var r := Resolved(Native(es, defaultDeny));
      && |r| >= 1
      && Resolved(Program(es, defaultDeny)) ==
         [Stmt(BPF_LD | BPF_W | BPF_ABS, ArchField)] +
         ([JumpLine(BPF_JMP | OpBits(EQ) | BPF_K, Num(T_ARCH), Off(0), Off(|r| - 1))] + r)
  {
    hide *;
    var rest := Native(es, defaultDeny);
    var test := TestK(EQ, T_ARCH, DENY_LABEL);
    var load := Stmt(BPF_LD | BPF_W | BPF_ABS, ArchField);
    ProgramParts(es, defaultDeny);
    DenialIsLast(es, defaultDeny);
    ResolvedAfter(rest, DENY_LABEL);
    LastResolved();
    assert |Resolved(rest)[Distance(rest, DENY_LABEL)..]| == 1;
    ResolvedStep(load, [test] + rest);
    ResolvedStep(test, rest);
    TestResolved(EQ, T_ARCH, DENY_LABEL, rest);
  }

  lemma {:induction false} LastResolved()
    ensures Resolved([Ret(RetKill)]) == [Ret(RetKill)]
  {
  }

  lemma {:induction false} ProgramParts(es: seq<Entry>, defaultDeny: bool)
    requires es != []
    ensures Program(es, defaultDeny) ==
      [Stmt(BPF_LD | BPF_W | BPF_ABS, ArchField)] + ([TestK(EQ, T_ARCH, DENY_LABEL)] + Native(es, defaultDeny))
    ensures TestK(EQ, T_ARCH, DENY_LABEL).JumpLine?
  {
    hide Chain, Epilogue, OpBits;
  }

  lemma {:induction false} ResolvedStep(f: Filter, rest: Filters)
    requires !f.LabelLine?
    ensures Resolved([f] + rest) == [ResolveLine(f, rest)] + Resolved(rest)
    ensures f.Stmt? ==> ResolveLine(f, rest) == f
  {
    assert ([f] + rest)[1..] == rest;
  }

  lemma {:induction false} TestResolved(op: OpCode, k: Word, l: Label, rest: Filters)
    requires LabelLine(l) in rest
    ensures ResolveLine(TestK(op, k, l), rest) ==
      JumpLine(BPF_JMP | OpBits(op) | BPF_K, Num(k), Off(0), Off(Distance(rest, l)))
  {
    hide OpBits, Distance;
  }

  /** A wrong architecture goes on `n - 3` lines behind the test of a filter of `n` lines, counted
      in eight bits; a right one goes on behind the test. */
  lemma {:induction false} ForeignLands(m: Machine, data: Data, es: seq<Entry>, defaultDeny: bool, a: Word, x: Word,
                                        mem: Word)
    requires es != []
    ensures var r := Resolved(Native(es, defaultDeny));
      var n := |Resolved(Program(es, defaultDeny))|;
      && n == |r| + 2 >= 3
      && RunF(m, data, Assembled(Resolved(Program(es, defaultDeny))), a, x, mem) ==
         RunF(m, data, Assembled(r)[if data.arch == T_ARCH then 0 else (n - 3) % 256..], data.arch, x, mem)
  {
    ArchTestResolved(es, defaultDeny);
    hide RunF, Native, OpBits, Assembled, Program;
    var r := Resolved(Native(es, defaultDeny));
    var test := JumpLine(BPF_JMP | OpBits(EQ) | BPF_K, Num(T_ARCH), Off(0), Off(|r| - 1));
    var load := Stmt(BPF_LD | BPF_W | BPF_ABS, ArchField);
    AssembledParts(load, test, r);
    LoadFieldRun(m, data, ArchField, [NarrowLine(test)] + Assembled(r), a, x, mem);
    ArchTestRun(m, data, test, |r| - 1, Assembled(r), x, mem);
  }

  lemma {:induction false} AssembledParts(load: Filter, test: Filter, r: Filters)
    requires load.Stmt?
    ensures Assembled([load] + ([test] + r)) == [load] + ([NarrowLine(test)] + Assembled(r)) && |Assembled(r)| == |r|
  {
    assert ([test] + r)[1..] == r && ([load] + ([test] + r))[1..] == [test] + r;
  }

  lemma {:induction false} ArchTestRun(m: Machine, data: Data, test: Filter, n: nat, rest: Filters, x: Word, mem: Word)
    requires test == JumpLine(BPF_JMP | OpBits(EQ) | BPF_K, Num(T_ARCH), Off(0), Off(n)) && |rest| == n + 1
    ensures RunF(m, data, [NarrowLine(test)] + rest, data.arch, x, mem) ==
      RunF(m, data, rest[if data.arch == T_ARCH then 0 else n % 256..], data.arch, x, mem)
  {
    DecodeCompare(EQ);
    assert Decode(test.code) == Comparison(EQ, false) && KValue(test.k) == T_ARCH;
    CompareEq(data.arch, T_ARCH);
    hide RunF, Decode, OpBits, Compare;
    LongJumpWraps(m, data, test, rest, data.arch, x, mem);
  }

  // ---------- Filters of 259 lines ----------

  /** In a filter of 259 lines no other offset is too long, and that one is cut to zero. */
  lemma {:induction false} OthersAreNarrow(es: seq<Entry>, defaultDeny: bool)
    requires es != [] && ZeroOffsets(Program(es, defaultDeny)) && |Resolved(Program(es, defaultDeny))| == 259
    ensures ZeroOffsets(Native(es, defaultDeny)) && NarrowOffsets(Resolved(Native(es, defaultDeny)))
  {
    hide *;
    var first := Named(es[0].name);
    var rest := [Stmt(BPF_ALU | OpBits(BITAND) | BPF_K, Num(NR_MASK))] +
      (Chain(es, DefaultLabel(defaultDeny)) + Epilogue(defaultDeny));
    var load, test := Stmt(BPF_LD | BPF_W | BPF_ABS, NrField), TestK(GT, UPPER_NR_LIMIT, first);
    ArchTestResolved(es, defaultDeny);
    ProgramParts(es, defaultDeny);
    NativeParts(es, defaultDeny);
    var arch := [Stmt(BPF_LD | BPF_W | BPF_ABS, ArchField)];
    ZeroOffsetsConcat(arch, [TestK(EQ, T_ARCH, DENY_LABEL)] + Native(es, defaultDeny));
    ZeroOffsetsConcat([TestK(EQ, T_ARCH, DENY_LABEL)], Native(es, defaultDeny));
    ZeroOffsetsConcat([load], [test] + rest);
    ZeroOffsetsConcat([test], rest);
    ResolvedStep(load, [test] + rest);
    ResolvedStep(test, rest);
    assert |Resolved(rest)| == 255;
    ShortIsNarrow(rest);
    HeadIsNarrow(load, UPPER_NR_LIMIT, first, rest);
  }

  lemma {:induction false} HeadIsNarrow(load: Filter, k: Word, first: Label, rest: Filters)
    requires load.Stmt? && |Resolved(rest)| <= 255 && NarrowOffsets(Resolved(rest))
    ensures NarrowOffsets([load] + ([ResolveLine(TestK(GT, k, first), rest)] + Resolved(rest)))
  {
    hide Resolved, Distance, OpBits;
    if LabelLine(first) in rest {
      ResolvedAfter(rest, first);
    }
  }

  lemma {:induction false} NativeParts(es: seq<Entry>, defaultDeny: bool)
    requires es != []
    ensures Native(es, defaultDeny) ==
      [Stmt(BPF_LD | BPF_W | BPF_ABS, NrField)] + ([TestK(GT, UPPER_NR_LIMIT, Named(es[0].name))] +
        ([Stmt(BPF_ALU | OpBits(BITAND) | BPF_K, Num(NR_MASK))] +
          (Chain(es, DefaultLabel(defaultDeny)) + Epilogue(defaultDeny))))
    ensures TestK(GT, UPPER_NR_LIMIT, Named(es[0].name)).JumpLine?
  {
    hide Chain, Epilogue, OpBits;
  }

  /** So a filter of 259 lines takes every architecture for its own. */
  lemma {:induction false} ForeignIsNative(m: Machine, data: Data, es: seq<Entry>, defaultDeny: bool)
    requires es != [] && PlainEntries(es)
    requires ZeroOffsets(Program(es, defaultDeny)) && |Resolved(Program(es, defaultDeny))| == 259
    ensures var s := Chosen(m, data, es);
      RunF(m, data, Assembled(Resolved(Program(es, defaultDeny))), 0, 0, 0) ==
      if s == [] then Verdict(if defaultDeny then RetKill else RetAllow)
      else RunF(m, data, s[0].body + (Chain(s[1..], DefaultLabel(defaultDeny)) + Epilogue(defaultDeny)),
        SyscallNr(m, data), 0, 0)
  {
    hide RunF, Native, Chain, Epilogue, Chosen, PlainEntries, Program, ZeroOffsets, NarrowOffsets;
    var r := Resolved(Native(es, defaultDeny));
    ForeignLands(m, data, es, defaultDeny, 0, 0, 0);
    OthersAreNarrow(es, defaultDeny);
    AssembledIsSameIff(r);
    assert r[0..] == r && 256 % 256 == 0;
    ResolvePreserves(m, data, Native(es, defaultDeny), data.arch, 0, 0);
    NativeRun(m, data, es, defaultDeny, data.arch, 0, 0);
    NativeIs(es, defaultDeny);
  }

  lemma {:induction false} NativeIs(es: seq<Entry>, defaultDeny: bool)
    requires es != []
    ensures Native(es, defaultDeny) ==
      Prologue(Named(es[0].name))[2..] + (Chain(es, DefaultLabel(defaultDeny)) + Epilogue(defaultDeny))
  {
  }

  // ---------- Policies with such a filter ----------

  /** The filter of a policy takes every syscall for one of its own architecture if it has 259
      lines. */
  lemma {:induction false} ArchIsIgnored(m: Machine, ps: Builts, nrs: Numbers, defaultDeny: bool, data: Data)
    requires WellBuiltPolicy(ps) && Followable(ps, data.args) && |ResolvedFilter(ps, nrs, defaultDeny)| == 259
    ensures var v := FollowStart(m, data, ps, nrs, defaultDeny);
      v.Some? ==> RunF(m, data, Assembled(ResolvedFilter(ps, nrs, defaultDeny)), 0, 0, 0) == v.value
  {
    hide *;
    var es, k := Entries(ps, nrs), ChosenAt(m, ps, nrs, data);
    PolicyHasChecks(ps);
    EntriesFit(ps, nrs);
    ResolvedIs(ps, nrs, defaultDeny);
    ProgramJumps(es, defaultDeny);
    ForeignIsNative(m, data, es, defaultDeny);
    StartIs(m, data, ps, nrs, defaultDeny);
    if k.Some? && FollowStart(m, data, ps, nrs, defaultDeny).Some? {
      ChainedWhole(es);
      ChosenIsSuffix(m, data, es);
      EntriesFrom(ps, nrs, k.value);
      ChainedFrom(es, k.value);
      BodyFollowsAtStart(m, data, ps[k.value..], nrs, defaultDeny);
    }
  }

  lemma {:induction false} ResolvedIs(ps: Builts, nrs: Numbers, defaultDeny: bool)
    requires ps != []
    ensures |Entries(ps, nrs)| == |ps|
    ensures ResolvedFilter(ps, nrs, defaultDeny) == Resolved(Program(Entries(ps, nrs), defaultDeny))
  {
    hide EntryOf;
  }

  // ---------- A policy that is ruled wrongly ----------

  /** 126 checks of one decision each. */
  predicate LongPolicy(cks: seq<Check>) {
    |cks| == 126 && forall ck | ck in cks :: ck.body.Permit?
  }

  lemma {:induction false} ResolvedLength(a: Filters, b: Filters)
    ensures |Resolved(a + b)| == |Resolved(a)| + |Resolved(b)|
  {
    if a == [] {
      assert a + b == b;
    } else {
      assert (a + b)[0] == a[0] && (a + b)[1..] == a[1..] + b;
      ResolvedLength(a[1..], b);
    }
  }

  lemma {:induction false} EntryLength(b: Built, nrs: Numbers, next: Label)
    requires WellBuilt(b) && b.ck.body.Permit?
    ensures |Resolved(EntryLines(EntryOf(b, nrs), next))| == 2
  {
    hide WellBuilt, FilterIr, FilterOf, Ordered, Table;
    PermitBuilt(b, b.ck.body.perm);
    FilterIsGen(b.ck, b.bs, b.n);
    BuiltIsCompiled(b);
    CompiledIsGood(b.ck, b.at, b.bs, b.n);
    EntryIs(b, nrs);
    OneLine(b.ck.body.perm, ArgIndexOf(b.ck.params));
    TwoLines(EntryOf(b, nrs), next);
  }

  lemma {:induction false} OneLine(p: Perm, idx: ArgIndex)
    ensures GenAll([Return(Decision(p))], EMPTY_STATE, idx) == Some([Ret(ReturnAction(Decision(p)))])
  {
    hide ReturnAction;
    var c := [Return(Decision(p))];
    assert c[1..] == [];
    assert GenAll(c[1..], EMPTY_STATE, idx) == Some([]);
    assert [Ret(ReturnAction(Decision(p)))] + [] == [Ret(ReturnAction(Decision(p)))];
  }

  lemma {:induction false} TwoLines(e: Entry, next: Label)
    requires |e.body| == 1 && !e.body[0].LabelLine?
    ensures |Resolved(EntryLines(e, next))| == 2
  {
    var fs := EntryLines(e, next);
    assert fs[1..][1..] == e.body && e.body[1..] == [];
    assert |Resolved(e.body)| == 1;
  }

  lemma {:induction false} ChainLength(ps: Builts, nrs: Numbers, dflt: Label)
    requires forall b | b in ps :: WellBuilt(b) && b.ck.body.Permit?
    ensures |Resolved(Chain(Entries(ps, nrs), dflt))| == 2 * |ps|
  {
    hide WellBuilt, EntryOf, EntryLines, Resolved;
    if ps == [] {
      assert Resolved([]) == [] by { NoLines(); }
    } else {
      assert ps[0] in ps;
      assert Entries(ps, nrs)[1..] == Entries(ps[1..], nrs);
      ChainLength(ps[1..], nrs, dflt);
      var next := Dispatch.Next(Entries(ps, nrs)[1..], dflt);
      EntryLength(ps[0], nrs, next);
      ResolvedLength(EntryLines(EntryOf(ps[0], nrs), next), Chain(Entries(ps[1..], nrs), dflt));
    }
  }

  lemma {:induction false} NoLines()
    ensures Resolved([]) == []
  {
  }

  lemma {:induction false} EndsLength(first: Label)
    ensures |Resolved(Prologue(first))| == 5 && |Resolved(Epilogue(false))| == 2
  {
    hide TestK, OpBits, Resolved;
    var p, e := Prologue(first), Epilogue(false);
    assert p == [p[0]] + ([p[1]] + ([p[2]] + ([p[3]] + ([p[4]] + []))));
    assert e == [e[0]] + ([e[1]] + ([e[2]] + ([e[3]] + [])));
    assert p[1].JumpLine? &&
      p[3].JumpLine? by { TestIsJump(EQ, T_ARCH, DENY_LABEL); TestIsJump(GT, UPPER_NR_LIMIT, first); }
    NoLines();
    LengthStep(p[4], []);
    LengthStep(p[3], [p[4]] + []);
    LengthStep(p[2], [p[3]] + ([p[4]] + []));
    LengthStep(p[1], [p[2]] + ([p[3]] + ([p[4]] + [])));
    LengthStep(p[0], [p[1]] + ([p[2]] + ([p[3]] + ([p[4]] + []))));
    LengthStep(e[3], []);
    LengthStep(e[2], [e[3]] + []);
    LengthStep(e[1], [e[2]] + ([e[3]] + []));
    LengthStep(e[0], [e[1]] + ([e[2]] + ([e[3]] + [])));
  }

  lemma {:induction false} TestIsJump(op: OpCode, k: Word, l: Label)
    ensures TestK(op, k, l).JumpLine?
  {
  }

  lemma {:induction false} LengthStep(f: Filter, rest: Filters)
    ensures |Resolved([f] + rest)| == (if f.LabelLine? then 0 else 1) + |Resolved(rest)|
  {
    assert ([f] + rest)[1..] == rest;
  }

  /** Under `allow all;` its filter has 259 lines. */
  lemma {:induction false} LongLength(ps: Builts, nrs: Numbers)
    requires WellBuiltPolicy(ps) && LongPolicy(Checks(ps))
    ensures ps != [] && |ResolvedFilter(ps, nrs, false)| == 259
  {
    hide WellBuilt, InSequence, Prologue, Epilogue, Resolved, Chain, EntryOf;
    var es := Entries(ps, nrs);
    forall b | b in ps
      ensures WellBuilt(b) && b.ck.body.Permit?
    {
      var k: nat :| k < |ps| && ps[k] == b;
      Later(ps, Base(0, 0), 0, k);
      assert Checks(ps)[k] == b.ck && b.ck in Checks(ps);
    }
    var first, dflt := Named(es[0].name), DefaultLabel(false);
    ChainLength(ps, nrs, dflt);
    EndsLength(first);
    ResolvedLength(Chain(es, dflt), Epilogue(false));
    ResolvedLength(Prologue(first), Chain(es, dflt) + Epilogue(false));
  }

  /** A syscall of another architecture, which every policy denies, goes ahead if its number is
      that of no check. */
  lemma {:induction false} ForeignIsAllowed(m: Machine, ps: Builts, nrs: Numbers, data: Data)
    requires WellBuiltPolicy(ps) && LongPolicy(Checks(ps))
    requires (forall ck | ck in Checks(ps) :: |ck.params| <= |data.args|)
    requires data.arch != T_ARCH && CheckFor(Checks(ps), nrs, SyscallNr(m, data)).None?
    ensures ps != [] && Intended(m, Checks(ps), nrs, false, data) == Ruling(Deny, data.args)
    ensures Observed(m, ps, nrs, false, data) == Some(Ruling(Allow, data.args))
  {
    hide *;
    LongLength(ps, nrs);
    AllFollowable(ps, data.args);
    ArchIsIgnored(m, ps, nrs, false, data);
    NoneIsChosen(m, ps, nrs, data);
    StartIs(m, data, ps, nrs, false);
    DefaultRules(m, ps, nrs, false, data);
    AbsentRules(m, false, data.args);
    ForeignIsDenied(m, Checks(ps), nrs, data);
  }

  lemma {:induction false} NoneIsChosen(m: Machine, ps: Builts, nrs: Numbers, data: Data)
    requires CheckFor(Checks(ps), nrs, SyscallNr(m, data)).None?
    ensures ChosenAt(m, ps, nrs, data).None?
  {
    hide SyscallNr, CheckFor, Checks, Chosen, EntryOf, Entries;
    SameChoice(ps, nrs, SyscallNr(m, data));
    ChosenIsSuffix(m, data, Entries(ps, nrs));
    EmptyOrBehind(Entries(ps, nrs), Chosen(m, data, Entries(ps, nrs)), 0);
  }

  lemma {:induction false} ForeignIsDenied(m: Machine, cks: seq<Check>, nrs: Numbers, data: Data)
    requires data.arch != T_ARCH && forall ck | ck in cks :: |ck.params| <= |data.args|
    ensures Intended(m, cks, nrs, false, data) == Ruling(Deny, data.args)
  {
  }

  /** Such policies compile: for any 126 syscalls. */
  method CompileLong(names: seq<string>, nrs: Numbers) returns (out: Output, ghost ps: Builts)
    requires |names| == 126 && forall x | x in names :: x in nrs && x != "__deny" && x != "__allow"
    ensures WellBuiltPolicy(ps) && LongPolicy(Checks(ps)) && ps != [] && Outputs(out, ps, nrs, false)
  {
    var cks := seq(|names|, i requires 0 <= i < |names| => Check(names[i], [], Permit(Allow), {}));
    forall ck | ck in cks
      ensures SimpleCheck(ck, nrs) && ck.body.Permit?
    {
      var i :| 0 <= i < |cks| && cks[i] == ck;
      assert names[i] in names;
    }
    hide WellBuiltPolicy, Outputs, SimpleCheck;
    out, ps := CompileSimple(cks, nrs, false);
  }
}
