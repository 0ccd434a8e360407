/** The dispatch chain: one filter that picks the check of the current syscall. */
module Dispatch {
  import opened Syntax
  import opened Ir
  import opened Bpf
  import opened BpfGen
  import opened BpfSim
  import opened Reading

  /** A check as the chain sees it: its syscall, the number of that, and its filter. */
  datatype Entry = Entry(name: string, nr: Word, body: Filters)

  const DENY_LABEL: Label := Named("__deny")
  const ALLOW_LABEL: Label := Named("__allow")

  const T_ARCH: Word := 0xC000_003E
  const X32_SYSCALL_BIT: Word := 0x4000_0000
  const UPPER_NR_LIMIT: Word := X32_SYSCALL_BIT - 1
  const NR_MASK: Word := 0xBFFF_FFFF

  function TestK(op: OpCode, k: Word, jf: Label): Filter {
    JumpLine(BPF_JMP | OpBits(op) | BPF_K, Num(k), Off(0), At(jf))
  }

  function Next(es: seq<Entry>, dflt: Label): Label {
    if es == [] then dflt else Named(es[0].name)
  }

  function EntryLines(e: Entry, next: Label): Filters {
    [LabelLine(Named(e.name)), TestK(EQ, e.nr, next)] + e.body
  }

  function Chain(es: seq<Entry>, dflt: Label): Filters {
    if es == [] then [] else EntryLines(es[0], Next(es[1..], dflt)) + Chain(es[1..], dflt)
  }

  /** The architecture test, and the number of the syscall with the x32 bit cleared. */
  function Prologue(first: Label): Filters {
    [Stmt(BPF_LD | BPF_W | BPF_ABS, ArchField),
     TestK(EQ, T_ARCH, DENY_LABEL),
     Stmt(BPF_LD | BPF_W | BPF_ABS, NrField),
     TestK(GT, UPPER_NR_LIMIT, first),
     Stmt(BPF_ALU | OpBits(BITAND) | BPF_K, Num(NR_MASK))]
  }

  function Epilogue(defaultDeny: bool): Filters {
    (if defaultDeny then [LabelLine(DENY_LABEL)]
     else [LabelLine(ALLOW_LABEL), Ret(RetAllow), LabelLine(DENY_LABEL)]) + [Ret(RetKill)]
  }

  function DefaultLabel(defaultDeny: bool): Label {
    if defaultDeny then DENY_LABEL else ALLOW_LABEL
  }

  function Program(es: seq<Entry>, defaultDeny: bool): Filters
    requires es != []
  {
    Prologue(Named(es[0].name)) + (Chain(es, DefaultLabel(defaultDeny)) + Epilogue(defaultDeny))
  }

  // ---------- What the program should do ----------

  /** The number that the chain compares. */
  function SyscallNr(m: Machine, data: Data): Word {
    if data.nr > UPPER_NR_LIMIT then m.alu(BITAND, data.nr, NR_MASK) else data.nr
  }

  /** The first entry with the number. */
  function FindEntry(es: seq<Entry>, nr: Word): (r: Option<nat>)
    ensures r.Some? ==> r.value < |es| && es[r.value].nr == nr
    ensures r.None? ==> forall k | 0 <= k < |es| :: es[k].nr != nr
  {
    if es == [] then None
    else if es[0].nr == nr then Some(0)
    else
      var r := FindEntry(es[1..], nr);
      if r.Some? then Some(r.value + 1) else None
  }

  /** With distinct numbers the entry found is the only one. */
  lemma {:induction false} FindEntryIsUnique(es: seq<Entry>, k: nat)
    requires k < |es| && forall i, j | 0 <= i < j < |es| :: es[i].nr != es[j].nr
    ensures FindEntry(es, es[k].nr) == Some(k)
  {
  }

  predicate Names(es: seq<Entry>, name: string) {
    exists e | e in es :: e.name == name
  }

  /** The entries from the last one with the name on: where a jump to the name leads. */
  function FromLast(es: seq<Entry>, name: string): (r: seq<Entry>)
    requires Names(es, name)
    ensures 0 < |r| <= |es| && r == es[|es| - |r|..] && r[0].name == name && !Names(r[1..], name)
  {
    if Names(es[1..], name) then FromLast(es[1..], name)
    else
      assert es[0].name == name;
      es
  }

  /** The entries from the one that a jump to the first name ends up in; none if no number
      that is looked at matches. */
  function Dispatched(es: seq<Entry>, nr: Word): (r: seq<Entry>)
    ensures r != [] ==> r[0].nr == nr
    decreases |es|
  {
    if es == [] then []
    else
      assert es[0] in es;
      var s := FromLast(es, es[0].name);
      if s[0].nr == nr then s else Dispatched(s[1..], nr)
  }

  /** The same when control runs into the first entry. */
  function Entered(es: seq<Entry>, nr: Word): seq<Entry> {
    if es == [] then [] else if es[0].nr == nr then es else Dispatched(es[1..], nr)
  }

  predicate NoNamedLabels(fs: Filters) {
    forall f | f in fs && f.LabelLine? :: f.lbl.Fresh?
  }

  /** The bodies have fresh labels only, and no check is called like a default. */
  predicate PlainEntries(es: seq<Entry>) {
    forall e | e in es :: NoNamedLabels(e.body) && e.name != "__deny" && e.name != "__allow"
  }

  predicate DifferentEntries(es: seq<Entry>) {
    forall i, j | 0 <= i < j < |es| :: es[i].name != es[j].name
  }

  // ---------- Proof ----------

  /** The entries from the first one with the number on: what a lookup finds. */
  function Looked(es: seq<Entry>, nr: Word): seq<Entry> {
    var k := FindEntry(es, nr);
    if k.Some? then es[k.value..] else []
  }

  /** With different names every entry is looked at in turn. */
  lemma {:induction false} DispatchedIsFound(es: seq<Entry>, nr: Word)
    requires DifferentEntries(es)
    ensures Dispatched(es, nr) == Entered(es, nr) == Looked(es, nr)
  {
    if es != [] {
      assert !Names(es[1..], es[0].name);
      assert es[0] in es;
      DispatchedIsFound(es[1..], nr);
    }
  }

  /** Syscalls have one number each. */
  predicate OneNumberEach(es: seq<Entry>) {
    forall i, j | 0 <= i < j < |es| :: es[i].nr == es[j].nr <==> es[i].name == es[j].name
  }

  /** Where a name is repeated, some number is not looked up. */
  lemma {:induction false} RepeatMisses(es: seq<Entry>) returns (nr: Word)
    requires OneNumberEach(es) && !DifferentEntries(es)
    ensures Dispatched(es, nr) != Looked(es, nr)
  {
    RepeatHasEntries(es);
    hide *;
    var first, rest := es[0], es[1..];
    if Names(rest, first.name) {
      nr := first.nr;
      LaterIsShorter(es, nr);
      FirstIsLooked(es);
    } else {
      RepeatIsLater(es);
      nr := RepeatMisses(rest);
      DispatchedOrLooked(rest, nr);
      OtherNumbers(es);
      FirstIsPassed(es, nr);
    }
  }

  lemma {:induction false} RepeatHasEntries(es: seq<Entry>)
    requires !DifferentEntries(es)
    ensures es != []
  {
  }

  lemma {:induction false} FirstIsLooked(es: seq<Entry>)
    requires es != []
    ensures Looked(es, es[0].nr) == es
  {
    hide FindEntry;
    LookedStep(es, es[0].nr);
  }

  lemma {:induction false} RepeatIsLater(es: seq<Entry>)
    requires es != [] && OneNumberEach(es) && !DifferentEntries(es) && !Names(es[1..], es[0].name)
    ensures OneNumberEach(es[1..]) && !DifferentEntries(es[1..])
  {
    var rest := es[1..];
    var i, j :| 0 <= i < j < |es| && es[i].name == es[j].name;
    assert es[j] == rest[j - 1] && es[j] in rest;
    assert i > 0 && es[i] == rest[i - 1];
  }

  lemma {:induction false} FirstIsPassed(es: seq<Entry>, nr: Word)
    requires es != [] && !Names(es[1..], es[0].name) && es[0].nr != nr
    ensures Dispatched(es, nr) == Dispatched(es[1..], nr) && Looked(es, nr) == Looked(es[1..], nr)
  {
    hide *;
    var s := DispatchedStep(es, nr);
    OnlyFirst(es, s);
    LookedStep(es, nr);
  }

  lemma {:induction false} OnlyFirst(es: seq<Entry>, s: seq<Entry>)
    requires 0 < |s| <= |es| && s == es[|es| - |s|..] && s[0].name == es[0].name && !Names(es[1..], es[0].name)
    ensures s == es
  {
    var k := |es| - |s|;
    assert s[0] == es[k];
  }

  lemma {:induction false} LookedStep(es: seq<Entry>, nr: Word)
    requires es != []
    ensures Looked(es, nr) == if es[0].nr == nr then es else Looked(es[1..], nr)
  {
    var k := FindEntry(es[1..], nr);
    assert FindEntry(es, nr) == if es[0].nr == nr then Some(0) else if k.Some? then Some(k.value + 1) else None;
    hide FindEntry;
    if k.Some? && es[0].nr != nr {
      assert es[1..][k.value..] == es[k.value + 1..];
    }
  }

  /** The first entry is skipped if its name comes again. */
  lemma {:induction false} LaterIsShorter(es: seq<Entry>, nr: Word)
    requires es != [] && Names(es[1..], es[0].name)
    ensures |Dispatched(es, nr)| < |es|
  {
    hide *;
    var s := DispatchedStep(es, nr);
    if s[0].nr != nr {
      DispatchedIsShorter(s[1..], nr);
    }
  }

  lemma {:induction false} OtherNumbers(es: seq<Entry>)
    requires OneNumberEach(es) && es != [] && !Names(es[1..], es[0].name)
    ensures forall e | e in es[1..] :: e.nr != es[0].nr
  {
    forall e | e in es[1..]
      ensures e.nr != es[0].nr
    {
      var j :| 0 <= j < |es[1..]| && es[1..][j] == e;
      assert es[j + 1] == e;
    }
  }

  lemma {:induction false} DispatchedOrLooked(es: seq<Entry>, nr: Word)
    requires Dispatched(es, nr) != Looked(es, nr)
    ensures exists e | e in es :: e.nr == nr
  {
    if Dispatched(es, nr) != [] {
      DispatchedIsSuffix(es, nr);
      assert Dispatched(es, nr)[0] in es;
    } else {
      assert es[FindEntry(es, nr).value] in es;
    }
  }

  /** The chain is a lookup, whatever the number, exactly if no name is repeated. */
  lemma {:induction false} DispatchIsLookupIff(es: seq<Entry>)
    requires OneNumberEach(es)
    ensures DifferentEntries(es) <==> forall nr :: Dispatched(es, nr) == Looked(es, nr)
  {
    hide OneNumberEach, Dispatched, Looked, Entered;
    if DifferentEntries(es) {
      forall nr
        ensures Dispatched(es, nr) == Looked(es, nr)
      {
        DispatchedIsFound(es, nr);
      }
    } else {
      var nr := RepeatMisses(es);
    }
  }

  /** What is dispatched to is the list from some entry on. */
  lemma {:induction false} DispatchedIsSuffix(es: seq<Entry>, nr: Word)
    ensures var s := Dispatched(es, nr); |s| <= |es| && s == es[|es| - |s|..]
    decreases |es|
  {
    hide *;
    if es == [] {
      NothingDispatched(nr);
    } else {
      var s := DispatchedStep(es, nr);
      if s[0].nr != nr {
        DispatchedIsSuffix(s[1..], nr);
        SuffixOfSuffix(es, s, Dispatched(s[1..], nr));
      }
    }
  }

  lemma {:induction false} NothingDispatched(nr: Word)
    ensures Dispatched([], nr) == [] && Entered([], nr) == []
  {
  }

  /** The next entry that is looked at. */
  lemma {:induction false} DispatchedStep(es: seq<Entry>, nr: Word) returns (s: seq<Entry>)
    requires es != []
    ensures 0 < |s| <= |es| && s == es[|es| - |s|..] && s[0].name == es[0].name
    ensures Dispatched(es, nr) == if s[0].nr == nr then s else Dispatched(s[1..], nr)
    ensures Names(es[1..], es[0].name) ==> |s| < |es|
  {
    assert es[0] in es;
    s := FromLast(es, es[0].name);
  }

  lemma {:induction false} SuffixOfSuffix(es: seq<Entry>, s: seq<Entry>, t: seq<Entry>)
    requires 0 < |s| <= |es| && s == es[|es| - |s|..] && |t| < |s| && t == s[1..][|s| - 1 - |t|..]
    ensures t == es[|es| - |t|..]
  {
  }

  /** Where the first name is repeated, no entry before the last one of that name is ever run
      for a number that is jumped to. */
  lemma {:induction false} RepeatedNameSkips(es: seq<Entry>, nr: Word, j: nat)
    requires j < |es| && es[j].name == es[0].name
    ensures |Dispatched(es, nr)| <= |es| - j
  {
    assert es[0] in es;
    var s := FromLast(es, es[0].name);
    assert |s| <= |es| - j by { LastIsBehind(es, es[0].name, j); }
    if s[0].nr != nr {
      DispatchedIsShorter(s[1..], nr);
    }
  }

  lemma {:induction false} LastIsBehind(es: seq<Entry>, name: string, j: nat)
    requires j < |es| && es[j].name == name
    ensures Names(es, name) && |FromLast(es, name)| <= |es| - j
  {
    assert es[j] in es;
    if j > 0 {
      LastIsBehind(es[1..], name, j - 1);
    }
  }

  /** So what stands between two checks of the first name is not there for its own number. */
  lemma {:induction false} BetweenIsMissed(es: seq<Entry>, k: nat, j: nat)
    requires k < j < |es| && es[j].name == es[0].name && forall i | j <= i < |es| :: es[i].nr != es[k].nr
    ensures Dispatched(es, es[k].nr) == [] && FindEntry(es, es[k].nr).Some?
  {
    var s := Dispatched(es, es[k].nr);
    RepeatedNameSkips(es, es[k].nr, j);
    DispatchedIsSuffix(es, es[k].nr);
    EmptyOrBehind(es, s, j);
  }

  lemma {:induction false} EmptyOrBehind(es: seq<Entry>, s: seq<Entry>, j: nat)
    requires |s| + j <= |es| && s == es[|es| - |s|..]
    ensures s == [] || exists i | j <= i < |es| :: es[i].nr == s[0].nr
  {
    if s != [] {
      assert es[|es| - |s|] == s[0];
    }
  }

  lemma {:induction false} DispatchedIsShorter(es: seq<Entry>, nr: Word)
    ensures |Dispatched(es, nr)| <= |es|
    decreases |es|
  {
    if es != [] {
      assert es[0] in es;
      DispatchedIsShorter(FromLast(es, es[0].name)[1..], nr);
    }
  }

  lemma {:induction false} TestKRun(m: Machine, data: Data, op: OpCode, k: Word, jf: Label, rest: Filters, a: Word,
                                    x: Word, mem: Word)
    requires op == EQ || op == GT
    ensures RunF(m, data, [TestK(op, k, jf)] + rest, a, x, mem) ==
      if Compare(op, a, k) then RunF(m, data, rest, a, x, mem) else GoTo(m, data, rest, At(jf), a, x, mem)
  {
    DecodeCompare(op);
    assert Decode(TestK(op, k, jf).code) == Comparison(op, false);
    hide Decode, OpBits;
    assert ([TestK(op, k, jf)] + rest)[1..] == rest && rest[0..] == rest;
  }

  lemma {:induction false} LabelRun(m: Machine, data: Data, l: Label, rest: Filters, a: Word, x: Word, mem: Word)
    ensures RunF(m, data, [LabelLine(l)] + rest, a, x, mem) == RunF(m, data, rest, a, x, mem)
    ensures LabelLine(l) !in rest ==>
      GoTo(m, data, [LabelLine(l)] + rest, At(l), a, x, mem) == RunF(m, data, rest, a, x, mem)
  {
    assert ([LabelLine(l)] + rest)[1..] == rest;
  }

  lemma {:induction false} GoToSkips(m: Machine, data: Data, skipped: Filters, rest: Filters, l: Label, a: Word,
                                     x: Word, mem: Word)
    requires LabelLine(l) !in skipped || LabelLine(l) in rest
    ensures GoTo(m, data, skipped + rest, At(l), a, x, mem) == GoTo(m, data, rest, At(l), a, x, mem)
  {
    hide RunF;
    if LabelLine(l) in rest {
      AfterLineConcat(skipped, rest, l);
    }
  }

  lemma {:induction false} CompareEq(x: Word, y: Word)
    ensures Compare(EQ, x, y) == (x == y)
  {
  }

  lemma {:induction false} ChainLabels(es: seq<Entry>, dflt: Label, l: Label)
    requires PlainEntries(es) && LabelLine(l) in Chain(es, dflt) && l.Named?
    ensures Names(es, l.name)
  {
    var lines := EntryLines(es[0], Next(es[1..], dflt));
    assert es[0] in es;
    if LabelLine(l) !in lines {
      assert PlainEntries(es[1..]);
      ChainLabels(es[1..], dflt, l);
      var e :| e in es[1..] && e.name == l.name;
      assert e in es;
    }
  }

  /** Behind the label of an entry: its test, its body, and the entries after it. */
  function Behind(es: seq<Entry>, dflt: Label, tail: Filters): Filters
    requires es != []
  {
    [TestK(EQ, es[0].nr, Next(es[1..], dflt))] + (es[0].body + (Chain(es[1..], dflt) + tail))
  }

  lemma {:induction false} ChainHead(es: seq<Entry>, dflt: Label, tail: Filters)
    requires es != []
    ensures Chain(es, dflt) + tail == [LabelLine(Named(es[0].name))] + Behind(es, dflt, tail)
  {
    hide TestK;
  }

  /** A jump to a name lands behind the last label of that name. */
  lemma {:induction false} JumpToName(es: seq<Entry>, dflt: Label, tail: Filters, name: string)
    requires PlainEntries(es) && Names(es, name) && LabelLine(Named(name)) !in tail
    ensures LabelLine(Named(name)) in Chain(es, dflt) + tail
    ensures AfterLine(Chain(es, dflt) + tail, Named(name)) == Behind(FromLast(es, name), dflt, tail)
  {
    hide *;
    FirstOrLater(es, name);
    if Names(es[1..], name) {
      JumpToName(es[1..], dflt, tail, name);
      ChainTail(es, dflt, tail);
      AfterLineConcat(EntryLines(es[0], Next(es[1..], dflt)), Chain(es[1..], dflt) + tail, Named(name));
    } else {
      ChainHead(es, dflt, tail);
      LastHasNoLabel(es, dflt, tail, name);
      LabelThen(Named(name), Behind(es, dflt, tail));
    }
  }

  lemma {:induction false} FirstOrLater(es: seq<Entry>, name: string)
    requires PlainEntries(es) && Names(es, name)
    ensures es != [] && NoNamedLabels(es[0].body) && PlainEntries(es[1..])
    ensures FromLast(es, name) == if Names(es[1..], name) then FromLast(es[1..], name) else es
    ensures !Names(es[1..], name) ==> es[0].name == name
  {
    assert es[0] in es;
    hide NoNamedLabels;
  }

  lemma {:induction false} ChainTail(es: seq<Entry>, dflt: Label, tail: Filters)
    requires es != []
    ensures Chain(es, dflt) + tail == EntryLines(es[0], Next(es[1..], dflt)) + (Chain(es[1..], dflt) + tail)
  {
  }

  lemma {:induction false} LabelThen(l: Label, rest: Filters)
    requires LabelLine(l) !in rest
    ensures LabelLine(l) in [LabelLine(l)] + rest && AfterLine([LabelLine(l)] + rest, l) == rest
  {
    assert ([LabelLine(l)] + rest)[1..] == rest;
  }

  lemma {:induction false} LastHasNoLabel(es: seq<Entry>, dflt: Label, tail: Filters, name: string)
    requires es != [] && NoNamedLabels(es[0].body) && PlainEntries(es[1..]) && !Names(es[1..], name)
    requires LabelLine(Named(name)) !in tail
    ensures LabelLine(Named(name)) !in Behind(es, dflt, tail)
  {
    hide Chain;
    var l, chain := LabelLine(Named(name)), Chain(es[1..], dflt);
    if l in chain {
      ChainLabels(es[1..], dflt, Named(name));
    }
    assert l !in es[0].body && l !in es[0].body + (chain + tail);
  }

  /** What the labels behind the chain are. */
  predicate EndsWithDefaults(tail: Filters, dflt: Label) {
    && dflt in {DENY_LABEL, ALLOW_LABEL} && LabelLine(dflt) in tail
    && forall f | f in tail && f.LabelLine? :: f.lbl in {DENY_LABEL, ALLOW_LABEL}
  }

  /** The chain from a jump to its first name on: the entry that it ends up in runs its body, in
      front of the entries behind it; otherwise the default is gone to. */
  lemma {:induction false} ChainFinds(m: Machine, data: Data, es: seq<Entry>, dflt: Label, front: Filters,
                                      tail: Filters, nr: Word, x: Word, mem: Word)
    requires PlainEntries(es) && EndsWithDefaults(tail, dflt)
    ensures var s := Dispatched(es, nr);
      GoTo(m, data, front + (Chain(es, dflt) + tail), At(Next(es, dflt)), nr, x, mem) ==
      if s == [] then GoTo(m, data, tail, At(dflt), nr, x, mem)
      else RunF(m, data, s[0].body + (Chain(s[1..], dflt) + tail), nr, x, mem)
    decreases |es|
  {
    hide RunF, GoTo, Compare, Chain, Behind, FromLast;
    if es == [] {
      assert front + (Chain(es, dflt) + tail) == front + tail by { NoChain(dflt); }
      GoToSkips(m, data, front, tail, dflt, nr, x, mem);
    } else {
      assert es[0] in es;
      var s := FromLast(es, es[0].name);
      assert s == es[|es| - |s|..] && PlainEntries(s[1..]);
      GoToName(m, data, es, dflt, front, tail, nr, x, mem);
      hide PlainEntries, EndsWithDefaults;
      EntryRun(m, data, s, dflt, tail, nr, x, mem);
      if s[0].nr != nr {
        ChainFinds(m, data, s[1..], dflt, s[0].body, tail, nr, x, mem);
      }
    }
  }

  lemma {:induction false} NoChain(dflt: Label)
    ensures Chain([], dflt) == []
  {
  }

  lemma {:induction false} GoToName(m: Machine, data: Data, es: seq<Entry>, dflt: Label, front: Filters, tail: Filters,
                                    nr: Word, x: Word, mem: Word)
    requires PlainEntries(es) && EndsWithDefaults(tail, dflt) && es != []
    ensures Names(es, es[0].name)
    ensures GoTo(m, data, front + (Chain(es, dflt) + tail), At(Next(es, dflt)), nr, x, mem) ==
      RunF(m, data, Behind(FromLast(es, es[0].name), dflt, tail), nr, x, mem)
  {
    hide RunF, Chain, Behind, FromLast, AfterLine;
    assert es[0] in es;
    assert LabelLine(Named(es[0].name)) !in tail;
    JumpToName(es, dflt, tail, es[0].name);
    GoToSkips(m, data, front, Chain(es, dflt) + tail, Named(es[0].name), nr, x, mem);
  }

  /** One entry: the number matches and the body runs, or the next one is gone to. */
  lemma {:induction false} EntryRun(m: Machine, data: Data, es: seq<Entry>, dflt: Label, tail: Filters, nr: Word,
                                    x: Word, mem: Word)
    requires es != []
    ensures RunF(m, data, Behind(es, dflt, tail), nr, x, mem) ==
      var rest := es[0].body + (Chain(es[1..], dflt) + tail);
      if nr == es[0].nr then RunF(m, data, rest, nr, x, mem)
        else GoTo(m, data, rest, At(Next(es[1..], dflt)), nr, x, mem)
  {
    hide RunF, GoTo, Compare, Chain;
    var next := Next(es[1..], dflt);
    TestKRun(m, data, EQ, es[0].nr, next, es[0].body + (Chain(es[1..], dflt) + tail), nr, x, mem);
    CompareEq(nr, es[0].nr);
  }

  /** The first two lines: a wrong architecture goes to the denial, at whatever distance. */
  lemma {:induction false} PrologueRun(m: Machine, data: Data, first: Label, rest: Filters, a: Word, x: Word, mem: Word)
    ensures RunF(m, data, Prologue(first) + rest, a, x, mem) ==
      if data.arch != T_ARCH then GoTo(m, data, Prologue(first)[2..] + rest, At(DENY_LABEL), data.arch, x, mem)
      else RunF(m, data, Prologue(first)[2..] + rest, data.arch, x, mem)
  {
    hide RunF, GoTo;
    var p2 := Prologue(first)[2..] + rest;
    assert Prologue(first) + rest ==
      [Stmt(BPF_LD | BPF_W | BPF_ABS, ArchField)] + ([TestK(EQ, T_ARCH, DENY_LABEL)] + p2);
    LoadFieldRun(m, data, ArchField, [TestK(EQ, T_ARCH, DENY_LABEL)] + p2, a, x, mem);
    TestKRun(m, data, EQ, T_ARCH, DENY_LABEL, p2, data.arch, x, mem);
  }

  /** The other three: a large number has its x32 bit cleared, a small one goes to the first name. */
  lemma {:induction false} NumberRun(m: Machine, data: Data, first: Label, rest: Filters, a: Word, x: Word, mem: Word)
    ensures RunF(m, data, Prologue(first)[2..] + rest, a, x, mem) ==
      if data.nr > UPPER_NR_LIMIT then RunF(m, data, rest, SyscallNr(m, data), x, mem)
      else GoTo(m, data, Prologue(first)[4..] + rest, At(first), data.nr, x, mem)
  {
    hide RunF, GoTo;
    var mask := [Stmt(BPF_ALU | OpBits(BITAND) | BPF_K, Num(NR_MASK))];
    assert Prologue(first)[2..] + rest ==
      [Stmt(BPF_LD | BPF_W | BPF_ABS, NrField)] + ([TestK(GT, UPPER_NR_LIMIT, first)] + (mask + rest));
    assert mask == AluK(BITAND, Imm(NR_MASK), map[]) && Prologue(first)[4..] == mask;
    LoadFieldRun(m, data, NrField, [TestK(GT, UPPER_NR_LIMIT, first)] + (mask + rest), a, x, mem);
    TestKRun(m, data, GT, UPPER_NR_LIMIT, first, mask + rest, data.nr, x, mem);
    AluKLine(m, data, BITAND, Imm(NR_MASK), map[], rest, data.nr, x, mem);
  }

  lemma {:induction false} LoadFieldRun(m: Machine, data: Data, k: K, rest: Filters, a: Word, x: Word, mem: Word)
    requires k == NrField || k == ArchField
    ensures RunF(m, data, [Stmt(BPF_LD | BPF_W | BPF_ABS, k)] + rest, a, x, mem)
         == RunF(m, data, rest, if k == NrField then data.nr else data.arch, x, mem)
  {
    DecodeLines();
    hide Decode;
    assert ([Stmt(BPF_LD | BPF_W | BPF_ABS, k)] + rest)[1..] == rest;
  }

  lemma {:induction false} EpilogueRun(m: Machine, data: Data, defaultDeny: bool, a: Word, x: Word, mem: Word)
    ensures GoTo(m, data, Epilogue(defaultDeny), At(DENY_LABEL), a, x, mem) == Verdict(RetKill)
    ensures GoTo(m, data, Epilogue(defaultDeny), At(DefaultLabel(defaultDeny)), a, x, mem) ==
      RunF(m, data, Epilogue(defaultDeny), a, x, mem) == Verdict(if defaultDeny then RetKill else RetAllow)
    ensures EndsWithDefaults(Epilogue(defaultDeny), DefaultLabel(defaultDeny))
  {
    hide GoTo;
    var deny := [LabelLine(DENY_LABEL)] + [Ret(RetKill)];
    LabelRun(m, data, DENY_LABEL, [Ret(RetKill)], a, x, mem);
    if defaultDeny {
      assert Epilogue(true) == deny;
    } else {
      var allow := [LabelLine(ALLOW_LABEL)] + [Ret(RetAllow)];
      assert Epilogue(false) == allow + deny;
      GoToSkips(m, data, allow, deny, DENY_LABEL, a, x, mem);
      assert allow + deny == [LabelLine(ALLOW_LABEL)] + ([Ret(RetAllow)] + deny);
      LabelRun(m, data, ALLOW_LABEL, [Ret(RetAllow)] + deny, a, x, mem);
    }
  }

  /** Control that runs into the chain looks at the first number in turn, and behind the chain it
      runs into the default. */
  lemma {:induction false} ChainEntered(m: Machine, data: Data, es: seq<Entry>, defaultDeny: bool, nr: Word, x: Word,
                                        mem: Word)
    requires PlainEntries(es)
    ensures var s := Entered(es, nr);
      var dflt, tail := DefaultLabel(defaultDeny), Epilogue(defaultDeny);
      RunF(m, data, Chain(es, dflt) + tail, nr, x, mem) ==
      if s == [] then Verdict(if defaultDeny then RetKill else RetAllow)
      else RunF(m, data, s[0].body + (Chain(s[1..], dflt) + tail), nr, x, mem)
  {
    var dflt, tail := DefaultLabel(defaultDeny), Epilogue(defaultDeny);
    EpilogueRun(m, data, defaultDeny, nr, x, mem);
    hide RunF, GoTo, Dispatched, Epilogue, DefaultLabel, Behind;
    if es == [] {
      assert Chain(es, dflt) + tail == tail;
    } else {
      ChainHead(es, dflt, tail);
      hide Chain;
      LabelRun(m, data, Named(es[0].name), Behind(es, dflt, tail), nr, x, mem);
      EntryRun(m, data, es, dflt, tail, nr, x, mem);
      assert es[0] in es && PlainEntries(es[1..]);
      if es[0].nr != nr {
        ChainFinds(m, data, es[1..], dflt, es[0].body, tail, nr, x, mem);
      }
    }
  }

  lemma {:induction false} EnteredIsSuffix(es: seq<Entry>, nr: Word)
    ensures var s := Entered(es, nr); |s| <= |es| && s == es[|es| - |s|..] && (s != [] ==> s[0].nr == nr)
  {
    hide *;
    if es == [] {
      NothingDispatched(nr);
    } else {
      EnteredStep(es, nr);
      if es[0].nr != nr {
        DispatchedIsSuffix(es[1..], nr);
        DispatchedHasNumber(es[1..], nr);
        SuffixOfSuffix(es, es, Dispatched(es[1..], nr));
      }
    }
  }

  lemma {:induction false} EnteredStep(es: seq<Entry>, nr: Word)
    requires es != []
    ensures Entered(es, nr) == if es[0].nr == nr then es else Dispatched(es[1..], nr)
  {
    hide Dispatched;
  }

  lemma {:induction false} DispatchedHasNumber(es: seq<Entry>, nr: Word)
    ensures var s := Dispatched(es, nr); s != [] ==> s[0].nr == nr
  {
  }

  lemma {:induction false} ChosenIsSuffix(m: Machine, data: Data, es: seq<Entry>)
    ensures var s := Chosen(m, data, es);
      |s| <= |es| && s == es[|es| - |s|..] && (s != [] ==> s[0].nr == SyscallNr(m, data))
  {
    hide SyscallNr, Dispatched, Entered;
    DispatchedIsSuffix(es, SyscallNr(m, data));
    EnteredIsSuffix(es, SyscallNr(m, data));
  }

  /** With different names the chosen entry is the one that is looked up. */
  lemma {:induction false} ChosenIsLooked(m: Machine, data: Data, es: seq<Entry>)
    requires DifferentEntries(es)
    ensures Chosen(m, data, es) == Looked(es, SyscallNr(m, data))
  {
    hide SyscallNr, Dispatched, Entered, Looked;
    DispatchedIsFound(es, SyscallNr(m, data));
  }

  /** Where the number leads: a small one jumps to the first name, a large one has its x32 bit
      cleared and runs into the first entry. */
  function Chosen(m: Machine, data: Data, es: seq<Entry>): seq<Entry> {
    if data.nr > UPPER_NR_LIMIT then Entered(es, SyscallNr(m, data)) else Dispatched(es, SyscallNr(m, data))
  }

  /** The filter of a whole policy, exactly, whatever its checks are called and do: a wrong
      architecture is killed; otherwise the body that the number leads to runs, with the number
      in A, in front of the entries behind it; otherwise the default applies. */
  lemma {:induction false} ProgramRun(m: Machine, data: Data, es: seq<Entry>, defaultDeny: bool, a: Word, x: Word,
                                      mem: Word)
    requires es != [] && PlainEntries(es)
    ensures var s := Chosen(m, data, es);
      RunF(m, data, Program(es, defaultDeny), a, x, mem) ==
      if data.arch != T_ARCH then Verdict(RetKill)
      else if s == [] then Verdict(if defaultDeny then RetKill else RetAllow)
      else RunF(m, data, s[0].body + (Chain(s[1..], DefaultLabel(defaultDeny)) + Epilogue(defaultDeny)),
        SyscallNr(m, data), x, mem)
  {
    hide RunF, GoTo, Dispatched, Chosen;
    var dflt, first := DefaultLabel(defaultDeny), Named(es[0].name);
    var chain, tail := Chain(es, dflt), Epilogue(defaultDeny);
    PrologueRun(m, data, first, chain + tail, a, x, mem);
    if data.arch != T_ARCH {
      assert Prologue(first)[2..] + (chain + tail) == (Prologue(first)[2..] + chain) + tail;
      EpilogueRun(m, data, defaultDeny, data.arch, x, mem);
      GoToSkips(m, data, Prologue(first)[2..] + chain, tail, DENY_LABEL, data.arch, x, mem);
    } else {
      NativeRun(m, data, es, defaultDeny, data.arch, x, mem);
    }
  }

  /** The program behind the test of the architecture. */
  lemma {:induction false} NativeRun(m: Machine, data: Data, es: seq<Entry>, defaultDeny: bool, a: Word, x: Word,
                                     mem: Word)
    requires es != [] && PlainEntries(es)
    ensures var s := Chosen(m, data, es);
      var dflt, tail := DefaultLabel(defaultDeny), Epilogue(defaultDeny);
      RunF(m, data, Prologue(Named(es[0].name))[2..] + (Chain(es, dflt) + tail), a, x, mem) ==
      if s == [] then Verdict(if defaultDeny then RetKill else RetAllow)
      else RunF(m, data, s[0].body + (Chain(s[1..], dflt) + tail), SyscallNr(m, data), x, mem)
  {
    hide RunF, GoTo, Dispatched;
    var dflt, first := DefaultLabel(defaultDeny), Named(es[0].name);
    var chain, tail := Chain(es, dflt), Epilogue(defaultDeny);
    var nr := SyscallNr(m, data);
    NumberRun(m, data, first, chain + tail, a, x, mem);
    EpilogueRun(m, data, defaultDeny, nr, x, mem);
    if data.nr > UPPER_NR_LIMIT {
      ChainEntered(m, data, es, defaultDeny, nr, x, mem);
    } else {
      ChainFinds(m, data, es, dflt, Prologue(first)[4..], tail, nr, x, mem);
    }
  }

  // ---------- Checks that decide ----------

  /** No line of `rest` repeats a label of the body. */
  predicate LinesApart(body: Filters, rest: Filters) {
    forall f | f in body && f.LabelLine? :: f !in rest
  }

  /** Entered with the number in A, the lines return `v` whatever follows them. */
  ghost predicate Settles(m: Machine, data: Data, body: Filters, nr: Word, x: Word, v: Action) {
    forall rest, mem | LinesApart(body, rest) :: RunF(m, data, body + rest, nr, x, mem) == Verdict(v)
  }

  /** No body has a label of a later one. */
  predicate Separate(es: seq<Entry>) {
    forall i, j | 0 <= i < j < |es| :: LinesApart(es[i].body, es[j].body)
  }

  lemma {:induction false} ApartFromChain(es: seq<Entry>, dflt: Label, tail: Filters, body: Filters)
    requires NoNamedLabels(body) && (forall f | f in tail && f.LabelLine? :: f.lbl.Named?)
    requires forall e | e in es :: LinesApart(body, e.body)
    ensures LinesApart(body, Chain(es, dflt) + tail)
  {
    if es != [] {
      ApartFromChain(es[1..], dflt, tail, body);
      var next := Next(es[1..], dflt);
      assert es[0] in es;
      forall f | f in body && f.LabelLine?
        ensures f !in Chain(es, dflt) + tail
      {
        assert f !in EntryLines(es[0], next) && f !in Chain(es[1..], dflt) + tail;
        assert Chain(es, dflt) == EntryLines(es[0], next) + Chain(es[1..], dflt);
      }
    }
  }

  /** Where the body that the number leads to settles, it rules, whatever other checks there are. */
  lemma {:induction false} ChosenRules(m: Machine, data: Data, es: seq<Entry>, defaultDeny: bool, a: Word, x: Word,
                                       mem: Word, v: Action)
    requires es != [] && PlainEntries(es) && Separate(es)
    requires var s := Chosen(m, data, es); s != [] ==> Settles(m, data, s[0].body, SyscallNr(m, data), x, v)
    ensures RunF(m, data, Program(es, defaultDeny), a, x, mem) == Verdict(
      if data.arch != T_ARCH then RetKill
      else if Chosen(m, data, es) != [] then v
      else if defaultDeny then RetKill else RetAllow)
  {
    hide RunF, Chosen, SyscallNr, Chain, Epilogue, Program;
    ProgramRun(m, data, es, defaultDeny, a, x, mem);
    ChosenIsSuffix(m, data, es);
    var s := Chosen(m, data, es);
    if s != [] {
      var k := |es| - |s|;
      var dflt, tail := DefaultLabel(defaultDeny), Epilogue(defaultDeny);
      assert s[0] == es[k] && s[0] in es;
      forall e | e in s[1..]
        ensures LinesApart(s[0].body, e.body)
      {
        var j :| 0 <= j < |s[1..]| && s[1..][j] == e;
        assert es[k + 1 + j] == e;
      }
      hide Separate, LinesApart, Settles;
      TailIsDefaults(defaultDeny);
      ApartFromChain(s[1..], dflt, tail, s[0].body);
      SettlesHere(m, data, s[0].body, SyscallNr(m, data), x, v, Chain(s[1..], dflt) + tail, mem);
    }
  }

  lemma {:induction false} TailIsDefaults(defaultDeny: bool)
    ensures forall f | f in Epilogue(defaultDeny) && f.LabelLine? :: f.lbl.Named?
  {
  }

  lemma {:induction false} SettlesHere(m: Machine, data: Data, body: Filters, nr: Word, x: Word, v: Action,
                                       rest: Filters, mem: Word)
    requires Settles(m, data, body, nr, x, v) && LinesApart(body, rest)
    ensures RunF(m, data, body + rest, nr, x, mem) == Verdict(v)
  {
    hide RunF, LinesApart;
  }

  /** With different names the dispatch is a lookup: the first check with the number rules,
      whichever other checks there are, and otherwise the default. */
  lemma {:induction false} DispatchIsLookup(m: Machine, data: Data, es: seq<Entry>, defaultDeny: bool, a: Word,
                                            x: Word, mem: Word, v: Action)
    requires es != [] && PlainEntries(es) && DifferentEntries(es) && Separate(es)
    requires var k := FindEntry(es, SyscallNr(m, data)); k.Some? ==>
      Settles(m, data, es[k.value].body, SyscallNr(m, data), x, v)
    ensures RunF(m, data, Program(es, defaultDeny), a, x, mem) == Verdict(
      if data.arch != T_ARCH then RetKill
      else if FindEntry(es, SyscallNr(m, data)).Some? then v
      else if defaultDeny then RetKill else RetAllow)
  {
    hide RunF, FindEntry, Chosen, SyscallNr, Program, Settles, PlainEntries, DifferentEntries, Separate;
    ChosenIsLooked(m, data, es);
    ChosenRules(m, data, es, defaultDeny, a, x, mem, v);
  }

  /** The filter from its start, when the body need not settle. */
  lemma {:induction false} ProgramChooses(m: Machine, data: Data, es: seq<Entry>, defaultDeny: bool)
    requires es != [] && PlainEntries(es)
    ensures var s := Chosen(m, data, es);
      RunF(m, data, Program(es, defaultDeny), 0, 0, 0) ==
      if data.arch != T_ARCH then Verdict(RetKill)
      else if s == [] then Verdict(if defaultDeny then RetKill else RetAllow)
      else RunF(m, data, s[0].body + (Chain(s[1..], DefaultLabel(defaultDeny)) + Epilogue(defaultDeny)),
        SyscallNr(m, data), 0, 0)
  {
    hide RunF, Chosen, PlainEntries, Chain, Epilogue, Program, SyscallNr;
    ProgramRun(m, data, es, defaultDeny, 0, 0, 0);
  }
}
