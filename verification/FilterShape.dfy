/** Every jump of a policy's filter has its label ahead, and with different names no label stands
    twice. */
module FilterShape {
  import opened Syntax
  import opened Ir
  import opened Colour
  import opened Bpf
  import opened BpfGen
  import opened Dispatch
  import opened Check
  import opened EmitShape
  import opened CheckRun
  import opened Policy
  import opened PolicyRun
  import opened FilterGen

  // ---------- The filter ----------

  /** No label stands twice. */
  predicate UniqueLines(fs: Filters) {
    fs == [] || ((fs[0].LabelLine? ==> fs[0] !in fs[1..]) && UniqueLines(fs[1..]))
  }

  predicate TargetAhead(t: Target, rest: Filters, ext: set<Label>) {
    t.At? ==> LabelLine(t.lbl) in rest || t.lbl in ext
  }

  /** Every jump goes to a label ahead of it, or to one in `ext`. */
  predicate ForwardLines(fs: Filters, ext: set<Label>) {
    fs != [] ==>
      && (fs[0].JumpLine? ==> TargetAhead(fs[0].jt, fs[1..], ext) && TargetAhead(fs[0].jf, fs[1..], ext))
      && ForwardLines(fs[1..], ext)
  }

  lemma {:induction false} UniqueLinesConcat(a: Filters, b: Filters)
    requires UniqueLines(a) && UniqueLines(b) && forall l | LabelLine(l) in a :: LabelLine(l) !in b
    ensures UniqueLines(a + b)
  {
    if a == [] {
      assert a + b == b;
    } else {
      assert (a + b)[0] == a[0] && (a + b)[1..] == a[1..] + b;
      assert a[0].LabelLine? ==> LabelLine(a[0].lbl) in a;
      forall l | LabelLine(l) in a[1..]
        ensures LabelLine(l) !in b
      {
        assert LabelLine(l) in a;
      }
      UniqueLinesConcat(a[1..], b);
    }
  }

  lemma {:induction false} ForwardLinesConcat(a: Filters, b: Filters, mid: set<Label>, ext: set<Label>)
    requires ForwardLines(a, mid) && ForwardLines(b, ext)
    requires forall l | l in mid :: LabelLine(l) in b || l in ext
    ensures ForwardLines(a + b, ext)
  {
    if a == [] {
      assert a + b == b;
    } else {
      assert (a + b)[0] == a[0] && (a + b)[1..] == a[1..] + b;
      ForwardLinesConcat(a[1..], b, mid, ext);
    }
  }

  lemma {:induction false} ForwardLinesWiden(fs: Filters, ext: set<Label>, wider: set<Label>)
    requires ForwardLines(fs, ext) && ext <= wider
    ensures ForwardLines(fs, wider)
  {
    if fs != [] {
      ForwardLinesWiden(fs[1..], ext, wider);
    }
  }

  /** A jump to a label of the program goes ahead, if those that are lost are not in it. */
  lemma {:induction false} ShapeIsResolvable(fs: Filters, lost: set<Label>)
    requires ForwardLines(fs, lost) && fs != [] && !fs[|fs| - 1].LabelLine?
    requires forall l | l in lost :: LabelLine(l) !in fs
    ensures Resolvable(fs)
  {
    forall i | 0 <= i < |fs| && fs[i].JumpLine?
      ensures GoesAhead(fs, i, fs[i].jt) && GoesAhead(fs, i, fs[i].jf)
    {
      LineAhead(fs, i, lost);
    }
  }

  lemma {:induction false} LineAhead(fs: Filters, i: nat, ext: set<Label>)
    requires ForwardLines(fs, ext) && i < |fs| && fs[i].JumpLine?
    ensures TargetAhead(fs[i].jt, fs[i + 1..], ext) && TargetAhead(fs[i].jf, fs[i + 1..], ext)
  {
    if i > 0 {
      LineAhead(fs[1..], i - 1, ext);
      assert fs[1..][i..] == fs[i + 1..];
    }
  }

  predicate JumpsInto(f: Filter, ext: set<Label>) {
    f.JumpLine? ==> (f.jt.At? ==> f.jt.lbl in ext) && (f.jf.At? ==> f.jf.lbl in ext)
  }

  lemma {:induction false} UnlabelledLines(fs: Filters, ext: set<Label>)
    requires forall f | f in fs :: !f.LabelLine? && JumpsInto(f, ext)
    ensures UniqueLines(fs) && ForwardLines(fs, ext)
  {
    if fs != [] {
      assert fs[0] in fs;
      UnlabelledLines(fs[1..], ext);
    }
  }

  lemma {:induction false} LinesOfInst(i: Inst, st: GenState, idx: ArgIndex)
    requires GenInst(i, st, idx).Some?
    ensures var fs := GenInst(i, st, idx).value.0;
      if i.Mark? then fs == [LabelLine(i.lbl)]
      else forall f | f in fs :: !f.LabelLine? && JumpsInto(f, set l | l in i.Targets())
  {
    hide JumpLines, AluLines, UnaryLines, ReturnAction, InScratch;
    if i.Branch? {
      BranchJumps(i, st, idx);
    } else if i.Arith1? || i.Arith2? {
      OperationsDoNotJump(i, if Spills(i, st) then GenState(None, st.aVal) else st, idx);
    }
  }

  lemma {:induction false} BranchJumps(i: Inst, st: GenState, idx: ArgIndex)
    requires i.Branch? && JumpLines(i, st, idx).Some?
    ensures forall f | f in JumpLines(i, st, idx).value :: !f.LabelLine? && JumpsInto(f, set l | l in i.Targets())
  {
    hide OpBits, AddressMode, KField, InScratch;
    assert i.t in i.Targets() && i.f in i.Targets();
  }

  lemma {:induction false} OperationsDoNotJump(i: Inst, st: GenState, idx: ArgIndex)
    requires i.Arith1? || i.Arith2?
    ensures i.Arith1? ==> forall f | f in UnaryLines(i.op, i.a, idx) :: f.Stmt?
    ensures i.Arith2? && AluLines(i.op, i.a, i.b, st, idx).Some? ==>
      forall f | f in AluLines(i.op, i.a, i.b, st, idx).value :: f.Stmt?
  {
    hide OpBits, AddressMode, KField, InScratch;
  }

  lemma {:induction false} OneLabel(l: Label, fs: Filters, ext: set<Label>)
    requires UniqueLines(fs) && LabelLine(l) !in fs && ForwardLines(fs, ext)
    ensures UniqueLines([LabelLine(l)] + fs) && ForwardLines([LabelLine(l)] + fs, ext)
  {
    assert ([LabelLine(l)] + fs)[1..] == fs;
  }

  /** The filter generated for code has the code's labels, and inherits its shape. */
  lemma {:induction false} GenShape(c: Code, st: GenState, idx: ArgIndex, lost: set<Label>)
    requires UniqueMarks(c) && Forward(c, lost) && GenAll(c, st, idx).Some?
    ensures var fs := GenAll(c, st, idx).value;
      UniqueLines(fs) && ForwardLines(fs, lost) && forall l :: LabelLine(l) in fs <==> Mark(l) in c
  {
    if c != [] {
      hide GenInst;
      var i := c[0];
      var x := GenInst(i, st, idx).value;
      LinesOfInst(i, st, idx);
      GenShape(c[1..], x.1, idx, lost);
      var rest := GenAll(c[1..], x.1, idx).value;
      hide GenAll, UniqueLines, ForwardLines;
      if i.Mark? {
        OneLabel(i.lbl, rest, lost);
      } else {
        var ext := set l | l in i.Targets();
        UnlabelledLines(x.0, ext);
        UniqueLinesConcat(x.0, rest);
        ForwardLinesConcat(x.0, rest, ext, lost);
      }
    } else {
      UnlabelledLines([], lost);
    }
  }

  /** The filter of a check. */
  lemma {:induction false} BodyShape(b: Built)
    requires WellBuilt(b)
    ensures Ordered(b.bs)
    ensures var fs := FilterOf(b.ck, b.bs, b.n).value;
      && UniqueLines(fs) && ForwardLines(fs, LostLabels(b.bs))
      && (forall l | LabelLine(l) in fs :: l.Fresh? && Owns(b, l))
      && forall l | l in LostLabels(b.bs) :: LabelLine(l) !in fs && l.Fresh? && Owns(b, l)
  {
    CompiledIsGood(b.ck, b.at, b.bs, b.n);
    hide GoodBlocks, BlocksOf, FilterIr, ArgIndexOf, GenAll, WellTyped, FilterOf, Owns, LostLabels, UniqueLines,
      ForwardLines;
    var c, idx := FilterIr(b.bs, b.n), ArgIndexOf(b.ck.params);
    FilterIsGen(b.ck, b.bs, b.n);
    FilterIrShape(b.ck, b.at, b.bs, b.n);
    GenShape(c, EMPTY_STATE, idx, LostLabels(b.bs));
    forall l | LabelLine(l) in FilterOf(b.ck, b.bs, b.n).value
      ensures l.Fresh? && Owns(b, l)
    {
      FilterLabels(b, l);
    }
    forall l | l in LostLabels(b.bs)
      ensures LabelLine(l) !in FilterOf(b.ck, b.bs, b.n).value && l.Fresh? && Owns(b, l)
    {
      LostIsNotMarked(b.ck, b.at, b.bs, b.n, l);
      var j :| 1 <= j < |b.bs| && b.bs[j].label_ == l;
      OtherLabelsFresh(b.ck, b.at, b.bs, j);
      LabelsAreOwn(b, j);
    }
  }

  // ---------- The whole program ----------

  ghost predicate SomeOwner(ps: Builts, l: Label) {
    exists b | b in ps :: Owns(b, l)
  }

  ghost function LostOf(b: Built): set<Label> {
    if Ordered(b.bs) then LostLabels(b.bs) else {}
  }

  /** The labels of tracer blocks that the filters leave out although something goes there. */
  ghost function AllLost(ps: Builts): set<Label>
  {
    if ps == [] then {} else LostOf(ps[0]) + AllLost(ps[1..])
  }

  lemma {:induction false} SequenceIsBuilt(ps: Builts, at: Base, n: nat)
    requires InSequence(ps, at, n)
    ensures forall b | b in ps :: WellBuilt(b)
  {
    hide WellBuilt, BaseAfter, Table;
    if ps != [] {
      SequenceIsBuilt(ps[1..], BaseAfter(ps[0]), n + |Table(ps[0])|);
    }
  }

  /** The chain of the checks, label by label and jump by jump. */
  lemma {:induction false} ChainShape(ps: Builts, at: Base, n: nat, nrs: Numbers, dflt: Label)
    requires InSequence(ps, at, n) && dflt.Named? && forall b | b in ps :: WellBuilt(b)
    ensures var fs := Chain(Entries(ps, nrs), dflt);
      && (DistinctNames(ps) ==> UniqueLines(fs)) && ForwardLines(fs, {dflt} + AllLost(ps))
      && (forall l | LabelLine(l) in fs :: SomeOwner(ps, l))
      && (forall l | l in AllLost(ps) :: LabelLine(l) !in fs && l.Fresh? && SomeOwner(ps, l))
      && (ps != [] ==> fs != [] && fs[0] == LabelLine(Named(ps[0].ck.name)))
  {
    hide WellBuilt, FilterOf, Owns, UniqueLines, ForwardLines, SomeOwner, EntryLines, BaseAfter, Table, LostOf, EntryOf;
    if ps != [] {
      var es := Entries(ps, nrs);
      assert es[1..] == Entries(ps[1..], nrs);
      assert ps[0] in ps;
      ChainShape(ps[1..], BaseAfter(ps[0]), n + |Table(ps[0])|, nrs, dflt);
      var e, next, rest := es[0], Dispatch.Next(es[1..], dflt), Chain(es[1..], dflt);
      HeadShape(ps[0], nrs, next);
      EntryIs(ps[0], nrs);
      if ps[1..] != [] {
        assert WellBuilt(ps[1..][0]) && es[1..][0] == EntryOf(ps[1..][0], nrs);
        EntryIs(ps[1..][0], nrs);
      }
      assert EntryLines(e, next)[0] == LabelLine(Named(e.name)) by { EntryHead(e, next); }
      ChainJoins(ps, at, n, EntryLines(e, next), rest, next, dflt);
    } else {
      UnlabelledLines([], {dflt} + AllLost(ps));
    }
  }

  /** The lines of the first check in front of the chain of the others. */
  lemma {:induction false} ChainJoins(ps: Builts, at: Base, n: nat, head: Filters, rest: Filters, next: Label,
                                      dflt: Label)
    requires InSequence(ps, at, n) && ps != []
    requires var lost := LostOf(ps[0]);
      && UniqueLines(head) && ForwardLines(head, {next} + lost) && (forall l | LabelLine(l) in head :: Owns(ps[0], l))
      && forall l | l in lost :: LabelLine(l) !in head && l.Fresh? && Owns(ps[0], l)
    requires var more := AllLost(ps[1..]);
      && (DistinctNames(ps[1..]) ==> UniqueLines(rest)) && ForwardLines(rest, {dflt} + more)
      && (forall l | LabelLine(l) in rest :: SomeOwner(ps[1..], l))
      && forall l | l in more :: LabelLine(l) !in rest && l.Fresh? && SomeOwner(ps[1..], l)
    requires next == dflt || LabelLine(next) in rest
    ensures (DistinctNames(ps) ==> UniqueLines(head + rest)) && ForwardLines(head + rest, {dflt} + AllLost(ps))
    ensures forall l | LabelLine(l) in head + rest :: SomeOwner(ps, l)
    ensures forall l | l in AllLost(ps) :: LabelLine(l) !in head + rest && l.Fresh? && SomeOwner(ps, l)
  {
    hide WellBuilt, Owns, UniqueLines, ForwardLines, SomeOwner, InSequence, LostOf;
    var lost, all := LostOf(ps[0]), {dflt} + AllLost(ps);
    forall l: Label
      ensures l.Fresh? || DistinctNames(ps) ==> !(Owns(ps[0], l) && SomeOwner(ps[1..], l))
      ensures Owns(ps[0], l) || SomeOwner(ps[1..], l) ==> SomeOwner(ps, l)
    {
      HeadIsApart(ps, at, n, l);
      OwnerHereOrLater(ps, l);
    }
    if DistinctNames(ps) {
      DistinctTail(ps);
      UniqueLinesConcat(head, rest);
    }
    ForwardLinesWiden(rest, {dflt} + AllLost(ps[1..]), all);
    ForwardLinesConcat(head, rest, {next} + lost, all);
  }

  lemma {:induction false} DistinctTail(ps: Builts)
    requires DistinctNames(ps) && ps != []
    ensures DistinctNames(ps[1..])
  {
  }

  lemma {:induction false} EntryHead(e: Entry, next: Label)
    ensures EntryLines(e, next) != [] && EntryLines(e, next)[0] == LabelLine(Named(e.name))
  {
  }

  lemma {:induction false} OwnerHereOrLater(ps: Builts, l: Label)
    requires ps != []
    ensures Owns(ps[0], l) || SomeOwner(ps[1..], l) ==> SomeOwner(ps, l)
  {
    hide Owns;
    assert ps[0] in ps;
    assert forall b | b in ps[1..] :: b in ps;
  }

  lemma {:induction false} HeadIsApart(ps: Builts, at: Base, n: nat, l: Label)
    requires InSequence(ps, at, n) && ps != []
    ensures l.Fresh? || DistinctNames(ps) ==> !(Owns(ps[0], l) && SomeOwner(ps[1..], l))
  {
    hide Owns, InSequence;
    if SomeOwner(ps[1..], l) {
      var b :| b in ps[1..] && Owns(b, l);
      var j :| 0 <= j < |ps[1..]| && ps[1..][j] == b;
      assert ps[j + 1] == b;
      OneOwner(ps, at, n, 0, j + 1, l);
    }
  }

  lemma {:induction false} HeadShape(b: Built, nrs: Numbers, next: Label)
    requires WellBuilt(b)
    ensures var fs := EntryLines(EntryOf(b, nrs), next);
      && UniqueLines(fs) && ForwardLines(fs, {next} + LostOf(b))
      && (forall l | LabelLine(l) in fs :: Owns(b, l))
      && forall l | l in LostOf(b) :: LabelLine(l) !in fs && l.Fresh? && Owns(b, l)
  {
    hide WellBuilt, FilterOf, Owns, UniqueLines, ForwardLines, EntryLines, LostOf, EntryOf;
    BodyShape(b);
    EntryIs(b, nrs);
    LostIs(b);
    var e := EntryOf(b, nrs);
    EntryShape(b, e, next, LostOf(b));
    forall l | LabelLine(l) in EntryLines(e, next)
      ensures Owns(b, l) && l !in LostOf(b)
    {
      EntryLabels(b, e, next, l);
    }
  }

  lemma {:induction false} LostIs(b: Built)
    requires Ordered(b.bs)
    ensures LostOf(b) == LostLabels(b.bs)
  {
  }

  lemma {:induction false} EntryLabels(b: Built, e: Entry, next: Label, l: Label)
    requires e.name == b.ck.name && LabelLine(l) in EntryLines(e, next)
    requires forall l' | LabelLine(l') in e.body :: l'.Fresh? && Owns(b, l')
    ensures Owns(b, l) && (l.Fresh? ==> LabelLine(l) in e.body)
  {
  }

  lemma {:induction false} EntryShape(b: Built, e: Entry, next: Label, lost: set<Label>)
    requires e.name == b.ck.name && UniqueLines(e.body) && ForwardLines(e.body, lost)
    requires forall l | LabelLine(l) in e.body :: l.Fresh? && Owns(b, l)
    ensures UniqueLines(EntryLines(e, next)) && ForwardLines(EntryLines(e, next), {next} + lost)
  {
    hide Owns;
    var head, test, ext := [LabelLine(Named(e.name))], [TestK(EQ, e.nr, next)], {next} + lost;
    UnlabelledLines(test, ext);
    ForwardLinesWiden(e.body, lost, ext);
    UniqueLinesConcat(test, e.body);
    ForwardLinesConcat(test, e.body, ext, ext);
    OneLabel(Named(e.name), test + e.body, ext);
    assert EntryLines(e, next) == head + (test + e.body);
  }

  /** The filter of a policy is one whose labels can be resolved: every jump to one of them goes
      ahead, and a real line comes last; with different names each stands once. */
  lemma {:induction false} ProgramIsResolvable(ps: Builts, nrs: Numbers, defaultDeny: bool)
    requires WellBuiltPolicy(ps)
    ensures Resolvable(Program(Entries(ps, nrs), defaultDeny))
    ensures DistinctNames(ps) ==> UniqueLines(Program(Entries(ps, nrs), defaultDeny))
  {
    hide *;
    PolicyParts(ps, nrs);
    SequenceIsBuilt(ps, Base(0, 0), 0);
    var es := Entries(ps, nrs);
    var dflt, first := DefaultLabel(defaultDeny), Named(es[0].name);
    var chain, tail, lost := Chain(es, dflt), Epilogue(defaultDeny), AllLost(ps);
    DefaultIsNamed(defaultDeny);
    ChainShape(ps, Base(0, 0), 0, nrs, dflt);
    EpilogueShape(defaultDeny);
    forall l | LabelLine(l) in chain || l in lost
      ensures LabelLine(l) !in tail
    {
      OwnedIsNoDefault(ps, l);
    }
    if DistinctNames(ps) {
      UniqueLinesConcat(chain, tail);
    }
    ForwardLinesWiden(tail, {}, lost);
    ForwardLinesConcat(chain, tail, {dflt} + lost, lost);
    PrologueShape(first);
    if DistinctNames(ps) {
      UniqueLinesConcat(Prologue(first), chain + tail);
    }
    assert LabelLine(first) in chain;
    ForwardLinesConcat(Prologue(first), chain + tail, {DENY_LABEL, first}, lost);
    LastLine(Prologue(first), chain, tail);
    ShapeIsResolvable(Prologue(first) + (chain + tail), lost);
    ProgramParts(es, defaultDeny);
  }

  lemma {:induction false} PolicyParts(ps: Builts, nrs: Numbers)
    requires WellBuiltPolicy(ps)
    ensures ps != [] && InSequence(ps, Base(0, 0), 0) && Entries(ps, nrs)[0].name == ps[0].ck.name
  {
    hide InSequence;
  }

  lemma {:induction false} DefaultIsNamed(defaultDeny: bool)
    ensures DefaultLabel(defaultDeny).Named?
  {
  }

  lemma {:induction false} LastLine(a: Filters, b: Filters, c: Filters)
    requires c != []
    ensures var whole := a + (b + c); whole != [] && whole[|whole| - 1] == c[|c| - 1]
  {
  }

  lemma {:induction false} ProgramParts(es: seq<Entry>, defaultDeny: bool)
    requires es != []
    ensures Program(es, defaultDeny) ==
      Prologue(Named(es[0].name)) + (Chain(es, DefaultLabel(defaultDeny)) + Epilogue(defaultDeny))
  {
  }

  lemma {:induction false} OwnedIsNoDefault(ps: Builts, l: Label)
    requires WellBuiltPolicy(ps) && SomeOwner(ps, l)
    ensures l != DENY_LABEL && l != ALLOW_LABEL
  {
    hide InSequence, Owns;
    var b :| b in ps && Owns(b, l);
    OwnIsNoDefault(b, l);
  }

  lemma {:induction false} OwnIsNoDefault(b: Built, l: Label)
    requires Owns(b, l) && b.ck.name != "__deny" && b.ck.name != "__allow"
    ensures l != DENY_LABEL && l != ALLOW_LABEL
  {
  }

  lemma {:induction false} PrologueShape(first: Label)
    ensures UniqueLines(Prologue(first)) && ForwardLines(Prologue(first), {DENY_LABEL, first})
    ensures forall l :: LabelLine(l) !in Prologue(first)
  {
    UnlabelledLines(Prologue(first), {DENY_LABEL, first});
  }

  lemma {:induction false} EpilogueShape(defaultDeny: bool)
    ensures var fs := Epilogue(defaultDeny);
      && UniqueLines(fs) && ForwardLines(fs, {})
      && (forall l :: LabelLine(l) in fs ==> l == DENY_LABEL || l == ALLOW_LABEL)
      && LabelLine(DENY_LABEL) in fs && LabelLine(DefaultLabel(defaultDeny)) in fs
      && fs != [] && fs[|fs| - 1] == Ret(RetKill)
  {
    var kill := [Ret(RetKill)];
    UnlabelledLines(kill, {});
    OneLabel(DENY_LABEL, kill, {});
    var deny := [LabelLine(DENY_LABEL)] + kill;
    if !defaultDeny {
      var allow := [Ret(RetAllow)];
      UnlabelledLines(allow, {});
      hide UniqueLines, ForwardLines;
      UniqueLinesConcat(allow, deny);
      ForwardLinesConcat(allow, deny, {}, {});
      OneLabel(ALLOW_LABEL, allow + deny, {});
      assert Epilogue(false) == [LabelLine(ALLOW_LABEL)] + (allow + deny);
    }
  }
}
