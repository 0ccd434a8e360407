/** The compiler as a whole: `PolicyManager::IRGen`, then `PolicyManager::CodeGen`. */
module Compile {
  import opened Syntax
  import opened Ir
  import opened IrGen
  import opened Cfg
  import opened Colour
  import opened Bpf
  import opened Resolve
  import opened Dispatch
  import opened Lifter
  import opened Check
  import opened Declared
  import opened Policy
  import opened PolicyRun
  import opened FilterShape
  import opened AstGen
  import opened BpfIrGen
  import opened FilterGen
  import opened PolicyGen

  /** The counters behind the last check. */
  function BaseAt(ps: Builts, at: Base): Base {
    if ps == [] then at else BaseAfter(ps[|ps| - 1])
  }

  lemma {:induction false} SameEnd(ps: Builts, at: Base)
    requires ps != []
    ensures BaseAt(ps[1..], BaseAfter(ps[0])) == BaseAt(ps, at)
  {
    hide BaseAfter;
  }

  /** One more check joins the sequence. */
  lemma {:induction false} SequenceGrows(ps: Builts, at: Base, n: nat, b: Built)
    requires InSequence(ps, at, n) && WellBuilt(b) && b.at == BaseAt(ps, at) && b.n == n + |JmpTable(ps)|
    ensures InSequence(ps + [b], at, n) && JmpTable(ps + [b]) == JmpTable(ps) + Table(b)
  {
    hide WellBuilt, BaseAfter, Table;
    if ps == [] {
      assert [b][1..] == [] && JmpTable([b][1..]) == [];
      assert [] + [b] == [b];
    } else {
      hide BaseAt;
      assert (ps + [b])[0] == ps[0] && (ps + [b])[1..] == ps[1..] + [b];
      SameEnd(ps, at);
      SequenceGrows(ps[1..], BaseAfter(ps[0]), n + |Table(ps[0])|, b);
    }
  }

  /** Its text goes to the labels that are in the table when it is generated. */
  lemma {:induction false} TextsGrow(ps: Builts, before: seq<Label>, b: Built)
    ensures TextsAfter(ps + [b], before) == TextsAfter(ps, before) + TextAfter(b, before + JmpTable(ps))
  {
    hide Table, TextAfter;
    if ps == [] {
      assert [b][1..] == [] && TextsAfter([], before + Table(b)) == [];
      assert [] + [b] == [b] && before + JmpTable([]) == before;
    } else {
      var after := before + Table(ps[0]);
      assert (ps + [b])[0] == ps[0] && (ps + [b])[1..] == ps[1..] + [b];
      TextsGrow(ps[1..], after, b);
      assert after + JmpTable(ps[1..]) == before + JmpTable(ps);
    }
  }

  lemma {:induction false} TracerTextGrows(ps: Builts, b: Built)
    ensures TracerText(ps + [b]) == TracerText(ps) + TextAfter(b, JmpTable(ps))
  {
    hide JmpTable, TextAfter, TextsAfter;
    TextsGrow(ps, [], b);
    assert [] + JmpTable(ps) == JmpTable(ps);
  }

  // ---------- IRGen for all checks ----------

  /** A check with its blocks, waiting for code generation. */
  datatype Front = Front(ck: Check, at: Base, bs: Blocks, defs: Defs)

  ghost predicate FrontDone(f: Front) {
    VariablesDeclared(f.ck.params, RawCode(f.ck, f.at)) && BlocksOf(f.ck, f.at, f.bs) && f.defs == DefsFor(f.ck, f.at)
  }

  /** Where check `k` starts: behind the code of the checks before it. */
  function StartAt(cks: seq<Check>, k: nat): Base
    requires k <= |cks|
  {
    if k == 0 then Base(0, 0)
    else
      var at := StartAt(cks, k - 1);
      var g := StmtCode(cks[k - 1].body, at.labels, at.ids);
      Base(g.labels, g.ids)
  }

  /** Check `k` reads or assigns a variable that is not a parameter. */
  predicate Undeclared(cks: seq<Check>, k: nat)
    requires k < |cks|
  {
    !StmtDeclared(cks[k].params, cks[k].body)
  }

  /** The checks in order, each starting where the one before it ended. */
  ghost predicate FrontsInOrder(fronts: seq<Front>, cks: seq<Check>) {
    && |fronts| <= |cks|
    && forall k | 0 <= k < |fronts| :: fronts[k].ck == cks[k] && fronts[k].at == StartAt(cks, k) && FrontDone(fronts[k])
  }

  /** `PolicyManager::IRGen`: nothing exactly if some check uses an undeclared variable. */
  method IRGenAll(cks: seq<Check>) returns (fronts: Option<seq<Front>>)
    requires forall ck | ck in cks :: WellTyped(ck.body)
    ensures fronts.None? <==> exists k | 0 <= k < |cks| :: Undeclared(cks, k)
    ensures fronts.Some? ==> |fronts.value| == |cks| && FrontsInOrder(fronts.value, cks)
  {
    assert forall ck | ck in cks :: WellTyped(ck.body);
    hide *;
    var mgr := new CodeGenMgr();
    var done: seq<Front> := [];
    NoFronts(cks);
    var n := 0;
    while n < |cks|
      invariant n == |done| <= |cks| && FrontsInOrder(done, cks)
      invariant Base(mgr.labelCount, mgr.ids) == StartAt(cks, n)
      invariant forall k | 0 <= k < n :: !Undeclared(cks, k)
    {
      var ck, at := cks[n], Base(mgr.labelCount, mgr.ids);
      assert ck in cks;
      var graph, defs := CheckIRGen(ck, mgr);
      IsUndeclared(cks, n);
      if graph.None? {
        return None;
      }
      var front := Front(ck, at, graph.value.bs, defs);
      FrontIsDone(front);
      FrontJoins(done, cks, front);
      NextStart(cks, n);
      done := done + [front];
      n := n + 1;
    }
    return Some(done);
  }

  lemma {:induction false} NoFronts(cks: seq<Check>)
    ensures FrontsInOrder([], cks) && StartAt(cks, 0) == Base(0, 0)
  {
  }

  lemma {:induction false} IsUndeclared(cks: seq<Check>, k: nat)
    requires k < |cks|
    ensures Undeclared(cks, k) <==> !VariablesDeclared(cks[k].params, RawCode(cks[k], StartAt(cks, k)))
  {
    hide VariablesDeclared, RawCode;
    DeclaredIff(cks[k], StartAt(cks, k));
  }

  lemma {:induction false} NextStart(cks: seq<Check>, k: nat)
    requires k < |cks|
    ensures BaseAfter(Built(cks[k], StartAt(cks, k), [], 0)) == StartAt(cks, k + 1)
  {
    hide StmtCode;
  }

  lemma {:induction false} FrontIsDone(f: Front)
    requires VariablesDeclared(f.ck.params, RawCode(f.ck, f.at)) && BlocksOf(f.ck, f.at, f.bs)
    requires f.defs == DefsFor(f.ck, f.at)
    ensures FrontDone(f)
  {
  }

  lemma {:induction false} FrontJoins(done: seq<Front>, cks: seq<Check>, f: Front)
    requires FrontsInOrder(done, cks) && |done| < |cks| && f.ck == cks[|done|] && FrontDone(f)
    requires f.at == StartAt(cks, |done|)
    ensures FrontsInOrder(done + [f], cks)
  {
    hide FrontDone, StartAt;
  }

  // ---------- CodeGen for all checks ----------

  predicate DifferentNames(cks: seq<Check>) {
    forall i, j | 0 <= i < j < |cks| :: cks[i].name != cks[j].name
  }

  lemma {:induction false} NamesDiffer(ps: Builts)
    ensures DifferentNames(Checks(ps)) <==> DistinctNames(ps)
  {
    var cks := Checks(ps);
    hide Checks;
    if DifferentNames(cks) {
      forall i, j | 0 <= i < j < |ps|
        ensures ps[i].ck.name != ps[j].ck.name
      {
        assert cks[i].name != cks[j].name;
      }
    }
  }

  /** What code generation made of the first checks. */
  ghost predicate Generated(ps: Builts, cks: seq<Check>, entries: seq<Entry>, text: Lines, traced: seq<TracedCheck>,
                            nrs: Numbers) {
    && |ps| <= |cks| && InSequence(ps, Base(0, 0), 0)
    && (forall k | 0 <= k < |ps| :: ps[k].ck == cks[k] && cks[k].name in nrs)
    && BaseAt(ps, Base(0, 0)) == StartAt(cks, |ps|)
    && entries == Entries(ps, nrs) && text == TracerText(ps) && SeesPolicy(traced, ps)
  }

  /** The next check, with its blocks, before its code is generated. */
  ghost predicate IsNext(ps: Builts, cks: seq<Check>, b: Built) {
    && |ps| < |cks| && b.ck == cks[|ps|] && b.at == StartAt(cks, |ps|) && b.n == |JmpTable(ps)|
    && WellTyped(b.ck.body) && VariablesDeclared(b.ck.params, RawCode(b.ck, b.at)) && BlocksOf(b.ck, b.at, b.bs)
  }

  lemma {:induction false} NextIsGood(ps: Builts, cks: seq<Check>, b: Built)
    requires IsNext(ps, cks, b)
    ensures GoodBlocks(b.ck, b.at, b.bs) && b.bs != [] && Ordered(b.bs)
    ensures FilterOf(b.ck, b.bs, b.n).Some? ==> WellBuilt(b)
  {
    hide RawCode, WellTyped, BlocksOf, GoodBlocks, VariablesDeclared, FilterOf, Ordered;
    BlocksAreGood(b.ck, b.at, b.bs);
    GoodIsOrdered(b.ck, b.at, b.bs);
  }

  lemma {:induction false} NextBuilt(ps: Builts, cks: seq<Check>, entries: seq<Entry>, text: Lines,
                                     traced: seq<TracedCheck>, nrs: Numbers, b: Built, labels: set<Label>)
    requires Generated(ps, cks, entries, text, traced, nrs) && IsNext(ps, cks, b) && WellBuilt(b) && b.ck.name in nrs
    requires forall l :: l in labels <==> HasTracerBlock(b, l)
    ensures Generated(ps + [b], cks, entries + [EntryOf(b, nrs)], text + TextAfter(b, JmpTable(ps)),
      traced + [TracedCheck(b.ck.name, labels)], nrs)
    ensures JmpTable(ps + [b]) == JmpTable(ps) + Table(b)
  {
    hide *;
    GeneratedParts(ps, cks, entries, text, traced, nrs);
    NextParts(ps, cks, b);
    SequenceGrows(ps, Base(0, 0), 0, b);
    TracerTextGrows(ps, b);
    EntriesGrow(ps, nrs, b);
    NextStart(cks, |ps|);
    SameBase(b, Built(cks[|ps|], StartAt(cks, |ps|), [], 0));
    SeesOneMore(traced, ps, b, labels);
    PartsGenerate(ps + [b], cks, entries + [EntryOf(b, nrs)], text + TextAfter(b, JmpTable(ps)),
      traced + [TracedCheck(b.ck.name, labels)], nrs);
  }

  lemma {:induction false} NextParts(ps: Builts, cks: seq<Check>, b: Built)
    requires IsNext(ps, cks, b)
    ensures |ps| < |cks| && b.ck == cks[|ps|] && b.at == StartAt(cks, |ps|) && b.n == |JmpTable(ps)|
    ensures WellTyped(b.ck.body) && BlocksOf(b.ck, b.at, b.bs)
  {
  }

  lemma {:induction false} SeesOneMore(traced: seq<TracedCheck>, ps: Builts, b: Built, labels: set<Label>)
    requires SeesPolicy(traced, ps) && forall l :: l in labels <==> HasTracerBlock(b, l)
    ensures SeesPolicy(traced + [TracedCheck(b.ck.name, labels)], ps + [b])
  {
    hide HasTracerBlock;
  }

  lemma {:induction false} GeneratedParts(ps: Builts, cks: seq<Check>, entries: seq<Entry>, text: Lines,
                                          traced: seq<TracedCheck>, nrs: Numbers)
    requires Generated(ps, cks, entries, text, traced, nrs)
    ensures |ps| <= |cks| && InSequence(ps, Base(0, 0), 0) && BaseAt(ps, Base(0, 0)) == StartAt(cks, |ps|)
    ensures forall k | 0 <= k < |ps| :: ps[k].ck == cks[k] && cks[k].name in nrs
    ensures entries == Entries(ps, nrs) && text == TracerText(ps) && SeesPolicy(traced, ps)
  {
  }

  lemma {:induction false} PartsGenerate(ps: Builts, cks: seq<Check>, entries: seq<Entry>, text: Lines,
                                         traced: seq<TracedCheck>, nrs: Numbers)
    requires 0 < |ps| <= |cks| && InSequence(ps, Base(0, 0), 0)
    requires forall k | 0 <= k < |ps| :: ps[k].ck == cks[k] && cks[k].name in nrs
    requires BaseAfter(ps[|ps| - 1]) == StartAt(cks, |ps|)
    requires entries == Entries(ps, nrs) && text == TracerText(ps) && SeesPolicy(traced, ps)
    ensures Generated(ps, cks, entries, text, traced, nrs)
  {
    hide InSequence, Entries, TracerText, SeesPolicy, BaseAfter, StartAt;
  }

  lemma {:induction false} EntriesGrow(ps: Builts, nrs: Numbers, b: Built)
    ensures Entries(ps + [b], nrs) == Entries(ps, nrs) + [EntryOf(b, nrs)]
  {
    hide EntryOf;
  }

  lemma {:induction false} SameBase(b: Built, b': Built)
    requires b.ck == b'.ck && b.at == b'.at
    ensures BaseAfter(b) == BaseAfter(b')
  {
  }

  lemma {:induction false} BuiltParts(b: Built, before: seq<Label>, nrs: Numbers)
    requires WellBuilt(b) && b.bs != [] && Ordered(b.bs)
    ensures EntryOf(b, nrs) == Entry(b.ck.name, NumberOf(nrs, b.ck.name), FilterOf(b.ck, b.bs, b.n).value)
    ensures Table(b) == TableOf(b.bs, b.n)
    ensures TextAfter(b, before) == TextOf(JobOf(b.ck, b.at, b.bs, b.n).(iface := PointsIn(b.bs, before + Table(b))))
    ensures forall l :: HasTracerBlock(b, l) <==> exists k: nat | k < |b.bs| && Coloured(b.bs, k) :: b.bs[k].label_ == l
  {
    hide FilterOf, TextOf, JobOf, TableOf, Coloured;
    assert PointsOf(b, before) == PointsIn(b.bs, before + Table(b));
  }

  /** Why code generation stops: a check is called like no syscall, or an assertion of the
      filter's code generator fails on it. */
  ghost predicate Stops(b: Built, nrs: Numbers)
    requires b.bs != [] && Ordered(b.bs)
  {
    b.ck.name !in nrs || FilterOf(b.ck, b.bs, b.n).None?
  }

  /** The filters and the text of the checks in turn, with one hand-off table for all; nothing
      if generation stops at a check, and then `stop` is that check. */
  method CodeGenAll(cks: seq<Check>, fronts: seq<Front>, nrs: Numbers, tables: HandOffs)
    returns (done: bool, entries: seq<Entry>, text: Lines, traced: seq<TracedCheck>, ghost ps: Builts,
      ghost stop: Built)
    requires |fronts| == |cks| && FrontsInOrder(fronts, cks)
    requires forall ck | ck in cks :: WellTyped(ck.body)
    requires tables.Valid() && tables.retDataToLabel == []
    modifies tables
    ensures done ==> |ps| == |cks| && Generated(ps, cks, entries, text, traced, nrs)
    ensures done ==> tables.Valid() && tables.retDataToLabel == JmpTable(ps)
    ensures !done ==>
      InSequence(ps, Base(0, 0), 0) && IsNext(ps, cks, stop) && stop.bs != [] && Ordered(stop.bs) && Stops(stop, nrs)
  {
    hide *;
    entries, text, traced, ps := [], [], [], [];
    stop := Built(Check("", [], Empty, {}), Base(0, 0), [], 0);
    NothingGenerated(cks, nrs);
    var n := 0;
    while n < |cks|
      invariant n == |ps| <= |cks| && Generated(ps, cks, entries, text, traced, nrs)
      invariant tables.Valid() && tables.retDataToLabel == JmpTable(ps)
    {
      var f := fronts[n];
      ghost var b := Built(f.ck, f.at, f.bs, tables.retData);
      assert cks[n] in cks;
      TableLength(tables);
      FrontIsNext(ps, cks, fronts, b);
      NextIsGood(ps, cks, b);
      GeneratedParts(ps, cks, entries, text, traced, nrs);
      if f.ck.name !in nrs {
        stop := b;
        StopsHere(b, nrs);
        return false, entries, text, traced, ps, stop;
      }
      var filters, code, labels, _ := CheckCodeGen(f.ck, f.at, f.bs, f.defs, tables);
      if filters.None? {
        stop := b;
        StopsHere(b, nrs);
        return false, entries, text, traced, ps, stop;
      }
      BuiltParts(b, JmpTable(ps), nrs);
      NextBuilt(ps, cks, entries, text, traced, nrs, b, labels);
      entries := entries + [Entry(f.ck.name, NumberOf(nrs, f.ck.name), filters.value)];
      text := text + code;
      traced := traced + [TracedCheck(f.ck.name, labels)];
      ps := ps + [b];
      n := n + 1;
    }
    done := true;
  }

  lemma {:induction false} StopsHere(b: Built, nrs: Numbers)
    requires b.bs != [] && Ordered(b.bs) && (b.ck.name !in nrs || FilterOf(b.ck, b.bs, b.n).None?)
    ensures Stops(b, nrs)
  {
  }

  lemma {:induction false} FrontIsNext(ps: Builts, cks: seq<Check>, fronts: seq<Front>, b: Built)
    requires |fronts| == |cks| && FrontsInOrder(fronts, cks) && |ps| < |cks| && WellTyped(cks[|ps|].body)
    requires var f := fronts[|ps|]; b.ck == f.ck && b.at == f.at && b.bs == f.bs && b.n == |JmpTable(ps)|
    ensures IsNext(ps, cks, b) && fronts[|ps|].defs == DefsFor(b.ck, b.at)
  {
    hide WellTyped, VariablesDeclared, BlocksOf, StartAt, RawCode, DefsFor;
    assert FrontDone(fronts[|ps|]);
  }

  lemma {:induction false} TableLength(tables: HandOffs)
    requires tables.Valid()
    ensures tables.retData == |tables.retDataToLabel|
  {
  }

  lemma {:induction false} NothingGenerated(cks: seq<Check>, nrs: Numbers)
    ensures Generated([], cks, [], [], [], nrs) && JmpTable([]) == []
  {
  }

  // ---------- The compiler ----------

  /** What the compiler writes out: the filter, the tracer's text, and its two tables. */
  datatype Output = Output(filter: Filters, text: Lines, jmpTable: seq<Label>, startTable: seq<Option<string>>)

  /** What was written is what the system-level theorem speaks of. */
  ghost predicate Outputs(out: Output, ps: Builts, nrs: Numbers, defaultDeny: bool)
    requires ps != []
  {
    && out.filter == ResolvedFilter(ps, nrs, defaultDeny) && out.text == TracerText(ps) && out.jmpTable == JmpTable(ps)
    && |out.startTable| == |out.jmpTable|
    && forall d | 0 <= d < |out.jmpTable| ::
      var owner := OwnerOf(ps, out.jmpTable[d]);
      out.startTable[d] == if owner.Some? then Some(ps[owner.value].ck.name) else None
  }

  lemma {:induction false} IsPolicy(ps: Builts, cks: seq<Check>)
    requires cks != [] && |ps| == |cks| && InSequence(ps, Base(0, 0), 0)
    requires forall k | 0 <= k < |ps| :: ps[k].ck == cks[k]
    requires forall ck | ck in cks :: ck.name != "__deny" && ck.name != "__allow"
    ensures WellBuiltPolicy(ps) && Checks(ps) == cks
  {
    hide InSequence;
    assert forall k | 0 <= k < |ps| :: cks[k] in cks;
  }

  /** The compiler, for every list of well-typed checks, also if a name is repeated: nothing exactly if
      a check uses an undeclared variable, is called like no syscall, or fails an assertion of
      the code generator, and otherwise the filter, the text and the tables of all checks. */
  method CompilePolicy(cks: seq<Check>, nrs: Numbers, defaultDeny: bool)
    returns (out: Option<Output>, ghost ps: Builts, ghost stop: Built)
    requires cks != [] && forall ck | ck in cks :: WellTyped(ck.body)
    requires forall ck | ck in cks :: ck.name != "__deny" && ck.name != "__allow"
    ensures out.Some? ==> WellBuiltPolicy(ps) && Checks(ps) == cks && Outputs(out.value, ps, nrs, defaultDeny)
    ensures out.Some? ==> (forall k | 0 <= k < |cks| :: !Undeclared(cks, k)) && forall ck | ck in cks :: ck.name in nrs
    ensures out.None? ==>
      || (exists k | 0 <= k < |cks| :: Undeclared(cks, k))
      || (InSequence(ps, Base(0, 0), 0) && IsNext(ps, cks, stop) && stop.bs != [] && Ordered(stop.bs) &&
        Stops(stop, nrs))
  {
    hide FrontsInOrder, InSequence, Resolvable, Program, Resolved, Entries, TracerText, JmpTable, OwnerOf, SeesPolicy,
      Undeclared, Stops, IsNext, StartAt;
    ps, stop := [], Built(Check("", [], Empty, {}), Base(0, 0), [], 0);
    var fronts := IRGenAll(cks);
    if fronts.None? {
      return None, ps, stop;
    }
    var tables := new HandOffs();
    var done, entries, text, traced;
    done, entries, text, traced, ps, stop := CodeGenAll(cks, fronts.value, nrs, tables);
    if !done {
      return None, ps, stop;
    }
    IsPolicy(ps, cks);
    hide WellBuiltPolicy;
    ProgramIsResolvable(ps, nrs, defaultDeny);
    var filters := BPFProgram(entries, defaultDeny);
    var jmpTable, startTable := PtraceTables(traced, tables);
    forall d | 0 <= d < |jmpTable|
      ensures startTable[d] == var owner := OwnerOf(ps, jmpTable[d]);
        if owner.Some? then Some(ps[owner.value].ck.name) else None
    {
      StartTableOwns(traced, ps, jmpTable[d]);
    }
    out := Some(Output(filters.lines, text, jmpTable, startTable));
  }

  /** The compiler's output rules as the policy says on every syscall whose number leads to the
      check that is looked up, as it always does with different names, on which nothing that is
      performed has become something else, where every offset fits its field and no more
      hand-offs are numbered than the return value has bits for. */
  lemma {:induction false} CompiledRules(m: Machine, out: Output, ps: Builts, nrs: Numbers, defaultDeny: bool,
                                         data: Data)
    requires WellBuiltPolicy(ps) && Outputs(out, ps, nrs, defaultDeny)
    requires DistinctNames(ps) || (TracersApart(ps) && LookedUp(m, ps, nrs, data))
    requires m.jumps && PolicyAsMeant(m, ps, nrs, data) && (forall ck | ck in Checks(ps) :: |ck.params| <= |data.args|)
    requires NarrowOffsets(out.filter) && |out.jmpTable| <= 0x1_0000
    ensures Observed(m, ps, nrs, defaultDeny, data) == Some(Intended(m, Checks(ps), nrs, defaultDeny, data))
    ensures match RunF(m, data, Assembled(out.filter), 0, 0, 0)
      case Verdict(RetAllow) => Intended(m, Checks(ps), nrs, defaultDeny, data) == Ruling(Allow, data.args)
      case Verdict(RetKill) => Intended(m, Checks(ps), nrs, defaultDeny, data) == Ruling(Deny, data.args)
      case Verdict(RetTrace(d)) => Traced(m, ps, d, data.args) == Some(Intended(m, Checks(ps), nrs, defaultDeny, data))
      case _ => false
  {
    hide RunF, Assembled, ResolvedFilter, Intended, Traced, NarrowOffsets, JmpTable, PolicyAsMeant, LookedUp,
      TracersApart, DistinctNames, InSequence;
    assert forall b | b in ps :: b.ck in Checks(ps) by { CheckIsListed(ps); }
    if DistinctNames(ps) {
      NamesApart(ps, Base(0, 0), 0);
      NamesAreLookedUp(m, ps, nrs, data);
    }
    PolicyRules(m, ps, nrs, defaultDeny, data);
  }

  lemma {:induction false} CheckIsListed(ps: Builts)
    ensures forall b | b in ps :: b.ck in Checks(ps)
  {
    forall b | b in ps
      ensures b.ck in Checks(ps)
    {
      var k :| 0 <= k < |ps| && ps[k] == b;
      assert Checks(ps)[k] == b.ck;
    }
  }
}
