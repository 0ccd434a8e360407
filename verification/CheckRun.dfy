/** One check end to end: its filter, and the tracer's text where the filter hands off,
    rule as the body does. */
module CheckRun {
  import opened Syntax
  import opened Ir
  import opened Cfg
  import opened Colour
  import opened Split
  import opened Bpf
  import opened BpfGen
  import opened BpfSim
  import opened Reading
  import opened Generated
  import opened Preserved
  import opened Lifter
  import opened LifterProof
  import opened Layout
  import opened LiftedRun
  import opened LiftedStart
  import opened BlockFacts
  import opened Check
  import opened EmitShape
  import opened Dispatch

  // ---------- What is asked of a check ----------

  /** The check has been compiled: its variables are declared, and no assertion of the filter's
      code generator fails. */
  ghost predicate Compiled(ck: Check, at: Base, bs: Blocks, n: nat) {
    && WellTyped(ck.body) && VariablesDeclared(ck.params, RawCode(ck, at)) && BlocksOf(ck, at, bs)
    && bs != [] && Ordered(bs) && FilterOf(ck, bs, n).Some?
  }

  /** If the filter's code hands off on these arguments, the tracer's text is right from there. */
  ghost predicate HandOffRight(m: Machine, x: Job, n: nat, env: Env)
    requires x.bs != [] && Ordered(x.bs) && Ready(x)
  {
    var o := Run(m, FilterIr(x.bs, n), env, map[]);
    o.Returned? && o.val.ToPtrace? && n <= o.val.data < n + |TableOf(x.bs, n)| ==>
      var j := Find(x.bs, 0, TableOf(x.bs, n)[o.val.data - n]);
      j.Some? && j.value in x.lifted ==> TextRight(m, x, j.value, env)
  }

  /** On these arguments, with the registers as they are when the check is entered, nothing that
      is performed has become something else: the body decides and misses no deleted jump, the
      filter reads its instructions right, and the tracer's text is right. */
  ghost predicate AsMeant(m: Machine, ck: Check, at: Base, bs: Blocks, n: nat, env: Env, r: Regs)
    requires bs != [] && Ordered(bs)
  {
    && Exec(m, ck.body, env).Stop? && JumpsHarmless(m.(jumps := false), ck.body, env)
    && StartsAtTop(bs) && ReadsRight(m, ArgIndexOf(ck.params), FilterIr(bs, n), env, map[], r)
    && Ready(JobOf(ck, at, bs, n)) && HandOffRight(m, JobOf(ck, at, bs, n), n, env)
  }

  // ---------- The lifter's job ----------

  lemma {:induction false} ColourFollows(ck: Check, at: Base, bs: Blocks, k: nat, i: Inst, l: Label)
    requires GoodBlocks(ck, at, bs) && k < |bs| && Coloured(bs, k) && i in bs[k].insts && l in i.Targets()
    ensures Find(bs, k + 1, l).Some? && Coloured(bs, Find(bs, k + 1, l).value)
    ensures Start(bs, Find(bs, k + 1, l).value) == 0
  {
    assert GoodBlock(ck, at, bs, k) && GoodInst(ck, at, bs, k, i);
    hide IsCfg, GoodBlock, GoodInst, Coloured, Start;
    ColourRunsOn(bs, Named(ck.name), CheckCode(ck, at), k, i, l);
  }

  lemma {:induction false} BlockKnown(ck: Check, at: Base, bs: Blocks, k: nat)
    requires GoodBlocks(ck, at, bs) && k < |bs|
    ensures AllKnown(DefsFor(ck, at), bs[k].insts) && DefsMatch(DefsFor(ck, at), bs[k].insts)
    ensures PlainCode(bs[k].insts) && NoMarks(bs[k].insts) && DecidesOnly(bs[k].insts)
    ensures Readable(ArgIndexOf(ck.params), bs[k].insts)
  {
    assert bs[k] in bs && GoodBlock(ck, at, bs, k);
    assert forall i | i in bs[k].insts :: GoodInst(ck, at, bs, k, i);
    hide DefsFor, BlocksOf, Ordered, DistinctLabels, BlocksDisciplined, Find;
  }

  lemma {:induction false} BlockIsLiftable(ck: Check, at: Base, bs: Blocks, k: nat)
    requires GoodBlocks(ck, at, bs) && k < |bs|
    ensures Liftable(DefsFor(ck, at), bs[k].insts)
  {
    BlockKnown(ck, at, bs, k);
    assert GoodBlock(ck, at, bs, k);
    hide GoodInst, DefsFor, NoMarks, PlainCode, DefsMatch;
  }

  /** The tracer's part of every check with declared variables can be lifted. */
  lemma {:induction false} JobIsRunnable(ck: Check, at: Base, bs: Blocks, n: nat)
    requires GoodBlocks(ck, at, bs)
    ensures Ordered(bs) && bs != [] && Runnable(JobOf(ck, at, bs, n)) && Ready(JobOf(ck, at, bs, n))
  {
    hide *;
    GoodIsOrdered(ck, at, bs);
    var x := JobOf(ck, at, bs, n);
    JobFacts(ck, at, bs, n);
    forall k | k in x.lifted
      ensures AllKnown(x.defs, bs[k].insts) && Liftable(x.defs, bs[k].insts)
    {
      BlockKnown(ck, at, bs, k);
      BlockIsLiftable(ck, at, bs, k);
    }
    forall k, i, l | k in x.lifted && k < |x.bs| && i in bs[k].insts && l in i.Targets()
      ensures Find(bs, k + 1, l).Some? && Find(bs, k + 1, l).value in x.lifted
    {
      ColourFollows(ck, at, bs, k, i, l);
    }
    RunnableFrom(x);
  }

  lemma {:induction false} JobFacts(ck: Check, at: Base, bs: Blocks, n: nat)
    requires GoodBlocks(ck, at, bs) && Ordered(bs) && bs != []
    ensures var x := JobOf(ck, at, bs, n);
      && x.bs == bs && x.defs == DefsFor(ck, at) && Grounded(x.defs)
      && forall k :: k in x.lifted <==> 0 <= k < |bs| && Coloured(bs, k) && Start(bs, k) == 0
  {
    hide Coloured, Start, DefsFor, BlocksOf, GoodBlock, TableOf, Ordered;
  }

  lemma {:induction false} RunnableFrom(x: Job)
    requires (forall k | k in x.lifted :: k < |x.bs|) && Grounded(x.defs) && DistinctLabels(x.bs) && MarkFree(x.bs)
    requires forall k | k in x.lifted :: AllKnown(x.defs, x.bs[k].insts) && Liftable(x.defs, x.bs[k].insts)
    requires forall k, i, l | k in x.lifted && k < |x.bs| && i in x.bs[k].insts && l in i.Targets() ::
      Find(x.bs, k + 1, l).Some? && Find(x.bs, k + 1, l).value in x.lifted
    ensures Runnable(x) && Ready(x)
  {
    hide AllKnown, Liftable, MarkFree, DistinctLabels, Find;
  }

  // ---------- The filter's code ----------

  lemma {:induction false} BlockEmits(ck: Check, at: Base, bs: Blocks, k: nat, n: nat, i: Inst)
    requires GoodBlocks(ck, at, bs) && k < |bs| && i in EmitBlock(bs, k, n).code
    ensures Typed(i) && OperandsDeclared(ArgIndexOf(ck.params), i)
  {
    BlockKnown(ck, at, bs, k);
    hide GoodBlocks, Only, Start, Targeted, ArgIndexOf;
  }

  lemma {:induction false} EmitReadable(ck: Check, at: Base, bs: Blocks, k: nat, n: nat)
    requires GoodBlocks(ck, at, bs) && k <= |bs|
    ensures Ordered(bs) && Readable(ArgIndexOf(ck.params), Emit(bs, k, n).code)
    decreases |bs| - k
  {
    hide GoodBlocks, EmitBlock, OperandsDeclared, Typed, ArgIndexOf;
    GoodIsOrdered(ck, at, bs);
    if k < |bs| {
      var x := EmitBlock(bs, k, n);
      EmitSplit(bs, k, n);
      EmitReadable(ck, at, bs, k + 1, n + |x.table|);
      forall i | i in x.code
        ensures Typed(i) && OperandsDeclared(ArgIndexOf(ck.params), i)
      {
        BlockEmits(ck, at, bs, k, n, i);
      }
    }
  }

  lemma {:induction false} FilterReadable(ck: Check, at: Base, bs: Blocks, n: nat)
    requires GoodBlocks(ck, at, bs)
    ensures Ordered(bs) && bs != [] && Readable(ArgIndexOf(ck.params), FilterIr(bs, n))
  {
    hide GoodBlocks, ArgIndexOf, Emit;
    GoodIsOrdered(ck, at, bs);
    if !Only(bs, 0) {
      EmitReadable(ck, at, bs, 0, n);
    }
  }

  /** Every label of the table is the label of a block that only the tracer runs. */
  lemma {:induction false} TableIsOnly(bs: Blocks, k: nat, n: nat, l: Label)
    requires Ordered(bs) && k <= |bs| && l in Emit(bs, k, n).table
    ensures exists j: nat | j < |bs| :: Only(bs, j) && bs[j].label_ == l
    decreases |bs| - k
  {
    hide Only;
    EmitSplit(bs, k, n);
    var x := EmitBlock(bs, k, n);
    if l !in x.table {
      TableIsOnly(bs, k + 1, n + |x.table|, l);
    } else {
      assert Only(bs, k);
    }
  }

  lemma {:induction false} HandOffIsOnly(bs: Blocks, n: nat, l: Label)
    requires Ordered(bs) && bs != [] && l in TableOf(bs, n)
    ensures exists j: nat | j < |bs| :: Only(bs, j) && bs[j].label_ == l
  {
    hide Only, Emit;
    if !Only(bs, 0) {
      TableIsOnly(bs, 0, n, l);
    }
  }

  // ---------- Returns of the filter's code ----------

  /** What a run returns is what some return of the code says. */
  lemma {:induction false} ReturnsFromCode(m: Machine, c: Code, env: Env, tmp: Temps)
    requires Run(m, c, env, tmp).Returned?
    ensures Return(Run(m, c, env, tmp).val) in c
    decreases |c|
  {
    hide JumpTo, Compare;
    var i, rest := c[0], c[1..];
    assert forall i' | i' in rest :: i' in c;
    if i.Mark? {
      ReturnsFromCode(m, rest, env, map[]);
    } else if i.Store? {
      ReturnsFromCode(m, rest, env[i.dst := Val(i.src, env, tmp).value], map[]);
    } else if i.Computes() {
      ReturnsFromCode(m, rest, env, tmp[i.id := Result(m, i, env, tmp).value]);
    } else if i.Branch? {
      var to := if Compare(i.op, Val(i.a, env, tmp).value, Val(i.b, env, tmp).value) then i.t else i.f;
      JumpReturnsFromCode(m, rest, to, env);
    } else if i.Jump? {
      if m.jumps {
        JumpReturnsFromCode(m, rest, i.t, env);
      } else {
        ReturnsFromCode(m, rest, env, tmp);
      }
    }
  }

  lemma {:induction false} JumpReturnsFromCode(m: Machine, c: Code, l: Label, env: Env)
    requires JumpTo(m, c, l, env).Returned?
    ensures Return(JumpTo(m, c, l, env).val) in c
    decreases |c|
  {
    hide Run;
    ReturnsFromCode(m, After(c, l), env, map[]);
    AfterWithin(c, l);
  }

  /** A run that performs no call and no store leaves the arguments alone. */
  lemma {:induction false} QuietNoChange(m: Machine, c: Code, env: Env, tmp: Temps)
    requires Quiet(m, c, env, tmp) && Run(m, c, env, tmp).Returned?
    ensures Run(m, c, env, tmp).env == env
    decreases |c|
  {
    hide Compare;
    var i, rest := c[0], c[1..];
    if i.Mark? {
      QuietNoChange(m, rest, env, map[]);
    } else if i.Computes() {
      QuietNoChange(m, rest, env, tmp[i.id := Result(m, i, env, tmp).value]);
    } else if i.Branch? {
      var to := if Compare(i.op, Val(i.a, env, tmp).value, Val(i.b, env, tmp).value) then i.t else i.f;
      QuietNoChange(m, After(rest, to), env, map[]);
    } else if i.Jump? {
      if m.jumps {
        QuietNoChange(m, After(rest, i.t), env, map[]);
      } else {
        QuietNoChange(m, rest, env, tmp);
      }
    }
  }

  /** A hand-off that the filter makes is one of its table, numbered from `n`. */
  lemma {:induction false} HandOffInTable(bs: Blocks, n: nat, d: nat)
    requires Ordered(bs) && bs != [] && AllDecideOnly(bs) && Return(ToPtrace(d)) in BpfIr(bs, n).code
    ensures n <= d < n + |TableOf(bs, n)|
  {
    hide Only, Emit;
    if !Only(bs, 0) {
      var i :| 0 <= i < |Emit(bs, 0, n).code| && Emit(bs, 0, n).code[i] == Return(ToPtrace(d));
      NumbersInStep(bs, 0, n, i, d);
    }
  }

  /** What is read right performs no call and no store. */
  lemma {:induction false} RightIsQuiet(m: Machine, idx: ArgIndex, c: Code, env: Env, tmp: Temps, r: Regs)
    requires ReadsRight(m, idx, c, env, tmp, r)
    ensures Quiet(m, c, env, tmp)
    decreases |c|
  {
    hide ReadTest, Compare, ReadArith, Result, XAfter, RightTest;
    if c != [] {
      var i, rest := c[0], c[1..];
      if i.Mark? {
        RightIsQuiet(m, idx, rest, env, map[], r);
      } else if i.Branch? {
        if Val(i.a, env, tmp).Some? && Val(i.b, env, tmp).Some? {
          var to := if Compare(i.op, Val(i.a, env, tmp).value, Val(i.b, env, tmp).value) then i.t else i.f;
          if Mark(to) in rest {
            RightIsQuiet(m, idx, After(rest, to), env, map[],
              Regs(Val(InA(i), env, tmp).value, XAfter(i, env, tmp, r.x)));
          }
        }
      } else if i.Computes() && Result(m, i, env, tmp).Some? {
        var v := Result(m, i, env, tmp).value;
        RightIsQuiet(m, idx, rest, env, tmp[i.id := v], Regs(v, XAfter(i, env, tmp, r.x)));
      }
    }
  }

  // ---------- The filter of a check ----------

  /** What the filter's code returns, and what the tracer makes of it, is one decision. */
  lemma {:induction false} FilterIrRun(m: Machine, ck: Check, at: Base, bs: Blocks, n: nat, before: seq<Label>,
                                       env: Env)
    requires WellTyped(ck.body) && GoodBlocks(ck, at, bs) && bs != [] && Ordered(bs) && m.jumps && n == |before|
    requires StartsAtTop(bs) && Quiet(m, FilterIr(bs, n), env, map[])
    requires Exec(m, ck.body, env).Stop? && JumpsHarmless(m.(jumps := false), ck.body, env)
    ensures var o := Run(m, FilterIr(bs, n), env, map[]);
      var flow := Exec(m, ck.body, env);
      && o.Returned? && o.env == env
      && Resume(m, bs, before + TableOf(bs, n), env, o) == RunFrom(m, bs, 0, env) ==
         Returned(Decision(flow.perm), flow.env)
      && (o.val.ToPtrace? ==> n <= o.val.data < n + |TableOf(bs, n)|)
  {
    GoodIsOrdered(ck, at, bs);
    hide Run, Exec, RunFrom, Only, Emit, WellTyped, IsCfg, CheckCode, RawCode, DefsFor, Quiet, JumpsHarmless;
    var c, e := FilterIr(bs, n), BpfIr(bs, n);
    BpfIrDiscipline(bs, n);
    assert e.code == [Mark(bs[0].label_)] + c;
    QuietMark(m, bs[0].label_, c, env, map[]);
    assert AllDecideOnly(bs) by { AllBlocksDecide(ck, at, bs); }
    SplitPreserves(m, bs, Named(ck.name), CheckCode(ck, at), before, env);
    RunMark(m, bs[0].label_, c, env, map[]);
    BlocksRun(m, ck, at, bs, env);
    QuietNoChange(m, c, env, map[]);
    ReturnsFromCode(m, c, env, map[]);
    var o := Run(m, c, env, map[]);
    if o.val.ToPtrace? {
      HandOffInTable(bs, n, o.val.data);
    }
  }

  lemma {:induction false} AllBlocksDecide(ck: Check, at: Base, bs: Blocks)
    requires GoodBlocks(ck, at, bs)
    ensures AllDecideOnly(bs)
  {
    hide GoodBlocks, DecidesOnly;
    forall b | b in bs
      ensures DecidesOnly(b.insts)
    {
      var k :| 0 <= k < |bs| && bs[k] == b;
      BlockKnown(ck, at, bs, k);
    }
  }

  /** Entered with the number in A, the filter of a check returns what its code returns, whatever
      follows it, if the code is read right. */
  lemma {:induction false} FilterSettles(m: Machine, ck: Check, at: Base, bs: Blocks, n: nat, data: Data, env: Env,
                                         r: Regs)
    requires GoodBlocks(ck, at, bs) && bs != [] && Ordered(bs) && FilterOf(ck, bs, n).Some?
    requires Matches(env, ArgIndexOf(ck.params), data) && Run(m, FilterIr(bs, n), env, map[]).Returned?
    requires ReadsRight(m, ArgIndexOf(ck.params), FilterIr(bs, n), env, map[], r)
    ensures Settles(m, data, FilterOf(ck, bs, n).value, r.a, r.x, ReturnAction(Run(m, FilterIr(bs, n), env, map[]).val))
  {
    hide Run, RunF, GoodBlocks, ReturnAction, ArgIndexOf, GenAll, FilterIr, ReadsRight, Read, Matches, FilterOf;
    var c, idx := FilterIr(bs, n), ArgIndexOf(ck.params);
    FilterIsGen(ck, bs, n);
    RightReads(m, idx, c, env, map[], r);
    var fs, v := GenAll(c, EMPTY_STATE, idx).value, ReturnAction(Run(m, c, env, map[]).val);
    forall rest, mem | LinesApart(fs, rest)
      ensures RunF(m, data, fs + rest, r.a, r.x, mem) == Verdict(v)
    {
      var mem' := FilterDoes(m, ck, at, bs, n, data, env, r, rest, mem);
    }
  }

  lemma {:induction false} FilterIsGen(ck: Check, bs: Blocks, n: nat)
    requires Ordered(bs) && bs != []
    ensures FilterOf(ck, bs, n) == GenAll(FilterIr(bs, n), EMPTY_STATE, ArgIndexOf(ck.params))
  {
  }

  /** Whatever the check: in front of lines that do not repeat its labels, its filter does what
      the reading of its code says. */
  lemma {:induction false} FilterDoes(m: Machine, ck: Check, at: Base, bs: Blocks, n: nat, data: Data, env: Env,
                                      r: Regs, rest: Filters, mem: Word) returns (mem': Word)
    requires GoodBlocks(ck, at, bs) && bs != [] && Ordered(bs) && FilterOf(ck, bs, n).Some?
    requires Matches(env, ArgIndexOf(ck.params), data) && LinesApart(FilterOf(ck, bs, n).value, rest)
    ensures Does(m, data, Read(m, ArgIndexOf(ck.params), FilterIr(bs, n), env, map[], r), rest, mem',
      RunF(m, data, FilterOf(ck, bs, n).value + rest, r.a, r.x, mem))
  {
    hide RunF, GoodBlocks, ArgIndexOf, GenAll, FilterIr, Read, Matches, FilterOf, Does, Readable, Disciplined,
      Ascending, UniqueMarks;
    var c, idx := FilterIr(bs, n), ArgIndexOf(ck.params);
    FilterIsGen(ck, bs, n);
    FilterReadable(ck, at, bs, n);
    FilterIrShape(ck, at, bs, n);
    FilterIrOrder(ck, at, bs, n);
    forall i | i in c && i.Mark?
      ensures LabelLine(i.lbl) !in rest
    {
      GenLabels(c, EMPTY_STATE, idx, i.lbl);
      assert LabelLine(i.lbl) in GenAll(c, EMPTY_STATE, idx).value;
    }
    mem' := FilterReads(m, data, idx, c, [], EMPTY_STATE, rest, env, map[], r, mem, at.ids);
  }

  // ---------- The check ----------

  /** Behind label `l` the text makes the decision and leaves the arguments of `flow`. */
  predicate Continues(m: Machine, text: Lines, l: Label, env: Env, flow: Flow) {
    && flow.Stop? && LabelC(l) in text
    && RunC(m, AfterLabel(text, l), env, env) == Done(flow.perm, flow.env)
  }

  /** What the action of the filter, together with the tracer's text, means for a check whose
      hand-offs are numbered from `n`. */
  predicate Rules(m: Machine, act: Action, text: Lines, table: seq<Label>, n: nat, env: Env, flow: Flow) {
    match act
    case RetAllow => flow == Stop(Allow, env)
    case RetKill => flow == Stop(Deny, env)
    case RetTrace(d) => n <= d < n + |table| && Continues(m, text, table[d - n], env, flow)
  }

  /** A hand-off continues in the tracer's text where the run of the blocks stands. */
  lemma {:induction false} HandOffContinues(m: Machine, x: Job, n: nat, l: Label, env: Env, flow: Flow)
    requires m.jumps && Runnable(x) && Ready(x) && x.bs != [] && Ordered(x.bs) && x.lifted == LiftedSet(x.bs)
    requires StartsAtTop(x.bs)
    requires l in TableOf(x.bs, n) && l in x.iface && flow.Stop? && Find(x.bs, 0, l).Some?
    requires Find(x.bs, 0, l).value in x.lifted ==> TextRight(m, x, Find(x.bs, 0, l).value, env)
    requires RunFrom(m, x.bs, Find(x.bs, 0, l).value, env) == Returned(Decision(flow.perm), flow.env)
    ensures Continues(m, TextOf(x), l, env, flow)
  {
    hide Runnable, RunC, RunFrom, Only, BpfIr, ProgramLines, Coloured, Start, Refs, WellFormedJob, TextRight;
    HandOffIsOnly(x.bs, n, l);
    var j: nat :| j < |x.bs| && Only(x.bs, j) && x.bs[j].label_ == l;
    RunnableIsReady(x);
    assert Find(x.bs, 0, l) == Some(j);
    OnlyIsColoured(x.bs, j);
    LiftedFrom(m, x, j, env);
  }

  /** The tracer's side of a check: where the filter hands off with number `d`, the text goes
      on as the body does. */
  lemma {:induction false} TracerContinues(m: Machine, ck: Check, at: Base, bs: Blocks, n: nat, d: nat,
                                           before: seq<Label>, env: Env, flow: Flow)
    requires m.jumps && GoodBlocks(ck, at, bs) && bs != [] && Ordered(bs) && StartsAtTop(bs)
    requires n == |before| && n <= d < n + |TableOf(bs, n)| && flow.Stop?
    requires Resume(m, bs, before + TableOf(bs, n), env, Returned(ToPtrace(d), env)) ==
      Returned(Decision(flow.perm), flow.env)
    requires Ready(JobOf(ck, at, bs, n))
    requires var j := Find(bs, 0, TableOf(bs, n)[d - n]);
      j.Some? && j.value in JobOf(ck, at, bs, n).lifted ==> TextRight(m, JobOf(ck, at, bs, n), j.value, env)
    ensures Continues(m, TextOf(JobOf(ck, at, bs, n)), TableOf(bs, n)[d - n], env, flow)
  {
    hide GoodBlocks, Runnable, RunFrom, BpfIr, Continues, DefsFor, LiftedSet, Only, StartsAtTop, TextRight,
      WellFormedJob;
    JobIsRunnable(ck, at, bs, n);
    var l := TableOf(bs, n)[d - n];
    assert (before + TableOf(bs, n))[d] == l;
    HandOffContinues(m, JobOf(ck, at, bs, n), n, l, env, flow);
  }

  /** End to end for one check, on arguments on which nothing that is performed has become
      something else: the filter decides as the body does, and where it hands off the tracer's
      text decides as the body does and leaves the arguments as the body does. */
  lemma {:induction false} CheckRules(m: Machine, ck: Check, at: Base, bs: Blocks, n: nat, data: Data, env: Env,
                                      r: Regs) returns (act: Action)
    requires Compiled(ck, at, bs, n) && AsMeant(m, ck, at, bs, n, env, r)
    requires m.jumps && n + |TableOf(bs, n)| <= 0x1_0000
    requires Matches(env, ArgIndexOf(ck.params), data)
    ensures Settles(m, data, FilterOf(ck, bs, n).value, r.a, r.x, act)
    ensures Rules(m, act, TextOf(JobOf(ck, at, bs, n)), TableOf(bs, n), n, env, Exec(m, ck.body, env))
  {
    hide *;
    CompiledIsGood(ck, at, bs, n);
    var c, idx := FilterIr(bs, n), ArgIndexOf(ck.params);
    MeantParts(m, ck, at, bs, n, env, r);
    var before := seq(n, _ => Named(""));
    RightIsQuiet(m, idx, c, env, map[], r);
    FilterIrRun(m, ck, at, bs, n, before, env);
    FilterSettles(m, ck, at, bs, n, data, env, r);
    var o, flow := Run(m, c, env, map[]), Exec(m, ck.body, env);
    act := ReturnAction(o.val);
    if o.val.ToPtrace? {
      HandOffRules(m, ck, at, bs, n, o, before, env, flow);
    } else {
      ResumeDecided(m, bs, before + TableOf(bs, n), env, o);
      DecidedRules(o, TextOf(JobOf(ck, at, bs, n)), TableOf(bs, n), n, env, flow, m);
    }
  }

  lemma {:induction false} CompiledIsGood(ck: Check, at: Base, bs: Blocks, n: nat)
    requires Compiled(ck, at, bs, n)
    ensures GoodBlocks(ck, at, bs) && WellTyped(ck.body) && bs != [] && Ordered(bs) && FilterOf(ck, bs, n).Some?
  {
    hide WellTyped, VariablesDeclared, BlocksOf, GoodBlocks, FilterOf, Ordered;
    BlocksAreGood(ck, at, bs);
  }

  lemma {:induction false} MeantParts(m: Machine, ck: Check, at: Base, bs: Blocks, n: nat, env: Env, r: Regs)
    requires bs != [] && Ordered(bs) && AsMeant(m, ck, at, bs, n, env, r)
    ensures Exec(m, ck.body, env).Stop? && JumpsHarmless(m.(jumps := false), ck.body, env)
    ensures StartsAtTop(bs) && ReadsRight(m, ArgIndexOf(ck.params), FilterIr(bs, n), env, map[], r)
    ensures Ready(JobOf(ck, at, bs, n)) && JobOf(ck, at, bs, n).bs == bs
    ensures HandOffRight(m, JobOf(ck, at, bs, n), n, env)
  {
    hide HandOffRight, ReadsRight, Ready, Exec, JumpsHarmless, StartsAtTop, LiftedSet;
  }

  lemma {:induction false} DecidedRules(o: Outcome, text: Lines, table: seq<Label>, n: nat, env: Env, flow: Flow,
                                        m: Machine)
    requires o.Returned? && o.val.Decision? && o.env == env && flow.Stop?
    requires o == Returned(Decision(flow.perm), flow.env)
    ensures Rules(m, ReturnAction(o.val), text, table, n, env, flow)
  {
  }

  lemma {:induction false} HandOffRules(m: Machine, ck: Check, at: Base, bs: Blocks, n: nat, o: Outcome,
                                        before: seq<Label>, env: Env, flow: Flow)
    requires m.jumps && GoodBlocks(ck, at, bs) && bs != [] && Ordered(bs) && StartsAtTop(bs) && n == |before|
    requires flow.Stop?
    requires o == Run(m, FilterIr(bs, n), env, map[]) && o.Returned? && o.val.ToPtrace? && o.env == env
    requires n <= o.val.data < n + |TableOf(bs, n)| <= 0x1_0000
    requires Resume(m, bs, before + TableOf(bs, n), env, o) == Returned(Decision(flow.perm), flow.env)
    requires Ready(JobOf(ck, at, bs, n)) && JobOf(ck, at, bs, n).bs == bs
    requires HandOffRight(m, JobOf(ck, at, bs, n), n, env)
    ensures Rules(m, ReturnAction(o.val), TextOf(JobOf(ck, at, bs, n)), TableOf(bs, n), n, env, flow)
  {
    hide GoodBlocks, Run, FilterIr, Continues, TextOf, TableOf, DefsFor, Resume, Ordered, StartsAtTop, TextRight,
      LiftedSet, Ready;
    assert o == Returned(ToPtrace(o.val.data), env);
    TracerContinues(m, ck, at, bs, n, o.val.data, before, env, flow);
  }

  // ---------- The supported fragment ----------

  /** The filter's code is within what the accumulator machine expresses as it was meant. */
  predicate FilterSupported(bs: Blocks, n: nat)
    requires Ordered(bs) && bs != []
  {
    (forall i | i in FilterIr(bs, n) :: Meant(i)) && Shallow(FilterIr(bs, n), [])
  }

  /** The tracer's blocks are within what the lifter expresses as it was meant: each assignment
      survives its write-back, and a block that runs on is followed by the next one. */
  predicate TracerSupported(x: Job)
    requires Ready(x)
  {
    forall k | k in x.lifted :: SafeCode(x.copied, x.defs, x.bs[k].insts) && FollowsOn(x, k)
  }

  /** Checks that are as they are meant whatever the arguments are. */
  ghost predicate Supported(ck: Check, at: Base, bs: Blocks, n: nat) {
    && bs != [] && Ordered(bs) && StartsAtTop(bs) && FilterSupported(bs, n)
    && Ready(JobOf(ck, at, bs, n)) && TracerSupported(JobOf(ck, at, bs, n))
  }

  /** The filter of a supported check can be generated. */
  lemma {:induction false} SupportedCompiles(ck: Check, at: Base, bs: Blocks, n: nat)
    requires WellTyped(ck.body) && VariablesDeclared(ck.params, RawCode(ck, at)) && BlocksOf(ck, at, bs)
    requires Supported(ck, at, bs, n)
    ensures Compiled(ck, at, bs, n)
  {
    BlocksAreGood(ck, at, bs);
    hide GoodBlocks, TracerSupported, BlocksOf, WellTyped, Disciplined, Shallow, Ready, Ascending;
    var c := FilterIr(bs, n);
    FilterIrOrder(ck, at, bs, n);
    FilterIsGen(ck, bs, n);
    forall i | i in c
      ensures !i.Effect()
    {
      MeantKinds(i);
    }
    AssertionsHoldIffShallow(c, [], EMPTY_STATE, ArgIndexOf(ck.params));
  }

  /** Where the filter's instructions are meant or are `<` and `<=` with a literal, a check is as it
      is meant on exactly those arguments on which no `<` or `<=` compares equal operands. */
  lemma {:induction false} MeantIffUntied(m: Machine, ck: Check, at: Base, bs: Blocks, n: nat, env: Env, r: Regs)
    requires Compiled(ck, at, bs, n) && StartsAtTop(bs) && (forall i | i in FilterIr(bs, n) :: Meant(i) || Less(i))
    requires Ready(JobOf(ck, at, bs, n)) && TracerSupported(JobOf(ck, at, bs, n)) && Commutes(m)
    requires Decides(ck.body) && ThenBranchesDecide(ck.body)
    ensures AsMeant(m, ck, at, bs, n, env, r) <==> Untied(m, FilterIr(bs, n), env, map[])
  {
    assert GoodBlocks(ck, at, bs) by { BlocksAreGood(ck, at, bs); }
    hide GoodBlocks, Run, Exec, FilterIr, Meant, Less, Commutes, WellTyped, Decides, ThenBranchesDecide,
      JumpsHarmless, ReadsRight, Untied, TextRight, RawCode, BlocksOf, StartsAtTop, Shallow, Runnable, SafeCode,
      FollowsOn, DefsFor, TableOf;
    var x := JobOf(ck, at, bs, n);
    DecidesStops(m, ck.body, env);
    DecidingIsHarmless(m.(jumps := false), ck.body, env);
    RightIffUntied(m, ArgIndexOf(ck.params), FilterIr(bs, n), env, map[], r);
    JobIsRunnable(ck, at, bs, n);
    hide Ready;
    forall j | j in x.lifted && j < |x.bs|
      ensures TextRight(m, x, j, env)
    {
      SafeTextIsRight(m, x, j, env);
    }
  }

  /** A supported check whose body decides and misses no jump is as it is meant. */
  lemma {:induction false} SupportedIsMeant(m: Machine, ck: Check, at: Base, bs: Blocks, n: nat, env: Env, r: Regs)
    requires Compiled(ck, at, bs, n) && Supported(ck, at, bs, n) && Commutes(m)
    requires Decides(ck.body) && ThenBranchesDecide(ck.body)
    ensures AsMeant(m, ck, at, bs, n, env, r)
  {
    hide AsMeant, Compiled, Commutes, FilterIr, Meant, Ready, TracerSupported, StartsAtTop, Decides, ThenBranchesDecide,
      Shallow, Untied, TableOf;
    MeantIsUntied(m, FilterIr(bs, n), env, map[]);
    MeantIffUntied(m, ck, at, bs, n, env, r);
  }

  lemma {:induction false} ResumeDecided(m: Machine, bs: Blocks, table: seq<Label>, env: Env, o: Outcome)
    requires o.Returned? && o.val.Decision?
    ensures Resume(m, bs, table, env, o) == o
  {
  }

  // ---------- No reading is lost ----------

  lemma {:induction false} BehindLabel(c: Code, st: seq<nat>, l: Label)
    requires Mark(l) in c && Disciplined(c, st) && Forward(c, {})
    ensures Disciplined(After(c, l), []) && Forward(After(c, l), {})
  {
    hide Step;
    if Mark(l) !in c[1..] || c[0] == Mark(l) {
      assert c[0] == Mark(l);
      MarkClears(l, st);
    } else {
      BehindLabel(c[1..], Step(c[0], st).value, l);
    }
  }

  lemma {:induction false} MarkClears(l: Label, st: seq<nat>)
    requires Step(Mark(l), st).Some?
    ensures Step(Mark(l), st) == Some([])
  {
  }

  /** Code whose branch targets are all there is never lost. */
  lemma {:induction false} NeverLost(m: Machine, idx: ArgIndex, c: Code, st: seq<nat>, env: Env, tmp: Temps, r: Regs)
    requires Disciplined(c, st) && Forward(c, {}) && forall t | t in st :: t in tmp
    ensures !Read(m, idx, c, env, tmp, r).Lost?
    decreases |c|
  {
    hide ReadTest, ReadArith, XAfter, Step;
    if c != [] {
      var i, rest := c[0], c[1..];
      match i {
        case Mark(_) => StepKeeps(i, st); NeverLost(m, idx, rest, [], env, map[], r);
        case Return(_) =>
        case Call(id, _, _) => StepAdds(i, st); NeverLost(m, idx, rest, Step(i, st).value, env, tmp[id := r.a], r);
        case Store(_, _) => StepKeeps(i, st); NeverLost(m, idx, rest, [], env, map[], r);
        case Jump(_) => StepKeeps(i, st); NeverLost(m, idx, rest, [], env, map[], r);
        case Branch(op, a, b, t, f) =>
          BranchKnows(i, st, env, tmp, idx);
          assert t in i.Targets() && f in i.Targets();
          var u, k := Val(InA(i), env, tmp).value, Beside(idx, i, env, tmp).value;
          var l := if ReadTest(op, Other(i).Mem?, u, k) then t else f;
          BehindLabel(rest, Step(i, st).value, l);
          NeverLost(m, idx, After(rest, l), [], env, map[], Regs(u, XAfter(i, env, tmp, r.x)));
        case _ =>
          StepAdds(i, st);
          var v := ReadArith(m, idx, i, env, tmp, r.x);
          if v.Some? {
            var r' := Regs(v.value, XAfter(i, env, tmp, r.x));
            NeverLost(m, idx, rest, Step(i, st).value, env, tmp[i.id := v.value], r');
          }
      }
    }
  }

  lemma {:induction false} StepKeeps(i: Inst, st: seq<nat>)
    requires Step(i, st).Some? && (i.Mark? || i.Store? || i.Jump?)
    ensures Step(i, st) == Some([])
  {
  }

  lemma {:induction false} StepAdds(i: Inst, st: seq<nat>)
    requires Step(i, st).Some? && i.Computes()
    ensures forall t | t in Step(i, st).value :: t in st || t == i.id
  {
  }

  lemma {:induction false} BranchKnows(i: Inst, st: seq<nat>, env: Env, tmp: Temps, idx: ArgIndex)
    requires i.Branch? && Step(i, st).Some? && forall t | t in st :: t in tmp
    ensures Val(InA(i), env, tmp).Some? && Beside(idx, i, env, tmp).Some?
  {
    hide KField;
  }

  /** The filter's reading of a check of which the tracer enters every block at its top. */
  lemma {:induction false} FilterNeverLost(m: Machine, ck: Check, at: Base, bs: Blocks, n: nat, env: Env, r: Regs)
    requires GoodBlocks(ck, at, bs) && bs != [] && Ordered(bs) && StartsAtTop(bs)
    ensures !Read(m, ArgIndexOf(ck.params), FilterIr(bs, n), env, map[], r).Lost?
  {
    hide *;
    FilterIrShape(ck, at, bs, n);
    FilterIrOrder(ck, at, bs, n);
    NothingIsLost(bs);
    NeverLost(m, ArgIndexOf(ck.params), FilterIr(bs, n), [], env, map[], r);
  }
}
