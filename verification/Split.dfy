/** The split between the filter and the tracer: GenBPFIR, and why handing off is safe. */
module Split {
  import opened Syntax
  import opened Ir
  import opened Cfg
  import opened Colour

  /** The filter's code for the blocks from `k` on, and the labels that its hand-off numbers
      stand for, in order.  Numbers continue from `n`. */
  datatype Emission = Emission(code: Code, table: seq<Label>)

  /** A tracer-only block that some block of the filter leads to. */
  predicate Targeted(bs: Blocks, k: nat)
    requires Ordered(bs) && k < |bs|
  {
    exists p | 0 <= p < k :: !Only(bs, p) && k in bs[p].children
  }

  function HandOff(l: Label, n: nat): Emission {
    Emission([Mark(l), Return(ToPtrace(n))], [l])
  }

  function EmitBlock(bs: Blocks, k: nat, n: nat): Emission
    requires Ordered(bs) && k < |bs|
  {
    if !Only(bs, k) then Emission([Mark(bs[k].label_)] + bs[k].insts, [])
    else if Start(bs, k) == 0 && Targeted(bs, k) then HandOff(bs[k].label_, n)
    else Emission([], [])
  }

  function Emit(bs: Blocks, k: nat, n: nat): Emission
    requires Ordered(bs) && k <= |bs|
    decreases |bs| - k
  {
    if k == |bs| then Emission([], [])
    else
      var x := EmitBlock(bs, k, n);
      var y := Emit(bs, k + 1, n + |x.table|);
      Emission(x.code + y.code, x.table + y.table)
  }

  /** GenBPFIR: when the tracer runs the entry block there is nothing but the hand-off. */
  function BpfIr(bs: Blocks, n: nat): Emission
    requires Ordered(bs) && bs != []
  {
    if Only(bs, 0) then HandOff(bs[0].label_, n) else Emit(bs, 0, n)
  }

  // ---------- The conditions under which the split is faithful ----------

  /** A block of the filter with a call or a store in it. */
  predicate DropsEffects(bs: Blocks, k: nat)
    requires Ordered(bs) && k < |bs|
  {
    HasEffect(bs[k].insts) && !Only(bs, k)
  }

  /** Every block with a call or a store is run by the tracer only. */
  predicate EffectsLeft(bs: Blocks)
    requires Ordered(bs)
  {
    forall k | 0 <= k < |bs| :: !DropsEffects(bs, k)
  }

  /** No tracer block starts in its middle, the case the generator reports as unsupported. */
  predicate StartsAtTop(bs: Blocks)
    requires Ordered(bs)
  {
    forall k: nat | k < |bs| && Coloured(bs, k) :: Start(bs, k) == 0
  }

  /** What the tracer does with a hand-off: it looks its number up in `table` and runs the
      blocks from that label on the original arguments. */
  function Resume(m: Machine, bs: Blocks, table: seq<Label>, env: Env, o: Outcome): Outcome {
    if o.Returned? && o.val.ToPtrace? then
      if o.val.data < |table| then
        match Find(bs, 0, table[o.val.data])
        case Some(j) => RunFrom(m, bs, j, env)
        case None => Stuck
      else Stuck
    else o
  }

  // ---------- Runs without effects ----------

  /** On these arguments no call and no store is performed. */
  predicate Quiet(m: Machine, c: Code, env: Env, tmp: Temps)
    decreases |c|
  {
    if c == [] then true
    else
      var i, rest := c[0], c[1..];
      match i
      case Mark(_) => Quiet(m, rest, env, map[])
      case Return(_) => true
      case Call(_, _, _) => false
      case Store(_, _) => false
      case Branch(op, a, b, t, f) =>
        var va, vb := Val(a, env, tmp), Val(b, env, tmp);
        va.Some? && vb.Some? ==> QuietJump(m, rest, if Compare(op, va.value, vb.value) then t else f, env)
      case Jump(t) => if m.jumps then QuietJump(m, rest, t, env) else Quiet(m, rest, env, tmp)
      case _ =>
        var v := Result(m, i, env, tmp);
        v.Some? ==> Quiet(m, rest, env, tmp[i.id := v.value])
  }

  predicate QuietJump(m: Machine, rest: Code, l: Label, env: Env)
    decreases |rest|
  {
    Mark(l) in rest ==> Quiet(m, After(rest, l), env, map[])
  }

  lemma {:induction false} QuietSkips(m: Machine, a: Code, b: Code, l: Label, env: Env)
    requires Mark(l) !in a
    ensures QuietJump(m, a + b, l, env) == QuietJump(m, b, l, env)
  {
    hide Quiet;
    if Mark(l) in b {
      AfterConcat(a, b, l);
    }
  }

  lemma {:induction false} QuietHere(m: Machine, c: Code, rest: Code, l: Label, env: Env)
    requires c != [] && c[0] == Mark(l)
    ensures QuietJump(m, c + rest, l, env) ==> Quiet(m, c + rest, env, map[])
  {
    assert (c + rest)[0] == Mark(l);
  }

  lemma {:induction false} QuietMark(m: Machine, l: Label, c: Code, env: Env, tmp: Temps)
    ensures Quiet(m, [Mark(l)] + c, env, tmp) == Quiet(m, c, env, map[])
  {
    assert ([Mark(l)] + c)[1..] == c;
  }

  /** Code without calls and stores performs none. */
  lemma {:induction false} EffectFreeIsQuiet(m: Machine, c: Code, env: Env, tmp: Temps)
    requires !HasEffect(c)
    ensures Quiet(m, c, env, tmp)
    decreases |c|
  {
    hide Compare, Result;
    if c != [] {
      var i, rest := c[0], c[1..];
      assert i in c && forall i' | i' in rest :: i' in c;
      if i.Mark? {
        EffectFreeIsQuiet(m, rest, env, map[]);
      } else if i.Branches() {
        forall l | Mark(l) in rest
          ensures Quiet(m, After(rest, l), env, map[])
        {
          AfterWithin(rest, l);
          EffectFreeIsQuiet(m, After(rest, l), env, map[]);
        }
        EffectFreeIsQuiet(m, rest, env, tmp);
      } else if i.Computes() && Result(m, i, env, tmp).Some? {
        EffectFreeIsQuiet(m, rest, env, tmp[i.id := Result(m, i, env, tmp).value]);
      }
    }
  }

  // ---------- Shape of the emission ----------

  lemma {:induction false} EmitBoundary(bs: Blocks, k: nat, n: nat)
    requires Ordered(bs) && k <= |bs|
    ensures AtBoundary(Emit(bs, k, n).code)
    decreases |bs| - k
  {
    if k < |bs| {
      EmitBoundary(bs, k + 1, n + |EmitBlock(bs, k, n).table|);
    }
  }

  /** Whether block `k` appears in the filter at all. */
  predicate Emitted(bs: Blocks, k: nat)
    requires Ordered(bs) && k < |bs|
  {
    !Only(bs, k) || (Start(bs, k) == 0 && Targeted(bs, k))
  }

  lemma {:induction false} EmitMarks(bs: Blocks, k: nat, n: nat, l: Label)
    requires Ordered(bs) && MarkFree(bs) && k <= |bs| && Mark(l) in Emit(bs, k, n).code
    ensures exists j | k <= j < |bs| :: bs[j].label_ == l && Emitted(bs, j)
    decreases |bs| - k
  {
    var x := EmitBlock(bs, k, n);
    if Mark(l) in x.code {
      assert bs[k] in bs;
      assert bs[k].label_ == l && Emitted(bs, k);
    } else {
      EmitMarks(bs, k + 1, n + |x.table|, l);
    }
  }

  lemma {:induction false} EmitSplit(bs: Blocks, k: nat, n: nat)
    requires Ordered(bs) && k < |bs|
    ensures var x := EmitBlock(bs, k, n);
      var y := Emit(bs, k + 1, n + |x.table|);
      Emit(bs, k, n) == Emission(x.code + y.code, x.table + y.table)
  {
  }

  lemma {:induction false} EmittedBlock(bs: Blocks, k: nat, n: nat)
    requires Ordered(bs) && k < |bs|
    ensures var c := EmitBlock(bs, k, n).code;
      if Emitted(bs, k) then c != [] && c[0] == Mark(bs[k].label_) else c == []
    ensures MarkFree(bs) ==> forall l | Mark(l) in EmitBlock(bs, k, n).code :: l == bs[k].label_
  {
    hide Only, Start, Targeted;
    assert bs[k] in bs;
  }

  lemma {:induction false} JumpHere(m: Machine, c: Code, rest: Code, l: Label, env: Env)
    requires c != [] && c[0] == Mark(l)
    ensures JumpTo(m, c + rest, l, env) == Run(m, c + rest, env, map[])
  {
    hide Run;
    var tail := c[1..] + rest;
    assert c + rest == [] + [Mark(l)] + tail && c + rest == [Mark(l)] + tail;
    JumpLands(m, [], tail, l, env);
    RunMark(m, l, tail, env, map[]);
  }

  /** Where a jump to block `j` lands in the filter, and the hand-off number of that block. */
  lemma {:induction false} JumpIntoEmission(m: Machine, bs: Blocks, k: nat, n: nat, j: nat, env: Env)
    returns (n': nat)
    requires Ordered(bs) && MarkFree(bs) && DistinctLabels(bs) && k <= j < |bs| && Emitted(bs, j)
    ensures JumpTo(m, Emit(bs, k, n).code, bs[j].label_, env) == Run(m, Emit(bs, j, n').code, env, map[])
    ensures QuietJump(m, Emit(bs, k, n).code, bs[j].label_, env) ==> Quiet(m, Emit(bs, j, n').code, env, map[])
    ensures n <= n' && n' - n <= |Emit(bs, k, n).table| && Emit(bs, k, n).table[n' - n..] == Emit(bs, j, n').table
    decreases j - k
  {
    hide Run, JumpTo, Emit, EmitBlock, Emitted, MarkFree, Quiet, QuietJump;
    var x := EmitBlock(bs, k, n);
    var y := Emit(bs, k + 1, n + |x.table|);
    EmitSplit(bs, k, n);
    EmittedBlock(bs, k, n);
    if j == k {
      n' := n;
      JumpHere(m, x.code, y.code, bs[j].label_, env);
      QuietHere(m, x.code, y.code, bs[j].label_, env);
    } else {
      JumpSkips(m, x.code, y.code, bs[j].label_, env);
      QuietSkips(m, x.code, y.code, bs[j].label_, env);
      n' := JumpIntoEmission(m, bs, k + 1, n + |x.table|, j, env);
    }
  }

  // ---------- Meaning ----------

  /** Code that does not itself ask for the tracer. */
  predicate DecidesOnly(c: Code) {
    forall i | i in c :: i.Return? ==> i.val.Decision?
  }

  predicate AllDecideOnly(bs: Blocks) {
    forall b | b in bs :: DecidesOnly(b.insts)
  }

  /** A block of a quiet run leaves the arguments alone, does not hand off, and goes on quietly. */
  lemma {:induction false} QuietBlock(m: Machine, c: Code, rest: Code, env: Env, tmp: Temps)
    requires m.jumps && NoMarks(c) && AtBoundary(rest) && DecidesOnly(c) && Quiet(m, c + rest, env, tmp)
    ensures match RunBlock(m, c, env, tmp)
      case Falls(e) => e == env && Quiet(m, rest, env, map[])
      case Goes(l, e) => e == env && QuietJump(m, rest, l, env)
      case Ended(o) => o == Stuck || (o.Returned? && o.val.Decision? && o.env == env)
  {
    hide QuietJump, Compare;
    if c == [] {
      assert c + rest == rest;
    } else {
      var i := c[0];
      assert i in c && (c + rest)[0] == i && (c + rest)[1..] == c[1..] + rest;
      if i.Computes() && Result(m, i, env, tmp).Some? {
        QuietBlock(m, c[1..], rest, env, tmp[i.id := Result(m, i, env, tmp).value]);
      } else if i.Branches() {
        forall l | l in i.Targets()
          ensures QuietJump(m, c[1..] + rest, l, env) ==> QuietJump(m, rest, l, env)
        {
          assert Mark(l) !in c;
          QuietSkips(m, c[1..], rest, l, env);
        }
      }
    }
  }

  /** What the split theorem assumes of the blocks. */
  ghost predicate Splittable(bs: Blocks, root: Label, c: Code) {
    && IsCfg(bs, root, c) && Ordered(bs) && DistinctLabels(bs) && AllDecideOnly(bs) && StartsAtTop(bs)
  }

  predicate TableFits(bs: Blocks, k: nat, n: nat, table: seq<Label>)
    requires Ordered(bs) && k <= |bs|
  {
    n <= |table| && table[n..] == Emit(bs, k, n).table
  }

  /** A hand-off at block `j` resumes at block `j`. */
  lemma {:induction false} HandOffResumes(m: Machine, bs: Blocks, j: nat, n: nat, table: seq<Label>, env: Env)
    requires Ordered(bs) && DistinctLabels(bs) && j < |bs| && Only(bs, j) && Emitted(bs, j)
    requires TableFits(bs, j, n, table)
    ensures Resume(m, bs, table, env, Run(m, Emit(bs, j, n).code, env, map[])) == RunFrom(m, bs, j, env)
  {
    var l := bs[j].label_;
    var rest := Emit(bs, j + 1, n + 1).code;
    hide Emit, Only, Start, Targeted, RunFrom;
    assert Emit(bs, j, n).code == [Mark(l)] + ([Return(ToPtrace(n))] + rest) by {
      hide Run;
      assert Emit(bs, j, n).code == [Mark(l), Return(ToPtrace(n))] + rest by { EmitOnly(bs, j, n); }
    }
    RunMark(m, l, [Return(ToPtrace(n))] + rest, env, map[]);
    assert table[n] == table[n..][0] == l by { EmitOnly(bs, j, n); }
    assert Find(bs, 0, l) == Some(j);
  }

  lemma {:induction false} EmitOnly(bs: Blocks, j: nat, n: nat)
    requires Ordered(bs) && j < |bs| && Only(bs, j) && Emitted(bs, j)
    ensures Emit(bs, j, n).code == [Mark(bs[j].label_), Return(ToPtrace(n))] + Emit(bs, j + 1, n + 1).code
    ensures Emit(bs, j, n).table == [bs[j].label_] + Emit(bs, j + 1, n + 1).table
  {
  }

  lemma {:induction false} EmitCopied(bs: Blocks, k: nat, n: nat)
    requires Ordered(bs) && k < |bs| && !Only(bs, k)
    ensures Emit(bs, k, n).code == [Mark(bs[k].label_)] + (bs[k].insts + Emit(bs, k + 1, n).code)
    ensures Emit(bs, k, n).table == Emit(bs, k + 1, n).table
  {
  }

  /** Running the filter until it decides or hands off, and then the tracer's blocks on the
      original arguments, is one run of all the blocks, if the filter meets no call or store. */
  lemma {:induction false} SplitRun(m: Machine, bs: Blocks, root: Label, c: Code, k: nat, n: nat, table: seq<Label>,
                                    env: Env)
    requires m.jumps && Splittable(bs, root, c) && k <= |bs| && (k < |bs| ==> !Only(bs, k))
    requires TableFits(bs, k, n, table) && Quiet(m, Emit(bs, k, n).code, env, map[])
    ensures Resume(m, bs, table, env, Run(m, Emit(bs, k, n).code, env, map[])) == RunFrom(m, bs, k, env)
    decreases |bs| - k, 2
  {
    if k < |bs| {
      hide IsCfg, Run, RunBlock, Only, Start, Targeted, Emit, RunFrom, DecidesOnly, Quiet, QuietJump;
      var b, rest := bs[k], Emit(bs, k + 1, n).code;
      assert b in bs && MarkFree(bs) by { CfgIsMarkFree(bs, root, c); }
      EmitCopied(bs, k, n);
      EmitBoundary(bs, k + 1, n);
      RunMark(m, b.label_, b.insts + rest, env, map[]);
      RunBlockThen(m, b.insts, rest, env, map[]);
      StepBlock(m, bs, k, env);
      QuietMark(m, b.label_, b.insts + rest, env, map[]);
      QuietBlock(m, b.insts, rest, env, map[]);
      ExitIsChild(m, bs, root, c, k, env);
      var x := RunBlock(m, b.insts, env, map[]);
      if x.Falls? {
        SplitArrive(m, bs, root, c, k, k + 1, n, table, env);
      } else if x.Goes? {
        SplitJump(m, bs, root, c, k, x.lbl, n, table, env);
      }
    }
  }

  lemma {:induction false} CfgIsMarkFree(bs: Blocks, root: Label, c: Code)
    requires IsCfg(bs, root, c)
    ensures MarkFree(bs)
  {
  }

  lemma {:induction false} SplitArrive(m: Machine, bs: Blocks, root: Label, c: Code, k: nat, j: nat, n: nat,
                                       table: seq<Label>, env: Env)
    requires m.jumps && Splittable(bs, root, c) && k < j <= |bs| && !Only(bs, k) && (j < |bs| ==> j in bs[k].children)
    requires TableFits(bs, j, n, table) && Quiet(m, Emit(bs, j, n).code, env, map[])
    ensures Resume(m, bs, table, env, Run(m, Emit(bs, j, n).code, env, map[])) == RunFrom(m, bs, j, env)
    decreases |bs| - k, 0
  {
    hide IsCfg, Run, Emit, RunFrom, Resume, AllDecideOnly, TableFits, Quiet;
    if j < |bs| && Only(bs, j) {
      assert Targeted(bs, j);
      assert Start(bs, j) == 0;
      HandOffResumes(m, bs, j, n, table, env);
    } else {
      SplitRun(m, bs, root, c, j, n, table, env);
    }
  }

  lemma {:induction false} SplitJump(m: Machine, bs: Blocks, root: Label, c: Code, k: nat, l: Label, n: nat,
                                     table: seq<Label>, env: Env)
    requires m.jumps && Splittable(bs, root, c) && k < |bs| && !Only(bs, k)
    requires Find(bs, k + 1, l).Some? ==> Find(bs, k + 1, l).value in bs[k].children
    requires TableFits(bs, k + 1, n, table) && QuietJump(m, Emit(bs, k + 1, n).code, l, env)
    ensures Resume(m, bs, table, env, JumpTo(m, Emit(bs, k + 1, n).code, l, env)) ==
      match Find(bs, k + 1, l) case Some(j) => RunFrom(m, bs, j, env) case None => Stuck
    decreases |bs| - k, 1
  {
    hide IsCfg, Run, Emit, RunFrom, Quiet, QuietJump;
    assert MarkFree(bs) by { CfgIsMarkFree(bs, root, c); }
    match Find(bs, k + 1, l) {
      case None =>
        if Mark(l) in Emit(bs, k + 1, n).code {
          EmitMarks(bs, k + 1, n, l);
        }
      case Some(j) =>
        assert Emitted(bs, j);
        var n' := JumpIntoEmission(m, bs, k + 1, n, j, env);
        assert table[n'..] == table[n..][n' - n..];
        SplitArrive(m, bs, root, c, k, j, n', table, env);
    }
  }

  /** The split of a whole policy body, hand-off numbers continuing from `before`. */
  lemma {:induction false} SplitPreserves(m: Machine, bs: Blocks, root: Label, c: Code, before: seq<Label>, env: Env)
    requires m.jumps && IsCfg(bs, root, c) && Ordered(bs) && DistinctLabels(bs) && AllDecideOnly(bs) && StartsAtTop(bs)
    requires Quiet(m, BpfIr(bs, |before|).code, env, map[])
    ensures var e := BpfIr(bs, |before|);
      Resume(m, bs, before + e.table, env, Run(m, e.code, env, map[])) == RunFrom(m, bs, 0, env)
  {
    var n := |before|;
    if Only(bs, 0) {
      var l := bs[0].label_;
      RunMark(m, l, [Return(ToPtrace(n))], env, map[]);
      assert [Mark(l)] + [Return(ToPtrace(n))] == [Mark(l), Return(ToPtrace(n))];
      assert Find(bs, 0, l) == Some(0);
    } else {
      var table := before + Emit(bs, 0, n).table;
      SplitRun(m, bs, root, c, 0, n, table, env);
    }
  }

  /** Some block at or after `k` is in the filter with a call or a store. */
  predicate DropsFrom(bs: Blocks, k: nat)
    requires Ordered(bs)
  {
    exists j | k <= j < |bs| :: DropsEffects(bs, j)
  }

  lemma {:induction false} DropsHereOrLater(bs: Blocks, k: nat)
    requires Ordered(bs) && k <= |bs|
    ensures DropsFrom(bs, k) <==> k < |bs| && (DropsEffects(bs, k) || DropsFrom(bs, k + 1))
  {
    hide DropsEffects;
  }

  /** The filter's code is free of calls and stores, which the filter cannot express, exactly
      when the tracer runs the entry block or every block that has one. */
  lemma {:induction false} FilterIsEffectFree(bs: Blocks, n: nat)
    requires Ordered(bs) && bs != []
    ensures !HasEffect(BpfIr(bs, n).code) <==> Only(bs, 0) || EffectsLeft(bs)
  {
    hide DropsEffects, Only, Emit;
    if !Only(bs, 0) {
      EmitEffects(bs, 0, n);
    }
  }

  lemma {:induction false} EmitEffects(bs: Blocks, k: nat, n: nat)
    requires Ordered(bs) && k <= |bs|
    ensures HasEffect(Emit(bs, k, n).code) <==> DropsFrom(bs, k)
    decreases |bs| - k
  {
    hide *;
    DropsHereOrLater(bs, k);
    if k == |bs| {
      EmitEnd(bs, n);
      NoCode();
    } else {
      var x := EmitBlock(bs, k, n);
      var y := Emit(bs, k + 1, n + |x.table|);
      EmitSplit(bs, k, n);
      EmitEffects(bs, k + 1, n + |x.table|);
      BlockEffects(bs, k, n);
      EffectConcat(x.code, y.code);
    }
  }

  lemma {:induction false} NoCode()
    ensures !HasEffect([])
  {
  }

  lemma {:induction false} EffectConcat(a: Code, b: Code)
    ensures HasEffect(a + b) <==> HasEffect(a) || HasEffect(b)
  {
    forall i | i in a || i in b
      ensures i in a + b
    {
    }
  }

  lemma {:induction false} BlockEffects(bs: Blocks, k: nat, n: nat)
    requires Ordered(bs) && k < |bs|
    ensures HasEffect(EmitBlock(bs, k, n).code) <==> DropsEffects(bs, k)
  {
    if !Only(bs, k) {
      EffectConcat([Mark(bs[k].label_)], bs[k].insts);
    }
  }

  lemma {:induction false} NumberInBlock(bs: Blocks, k: nat, n: nat, i: nat, d: nat)
    requires Ordered(bs) && k < |bs| && DecidesOnly(bs[k].insts)
    requires i < |EmitBlock(bs, k, n).code| && EmitBlock(bs, k, n).code[i] == Return(ToPtrace(d))
    ensures d == n && EmitBlock(bs, k, n).table == [bs[k].label_]
    ensures i > 0 && EmitBlock(bs, k, n).code[i - 1] == Mark(bs[k].label_)
  {
    hide Only, Start, Targeted, Ordered;
  }

  /** Hand-off `d` at position `i` of the code names its own block in the table. */
  predicate NumberFits(e: Emission, n: nat, i: nat, d: nat) {
    && n <= d < n + |e.table|
    && 0 < i <= |e.code| && e.code[i - 1] == Mark(e.table[d - n])
  }

  lemma {:induction false} NumberShifts(x: Emission, y: Emission, n: nat, i: nat, d: nat)
    requires NumberFits(y, n + |x.table|, i, d)
    ensures NumberFits(Emission(x.code + y.code, x.table + y.table), n, |x.code| + i, d)
  {
    assert (x.code + y.code)[|x.code| + i - 1] == y.code[i - 1];
    assert (x.table + y.table)[d - n] == y.table[d - n - |x.table|];
  }

  /** Each number of a hand-off in the filter is its own, in order, and names its own block. */
  lemma {:induction false} NumbersInStep(bs: Blocks, k: nat, n: nat, i: nat, d: nat)
    requires Ordered(bs) && AllDecideOnly(bs) && k <= |bs|
    requires i < |Emit(bs, k, n).code| && Emit(bs, k, n).code[i] == Return(ToPtrace(d))
    ensures NumberFits(Emit(bs, k, n), n, i, d)
    decreases |bs| - k
  {
    hide Emit, EmitBlock, DecidesOnly, Ordered, NumberFits;
    EmitEnd(bs, n);
    assert bs[k] in bs;
    EmitSplit(bs, k, n);
    var x := EmitBlock(bs, k, n);
    var y := Emit(bs, k + 1, n + |x.table|);
    if i < |x.code| {
      NumberInBlock(bs, k, n, i, d);
      NumberHere(x, y, n, i, bs[k].label_);
    } else {
      NumbersInStep(bs, k + 1, n + |x.table|, i - |x.code|, d);
      NumberShifts(x, y, n, i - |x.code|, d);
    }
  }

  lemma {:induction false} EmitEnd(bs: Blocks, n: nat)
    requires Ordered(bs)
    ensures Emit(bs, |bs|, n).code == []
  {
  }

  lemma {:induction false} NumberHere(x: Emission, y: Emission, n: nat, i: nat, l: Label)
    requires 0 < i < |x.code| && x.code[i - 1] == Mark(l) && x.table == [l]
    ensures NumberFits(Emission(x.code + y.code, x.table + y.table), n, i, n)
  {
  }
}
