/** Guard clauses: bodies that are a list of `if (test) { assignments; decision }`, with a decision
    at the end.  What the front end and BuildCFG make of them can be written down. */
module GuardCode {
  import opened Syntax
  import opened Ir
  import opened IrGen
  import opened Merge
  import opened DeadCode
  import opened Cfg
  import opened FrontEnd
  import opened Idle

  // ---------- The bodies ----------

  /** Assignments, and then a decision. */
  predicate LeafList(ss: seq<Stmt>) {
    ss != [] && if |ss| == 1 then ss[0].Permit? else ss[0].Assign? && LeafList(ss[1..])
  }

  predicate Leaf(s: Stmt) {
    s.Permit? || (s.Compound? && LeafList(s.stmts))
  }

  /** One test, perhaps negated. */
  predicate Simple(e: Expr) {
    if e.Unary? && e.op == NOT then Simple(e.arg) else !(e.Binary? && (e.op == AND || e.op == OR))
  }

  predicate Guards(ss: seq<Stmt>) {
    ss != [] &&
    match ss[0]
    case If(cond, thn, els) =>
      && Simple(cond) && Leaf(thn)
      && if els.Some? then |ss| == 1 && Leaf(els.value) else Guards(ss[1..])
    case _ => LeafList(ss)
  }

  function AsList(s: Stmt): seq<Stmt> {
    if s.Compound? then s.stmts else [s]
  }

  // ---------- Their blocks ----------

  /** The blocks of a list of guards, without their neighbours: two for each guard, its test and
      its decision, and one for the end. */
  function Parts(ss: seq<Stmt>, l: Label, lab: nat, id: nat): Blocks
    requires Guards(ss)
  {
    if ss[0].If? then
      var t, f := Fresh(lab + 1), Fresh(lab + 2);
      var c := CondCode(ss[0].cond, t, f, lab + 2, id);
      var th := StmtCode(ss[0].thn, c.labels, c.ids);
      [Block(l, c.code, [], []), Block(t, th.code, [], [])] +
      if ss[0].els.Some? then [Block(f, StmtCode(ss[0].els.value, th.labels + 1, th.ids).code, [], [])]
      else Parts(ss[1..], f, th.labels, th.ids)
    else [Block(l, BodyCode(ss, lab, id).code, [], [])]
  }

  /** The code of those blocks, without the first label. */
  function PartsCode(ss: seq<Stmt>, lab: nat, id: nat): Code
    requires Guards(ss)
  {
    if ss[0].If? then
      var t, f := Fresh(lab + 1), Fresh(lab + 2);
      var c := CondCode(ss[0].cond, t, f, lab + 2, id);
      var th := StmtCode(ss[0].thn, c.labels, c.ids);
      Joined(Joined(c.code, t, th.code), f,
        if ss[0].els.Some? then StmtCode(ss[0].els.value, th.labels + 1, th.ids).code
        else PartsCode(ss[1..], th.labels, th.ids))
    else BodyCode(ss, lab, id).code
  }

  lemma {:induction false} PartsAreFlat(ss: seq<Stmt>, l: Label, lab: nat, id: nat)
    requires Guards(ss)
    ensures Flat(Parts(ss, l, lab, id)) == [Mark(l)] + PartsCode(ss, lab, id)
  {
    hide StmtCode, CondCode, Leaf, Simple, Flat;
    if ss[0].If? {
      var t, f := Fresh(lab + 1), Fresh(lab + 2);
      var c := CondCode(ss[0].cond, t, f, lab + 2, id);
      var th := StmtCode(ss[0].thn, c.labels, c.ids);
      var b0, b1 := Block(l, c.code, [], []), Block(t, th.code, [], []);
      if ss[0].els.Some? {
        var b2 := Block(f, StmtCode(ss[0].els.value, th.labels + 1, th.ids).code, [], []);
        FlatOne(b2);
        FlatTwo(b0, b1, [b2]);
      } else {
        PartsAreFlat(ss[1..], f, th.labels, th.ids);
        FlatTwo(b0, b1, Parts(ss[1..], f, th.labels, th.ids));
      }
    } else {
      FlatOne(Block(l, BodyCode(ss, lab, id).code, [], []));
    }
  }

  lemma {:induction false} FlatOne(b: Block)
    ensures Flat([b]) == [Mark(b.label_)] + b.insts
  {
    assert [b][1..] == [];
  }

  lemma {:induction false} FlatTwo(b0: Block, b1: Block, rest: Blocks)
    ensures Flat([b0, b1] + rest) == [Mark(b0.label_)] + b0.insts + [Mark(b1.label_)] + b1.insts + Flat(rest)
  {
    var bs := [b0, b1] + rest;
    assert bs[1..] == [b1] + rest && bs[1..][1..] == rest;
    assert Flat(bs[1..]) == [Mark(b1.label_)] + b1.insts + Flat(rest);
  }

  // ---------- Shape of the code ----------

  /** Code of one block that ends in a decision. */
  predicate EndsDeciding(c: Code) {
    c != [] && c[|c| - 1].Return? && Flows(c[..|c| - 1])
  }

  /** Code of one block that ends in a branch to the two labels. */
  predicate EndsBranching(c: Code, t: Label, f: Label) {
    c != [] && var b := c[|c| - 1];
      b.Branch? && Flows(c[..|c| - 1]) && ((b.t == t && b.f == f) || (b.t == f && b.f == t))
  }

  lemma {:induction false} LeafCode(ss: seq<Stmt>, lab: nat, id: nat)
    requires LeafList(ss)
    ensures EndsDeciding(BodyCode(ss, lab, id).code)
  {
    var x := StmtCode(ss[0], lab, id);
    var y := BodyCode(ss[1..], x.labels, x.ids);
    var c := BodyCode(ss, lab, id).code;
    assert c == x.code + y.code;
    if |ss| == 1 {
      assert y.code == [];
      assert c[..0] == [];
    } else {
      LeafCode(ss[1..], x.labels, x.ids);
      ExprCodeStraight(ss[0].expr, id);
      hide BodyCode, ExprCode;
      assert Flows(x.code);
      assert c[..|c| - 1] == x.code + y.code[..|y.code| - 1];
    }
  }

  lemma {:induction false} LeafStmtCode(s: Stmt, lab: nat, id: nat)
    requires Leaf(s)
    ensures EndsDeciding(StmtCode(s, lab, id).code)
  {
    if s.Permit? {
      assert StmtCode(s, lab, id).code[..0] == [];
    } else {
      LeafCode(s.stmts, lab, id);
    }
  }

  lemma {:induction false} SimpleCode(e: Expr, t: Label, f: Label, lab: nat, id: nat)
    requires Simple(e)
    ensures EndsBranching(CondCode(e, t, f, lab, id).code, t, f) && CondCode(e, t, f, lab, id).labels == lab
  {
    hide TestCode, EndsBranching;
    if e.Unary? && e.op == NOT {
      SimpleCode(e.arg, f, t, lab, id);
      Swapped(CondCode(e.arg, f, t, lab, id).code, t, f);
    } else {
      TestEnds(e, t, f, lab, id);
    }
  }

  lemma {:induction false} Swapped(c: Code, t: Label, f: Label)
    ensures EndsBranching(c, t, f) == EndsBranching(c, f, t)
  {
    hide Flows;
  }

  lemma {:induction false} TestEnds(e: Expr, t: Label, f: Label, lab: nat, id: nat)
    ensures EndsBranching(TestCode(e, t, f, lab, id).code, t, f) && TestCode(e, t, f, lab, id).labels == lab
  {
    var (l, op, r) := Test(e);
    var x := ExprCode(l, id);
    var y := ExprCode(r, x.ids);
    ExprCodeStraight(l, id);
    ExprCodeStraight(r, x.ids);
    hide ExprCode, Test;
    var c := TestCode(e, t, f, lab, id).code;
    assert c[..|c| - 1] == x.code + y.code;
  }

  lemma {:induction false} TidyDeciding(c: Code, at: Place, reach: set<Label>)
    requires EndsDeciding(c) && !at.BehindEnd?
    ensures Tidy(c, at, reach)
  {
    var n := |c| - 1;
    assert c == c[..n] + [c[n]] && [c[n]][1..] == [];
    TidyFlows(c[..n], [c[n]], at, reach);
  }

  /** A decision in front of a label that was branched to. */
  lemma {:induction false} TidyDecidingThen(c: Code, l: Label, rest: Code, at: Place, reach: set<Label>)
    requires EndsDeciding(c) && !at.BehindEnd? && l in reach && Tidy(rest, BehindMark, reach)
    ensures Tidy(c + ([Mark(l)] + rest), at, reach)
  {
    var n := |c| - 1;
    var r, more := c[n], [Mark(l)] + rest;
    assert c + more == c[..n] + ([r] + more);
    assert reach + TargetSet(Mark(l)) == reach && reach + TargetSet(r) == reach;
    TidyStep(Mark(l), rest, BehindEnd, reach);
    TidyStep(r, more, Inside, reach);
    TidyFlows(c[..n], [r] + more, at, reach);
  }

  /** A test in front of the label of one of its targets. */
  lemma {:induction false} TidyBranchingThen(c: Code, t: Label, f: Label, rest: Code, at: Place, reach: set<Label>)
    requires EndsBranching(c, t, f) && !at.BehindEnd? && Tidy(rest, BehindMark, reach + {t, f})
    ensures Tidy(c + ([Mark(t)] + rest), at, reach)
  {
    var n := |c| - 1;
    var b, more := c[n], [Mark(t)] + rest;
    assert c + more == c[..n] + ([b] + more);
    assert TargetSet(b) == {t, f} by { assert b.t in b.Targets() && b.f in b.Targets(); }
    assert reach + {t, f} + TargetSet(Mark(t)) == reach + {t, f};
    TidyStep(Mark(t), rest, BehindEnd, reach + {t, f});
    TidyStep(b, more, Inside, reach);
    TidyFlows(c[..n], [b] + more, at, reach);
  }

  /** The code of guards is tidy. */
  lemma {:induction false} PartsAreTidy(ss: seq<Stmt>, lab: nat, id: nat, at: Place, reach: set<Label>)
    requires Guards(ss) && !at.BehindEnd?
    ensures Tidy(PartsCode(ss, lab, id), at, reach)
  {
    hide StmtCode, CondCode, Tidy, EndsDeciding, EndsBranching, LeafList;
    if ss[0].If? {
      var t, f := Fresh(lab + 1), Fresh(lab + 2);
      var c := CondCode(ss[0].cond, t, f, lab + 2, id);
      var th := StmtCode(ss[0].thn, c.labels, c.ids);
      SimpleCode(ss[0].cond, t, f, lab + 2, id);
      LeafStmtCode(ss[0].thn, c.labels, c.ids);
      var reach' := reach + {t, f};
      var rest := if ss[0].els.Some? then StmtCode(ss[0].els.value, th.labels + 1, th.ids).code
        else PartsCode(ss[1..], th.labels, th.ids);
      if ss[0].els.Some? {
        LeafStmtCode(ss[0].els.value, th.labels + 1, th.ids);
        TidyDeciding(rest, BehindMark, reach');
      } else {
        PartsAreTidy(ss[1..], th.labels, th.ids, BehindMark, reach');
      }
      TidyDecidingThen(th.code, f, rest, BehindMark, reach');
      TidyBranchingThen(c.code, t, f, th.code + ([Mark(f)] + rest), at, reach);
      assert PartsCode(ss, lab, id) == c.code + ([Mark(t)] + (th.code + ([Mark(f)] + rest)));
    } else {
      LeafCode(ss, lab, id);
      TidyDeciding(PartsCode(ss, lab, id), at, reach);
    }
  }

  // ---------- The jump around an `else` ----------

  lemma {:induction false} SweepThen(c: Code, prev: Option<Inst>, reach: set<Label>, out: Label)
    requires Tidy(c, if prev.Some? then PlaceOf(prev.value) else Inside, reach)
    ensures Sweep(c + [Mark(out)], prev) == c + [Mark(out)]
  {
    if c == [] {
      assert c + [Mark(out)] == [Mark(out)] && [Mark(out)][1..] == [];
    } else {
      assert (c + [Mark(out)])[1..] == c[1..] + [Mark(out)];
      SweepThen(c[1..], Some(c[0]), reach + TargetSet(c[0]), out);
    }
  }

  /** The jump between two decided parts goes. */
  lemma {:induction false} JumpIsSwept(a: Code, b: Code, out: Label, prev: Option<Inst>, reach: set<Label>)
    requires Tidy(a + b, if prev.Some? then PlaceOf(prev.value) else Inside, reach)
    requires if a == [] then prev.Some? && prev.value.Return? else a[|a| - 1].Return?
    ensures Sweep(a + ([Jump(out)] + (b + [Mark(out)])), prev) == a + b + [Mark(out)]
  {
    var tail := [Jump(out)] + (b + [Mark(out)]);
    if a == [] {
      assert a + b == b && a + tail == tail && tail[1..] == b + [Mark(out)];
      SweepThen(b, prev, reach, out);
    } else {
      assert (a + b)[1..] == a[1..] + b && (a + tail)[1..] == a[1..] + tail;
      assert |a| > 1 ==> a[1..][|a[1..]| - 1] == a[|a| - 1];
      JumpIsSwept(a[1..], b, out, Some(a[0]), reach + TargetSet(a[0]));
      assert a + b + [Mark(out)] == [a[0]] + (a[1..] + b + [Mark(out)]);
    }
  }

  /** And the label behind it, which nothing else goes to. */
  lemma {:induction false} LabelIsPurged(c: Code, prev: Option<Inst>, reach: set<Label>, out: Label)
    requires Tidy(c, if prev.Some? then PlaceOf(prev.value) else Inside, reach) && out !in reach
    requires if c == [] then AfterEnd(prev) else c[|c| - 1].Ends()
    requires forall i | i in c :: out !in i.Targets()
    ensures Purge(c + [Mark(out)], prev, false, reach) == c
  {
    if c == [] {
      assert c + [Mark(out)] == [Mark(out)] && [Mark(out)][1..] == [];
    } else {
      assert (c + [Mark(out)])[1..] == c[1..] + [Mark(out)] && c[0] in c;
      assert |c| > 1 ==> c[1..][|c[1..]| - 1] == c[|c| - 1];
      LabelIsPurged(c[1..], Some(c[0]), reach + TargetSet(c[0]), out);
    }
  }

  /** No two labels are adjacent, so merging changes nothing. */
  lemma {:induction false} NothingMerges(c: Code, inRun: bool)
    requires NoAdjacentMarks(c) && (inRun && c != [] ==> !c[0].Mark?)
    ensures Strip(c, inRun) == c && forall head: Option<Label> | head.Some? == inRun :: Heads(c, head) == map[]
  {
    if c != [] {
      forall k | 0 <= k < |c[1..]| - 1
        ensures !(c[1..][k].Mark? && c[1..][k + 1].Mark?)
      {
        assert c[1..][k] == c[k + 1] && c[1..][k + 1] == c[k + 2];
      }
      assert |c| > 1 && c[0].Mark? ==> !c[1].Mark?;
      NothingMerges(c[1..], c[0].Mark?);
    }
  }

  lemma {:induction false} TidyIsApart(c: Code, at: Place, reach: set<Label>)
    requires Tidy(c, at, reach)
    ensures NoAdjacentMarks(c) && (at.BehindMark? && c != [] ==> !c[0].Mark?)
  {
    if c != [] {
      TidyIsApart(c[1..], PlaceOf(c[0]), reach + TargetSet(c[0]));
      forall k | 0 <= k < |c| - 1
        ensures !(c[k].Mark? && c[k + 1].Mark?)
      {
        assert k > 0 ==> c[k] == c[1..][k - 1] && c[k + 1] == c[1..][k];
        assert k == 0 ==> c[1] == c[1..][0];
      }
    }
  }

  lemma {:induction false} JumpIsApart(a: Code, b: Code, out: Label)
    requires NoAdjacentMarks(a + b) && b != [] && !b[|b| - 1].Mark?
    ensures NoAdjacentMarks(a + ([Jump(out)] + (b + [Mark(out)])))
  {
    var c := a + ([Jump(out)] + (b + [Mark(out)]));
    forall k | 0 <= k < |c| - 1
      ensures !(c[k].Mark? && c[k + 1].Mark?)
    {
      if k + 1 < |a| {
        assert c[k] == (a + b)[k] && c[k + 1] == (a + b)[k + 1];
      } else if k > |a| && k + 1 < |c| - 1 {
        assert c[k] == (a + b)[k - 1] && c[k + 1] == (a + b)[k];
      }
    }
  }

  /** The passes on two decided parts with a jump around the second one. */
  lemma {:induction false} PassesOnElse(a: Code, b: Code, out: Label)
    requires Tidy(a + b, Inside, {}) && a != [] && a[|a| - 1].Return? && b != [] && b[|b| - 1].Return?
    requires forall i | i in a + b :: out !in i.Targets()
    ensures Live(Merged(a + ([Jump(out)] + (b + [Mark(out)])))) == a + b
  {
    hide Tidy, Sweep, Purge, Settle, NoAdjacentMarks, Strip, Heads;
    var c := a + ([Jump(out)] + (b + [Mark(out)]));
    TidyIsApart(a + b, Inside, {});
    JumpIsApart(a, b, out);
    NothingMerges(c, false);
    RetargetIdle(c);
    JumpIsSwept(a, b, out, None, {});
    LabelIsPurged(a + b, None, {}, out);
    PurgeIdle(a + b, None, {});
    assert Settle(a + b) == a + b && Settle(a + b + [Mark(out)]) == a + b by { SettlesTo(a + b + [Mark(out)], a + b); }
  }

  lemma {:induction false} SettlesTo(c: Code, r: Code)
    requires Purge(c, None, false, {}) == r && Purge(r, None, false, {}) == r
    ensures Settle(c) == r && Settle(r) == r
  {
    hide Purge;
  }

  // ---------- The front end on guards ----------

  /** The code as generated ends in the label behind an `else`, with a jump to it. */
  predicate HasElse(ss: seq<Stmt>)
    requires Guards(ss)
  {
    ss[0].If? && (ss[0].els.Some? || HasElse(ss[1..]))
  }

  /** Two decided parts, the second one behind a jump around it. */
  predicate TwoParts(a: Code, b: Code, out: Label, lab: nat) {
    && a != [] && a[|a| - 1].Return? && b != [] && b[|b| - 1].Return?
    && out.Fresh? && out.n > lab + 2 && TargetsAbove(a, lab, out) && TargetsAbove(b, lab, out)
  }

  predicate TargetsAbove(c: Code, lab: nat, out: Label) {
    forall i, l | i in c && l in i.Targets() :: l.Fresh? && lab < l.n && l != out
  }

  /** What is generated for a guard with an `else`: the two parts of it around a jump. */
  lemma {:induction false} ElseGenerated(ss: seq<Stmt>, lab: nat, id: nat) returns (a: Code, b: Code, out: Label)
    requires Guards(ss) && ss[0].If? && ss[0].els.Some?
    ensures BodyCode(ss, lab, id).code == a + ([Jump(out)] + (b + [Mark(out)])) && PartsCode(ss, lab, id) == a + b
    ensures TwoParts(a, b, out, lab)
  {
    hide CondCode, EndsDeciding, EndsBranching, LeafList;
    var t, f := Fresh(lab + 1), Fresh(lab + 2);
    var c := CondCode(ss[0].cond, t, f, lab + 2, id);
    var th := StmtCode(ss[0].thn, c.labels, c.ids);
    var x := StmtCode(ss[0], lab, id);
    SimpleCode(ss[0].cond, t, f, lab + 2, id);
    LeafStmtCode(ss[0].thn, c.labels, c.ids);
    LeafGrows(ss[0].thn, c.labels, c.ids);
    assert ss[1..] == [] && x.code + [] == x.code;
    out := Fresh(th.labels + 1);
    var el := StmtCode(ss[0].els.value, th.labels + 1, th.ids);
    LeafStmtCode(ss[0].els.value, th.labels + 1, th.ids);
    a, b := c.code + [Mark(t)] + th.code, [Mark(f)] + el.code;
    assert PartsCode(ss, lab, id) == a + b;
    hide StmtCode, BodyCode, PartsCode, Guards;
    FrontTargets(c.code, t, f, th.code);
    LastReturns(th.code);
    LastReturns(el.code);
    assert a[|a| - 1] == th.code[|th.code| - 1] && b[|b| - 1] == el.code[|el.code| - 1];
    NoTargets(el.code);
  }

  /** The code of a guard without an `else` in front of the rest. */
  lemma {:induction false} GuardThen(ss: seq<Stmt>, lab: nat, id: nat) returns (front: Code, lab': nat, id': nat)
    requires Guards(ss) && ss[0].If? && ss[0].els.None?
    ensures Guards(ss[1..]) && BodyCode(ss, lab, id).code == front + BodyCode(ss[1..], lab', id').code
    ensures PartsCode(ss, lab, id) == front + PartsCode(ss[1..], lab', id') && lab' == lab + 2
    ensures forall out: Label | out.Fresh? && out.n > lab' + 2 :: TargetsAbove(front, lab, out)
  {
    hide CondCode, EndsDeciding, EndsBranching, LeafList, Leaf, Simple;
    var t, f := Fresh(lab + 1), Fresh(lab + 2);
    var c := CondCode(ss[0].cond, t, f, lab + 2, id);
    var th := StmtCode(ss[0].thn, c.labels, c.ids);
    var x := StmtCode(ss[0], lab, id);
    SimpleCode(ss[0].cond, t, f, lab + 2, id);
    LeafStmtCode(ss[0].thn, c.labels, c.ids);
    LeafGrows(ss[0].thn, c.labels, c.ids);
    lab', id' := th.labels, th.ids;
    front := c.code + [Mark(t)] + th.code + [Mark(f)];
    assert x.code == front && x.labels == lab' && x.ids == id';
    hide StmtCode, Guards;
    FrontTargets(c.code, t, f, th.code);
    assert PartsCode(ss, lab, id) == front + PartsCode(ss[1..], lab', id');
  }

  /** What is generated for guards: the code of their blocks, or, if they end in an `else`, the
      two parts of it around a jump. */
  lemma {:induction false} GuardsGenerated(ss: seq<Stmt>, lab: nat, id: nat) returns (a: Code, b: Code, out: Label)
    requires Guards(ss)
    ensures !HasElse(ss) ==> BodyCode(ss, lab, id).code == PartsCode(ss, lab, id)
    ensures HasElse(ss) ==>
      && BodyCode(ss, lab, id).code == a + ([Jump(out)] + (b + [Mark(out)])) && PartsCode(ss, lab, id) == a + b
      && TwoParts(a, b, out, lab)
  {
    hide StmtCode, CondCode, LeafList, Leaf, Simple, BodyCode, TargetsAbove;
    a, b, out := [], [], Fresh(0);
    if ss[0].If? {
      if ss[0].els.Some? {
        a, b, out := ElseGenerated(ss, lab, id);
      } else {
        var front, lab', id' := GuardThen(ss, lab, id);
        var a', b', out' := GuardsGenerated(ss[1..], lab', id');
        if HasElse(ss[1..]) {
          hide PartsCode, Guards;
          a, b, out := front + a', b', out';
          TargetsJoin(front, a', lab, lab', out);
          TargetsLower(b, lab, lab', out);
        }
      }
    }
  }

  lemma {:induction false} TargetsJoin(front: Code, a: Code, lab: nat, lab': nat, out: Label)
    requires TargetsAbove(front, lab, out) && TargetsAbove(a, lab', out) && lab <= lab'
    ensures TargetsAbove(front + a, lab, out)
  {
  }

  lemma {:induction false} TargetsLower(b: Code, lab: nat, lab': nat, out: Label)
    requires TargetsAbove(b, lab', out) && lab <= lab'
    ensures TargetsAbove(b, lab, out)
  {
  }

  lemma {:induction false} LastReturns(c: Code)
    requires EndsDeciding(c)
    ensures c != [] && c[|c| - 1].Return?
  {
  }

  lemma {:induction false} AllButLast(c: Code, i: Inst)
    requires c != [] && Flows(c[..|c| - 1]) && i in c
    ensures i == c[|c| - 1] || i.Targets() == []
  {
    var k :| 0 <= k < |c| && c[k] == i;
    if k < |c| - 1 {
      assert c[..|c| - 1][k] == i && i in c[..|c| - 1];
    }
  }

  lemma {:induction false} NoTargets(c: Code)
    requires EndsDeciding(c)
    ensures forall i | i in c :: i.Targets() == []
  {
    hide Flows;
    forall i | i in c
      ensures i.Targets() == []
    {
      AllButLast(c, i);
    }
  }

  lemma {:induction false} FrontTargets(c: Code, t: Label, f: Label, th: Code)
    requires EndsBranching(c, t, f) && EndsDeciding(th)
    ensures forall i, l | i in c + [Mark(t)] + th && l in i.Targets() :: l == t || l == f
  {
    hide Flows;
    NoTargets(th);
    forall i, l | i in c && l in i.Targets()
      ensures l == t || l == f
    {
      AllButLast(c, i);
    }
  }

  lemma {:induction false} LeafGrows(s: Stmt, lab: nat, id: nat)
    requires Leaf(s)
    ensures StmtCode(s, lab, id).labels == lab
  {
    if s.Compound? {
      LeafListGrows(s.stmts, lab, id);
    }
  }

  lemma {:induction false} LeafListGrows(ss: seq<Stmt>, lab: nat, id: nat)
    requires LeafList(ss)
    ensures BodyCode(ss, lab, id).labels == lab
  {
    var x := StmtCode(ss[0], lab, id);
    if |ss| > 1 {
      LeafListGrows(ss[1..], x.labels, x.ids);
    } else {
      assert ss[1..] == [];
    }
  }

  /** The front end leaves of guards exactly the code of their blocks. */
  lemma {:induction false} GuardsFront(s: Stmt, lab: nat, id: nat)
    requires Guards(AsList(s))
    ensures FrontCode(s, lab, id) == PartsCode(AsList(s), lab, id)
  {
    hide Tidy, Merged, Live, PartsCode, Guards;
    var ss := AsList(s);
    SameCode(s, lab, id);
    PartsAreTidy(ss, lab, id, Inside, {});
    var a, b, out := GuardsGenerated(ss, lab, id);
    if HasElse(ss) {
      PassesOnElse(a, b, out);
    } else {
      PassesIdle(PartsCode(ss, lab, id));
    }
  }

  lemma {:induction false} SameCode(s: Stmt, lab: nat, id: nat)
    ensures StmtCode(s, lab, id) == BodyCode(AsList(s), lab, id)
  {
    if !s.Compound? {
      var x := StmtCode(s, lab, id);
      assert [s][1..] == [] && x.code + [] == x.code;
    }
  }
}
