/** Checks made of guard clauses, judged by their text: when what is generated for them is within
    what the filter and the tracer express as it was meant. */
module Guarded {
  import opened Syntax
  import opened Ir
  import opened IrGen
  import opened Bpf
  import opened BpfGen
  import opened Reading
  import opened Scratch
  import opened Generated
  import opened Preserved
  import opened Cfg
  import opened Colour
  import opened Split
  import opened Lifter
  import opened LifterProof
  import opened Layout
  import opened LiftedRun
  import opened Relift
  import opened FrontEnd
  import opened Check
  import opened CheckRun
  import opened Idle
  import opened GuardCode

  // ---------- The text ----------

  /** The first thing that is computed is a call. */
  predicate StartsWithCall(e: Expr)
    decreases Size(e), 0
  {
    match e
    case Invoke(_, _) => true
    case Unary(_, arg) => StartsWithCall(arg)
    case Binary(_, left, right) => PairStartsWithCall(left, right)
    case _ => false
  }

  predicate PairStartsWithCall(left: Expr, right: Expr)
    decreases Size(left) + Size(right), 1
  {
    if Computed(left) then StartsWithCall(left) else StartsWithCall(right)
  }

  predicate CondStartsWithCall(e: Expr) {
    if e.Unary? && e.op == NOT then CondStartsWithCall(e.arg)
    else var (l, _, r) := Test(e); PairStartsWithCall(l, r)
  }

  /** Operations that the filter reads as they are meant: a literal on the right, or a computed
      right operand of a commutative operation on something computed. */
  predicate FilterExpr(e: Expr) {
    match e
    case Ref(_) => true
    case Value(_) => true
    case Binary(op, left, right) =>
      && FilterExpr(left) && FilterExpr(right)
      && if Computed(right) then IsCommutative(op) && !left.Ref?
         else right.Value? && IsArith(op) && !Faults(op, right.n)
    case _ => false
  }

  predicate FilterTest(e: Expr) {
    var (l, op, r) := Test(e);
    && FilterExpr(l) && FilterExpr(r)
    && if Computed(r) then op in {EQ, NE} && !l.Ref? else r.Value? && op in {EQ, NE, GT, GE}
  }

  predicate FilterCond(e: Expr) {
    if e.Unary? && e.op == NOT then FilterCond(e.arg)
    else if e.Binary? && (e.op == AND || e.op == OR) then FilterCond(e.left) && FilterCond(e.right)
    else FilterTest(e)
  }

  predicate SafeAssign(copied: set<string>, s: Stmt) {
    s.Assign? ==> s.arg in copied || !Reads(s.expr, s.arg)
  }

  /** The assignments of a decision survive their write-back; if the tracer is to take over
      here, it can do so at the top. */
  predicate LeafScreened(copied: set<string>, ss: seq<Stmt>, traced: bool)
    requires LeafList(ss)
  {
    && (forall s | s in ss :: SafeAssign(copied, s))
    && (|ss| > 1 && !traced ==> !Computed(ss[0].expr) || StartsWithCall(ss[0].expr))
  }

  /** Before the first call the filter can tell; the first test with a call begins with it; from
      there on everything is the tracer's. */
  predicate TestScreened(cond: Expr, traced: bool) {
    !traced ==> if NoCalls(cond) then FilterCond(cond) && CondOneCell(cond) else CondStartsWithCall(cond)
  }

  predicate Screened(copied: set<string>, ss: seq<Stmt>, traced: bool)
    requires Guards(ss)
  {
    match ss[0]
    case If(cond, thn, els) =>
      var traced' := traced || !NoCalls(cond);
      && TestScreened(cond, traced) && LeafScreened(copied, AsList(thn), traced')
      && if els.Some? then LeafScreened(copied, AsList(els.value), traced') else Screened(copied, ss[1..], traced')
    case _ => LeafScreened(copied, ss, traced)
  }

  // ---------- The same blocks ----------

  lemma {:induction false} FirstMark(a: Code, x: Code)
    requires NoMarks(a) && AtBoundary(x)
    ensures forall k | 0 <= k < |a| :: !(a + x)[k].Mark?
    ensures x != [] ==> (a + x)[|a|].Mark?
  {
    forall k | 0 <= k < |a|
      ensures !(a + x)[k].Mark?
    {
      assert a[k] in a;
    }
  }

  lemma {:induction false} SamePrefix(a: Code, x: Code, b: Code, y: Code)
    requires a + x == b + y && NoMarks(a) && NoMarks(b) && AtBoundary(x) && AtBoundary(y)
    ensures a == b && x == y
  {
    hide NoMarks;
    FirstMark(a, x);
    FirstMark(b, y);
    assert |a| == |b|;
    assert a == (a + x)[..|a|] == b && x == (a + x)[|a|..] == y;
  }

  /** Labels and instructions follow from the code. */
  lemma {:induction false} SameBlocks(xs: Blocks, ys: Blocks)
    requires MarkFree(xs) && MarkFree(ys) && Flat(xs) == Flat(ys)
    ensures |xs| == |ys|
    ensures forall k | 0 <= k < |xs| :: xs[k].label_ == ys[k].label_ && xs[k].insts == ys[k].insts
  {
    if xs != [] && ys != [] {
      var x, y := xs[0], ys[0];
      assert Flat(xs) == [Mark(x.label_)] + (x.insts + Flat(xs[1..]));
      assert Flat(ys) == [Mark(y.label_)] + (y.insts + Flat(ys[1..]));
      assert Flat(xs)[1..] == x.insts + Flat(xs[1..]) && Flat(ys)[1..] == y.insts + Flat(ys[1..]);
      assert Flat(xs)[0] == Mark(x.label_) && Flat(ys)[0] == Mark(y.label_);
      FlatBoundary(xs[1..]);
      FlatBoundary(ys[1..]);
      SamePrefix(x.insts, Flat(xs[1..]), y.insts, Flat(ys[1..]));
      SameBlocks(xs[1..], ys[1..]);
      forall k | 0 <= k < |xs|
        ensures xs[k].label_ == ys[k].label_ && xs[k].insts == ys[k].insts
      {
        assert k > 0 ==> xs[k] == xs[1..][k - 1] && ys[k] == ys[1..][k - 1];
      }
    }
  }

  // ---------- The shape of the blocks ----------

  predicate IsTest(bs: Blocks, k: nat) {
    k % 2 == 0 && k + 1 < |bs|
  }

  /** Tests at the even positions, each in front of its decision; decisions everywhere else. */
  predicate BlockShape(bs: Blocks, k: nat)
    requires k < |bs|
  {
    if IsTest(bs, k) then k + 2 < |bs| && EndsBranching(bs[k].insts, bs[k + 1].label_, bs[k + 2].label_)
    else EndsDeciding(bs[k].insts)
  }

  predicate GuardShape(bs: Blocks) {
    |bs| % 2 == 1 && forall k: nat | k < |bs| :: BlockShape(bs, k)
  }

  lemma {:induction false} ShapeOne(b: Block)
    requires EndsDeciding(b.insts)
    ensures GuardShape([b])
  {
    hide EndsDeciding;
  }

  lemma {:induction false} ShapeMore(b0: Block, b1: Block, rest: Blocks)
    requires GuardShape(rest) && EndsBranching(b0.insts, b1.label_, rest[0].label_) && EndsDeciding(b1.insts)
    ensures GuardShape([b0, b1] + rest)
  {
    hide EndsBranching, EndsDeciding;
    var bs := [b0, b1] + rest;
    forall k: nat | k < |bs|
      ensures BlockShape(bs, k)
    {
      if k >= 2 {
        assert BlockShape(rest, k - 2);
        assert bs[k] == rest[k - 2];
      }
    }
  }

  lemma {:induction false} PartsShape(ss: seq<Stmt>, l: Label, lab: nat, id: nat)
    requires Guards(ss)
    ensures GuardShape(Parts(ss, l, lab, id)) && Parts(ss, l, lab, id)[0].label_ == l
  {
    hide StmtCode, CondCode, EndsDeciding, EndsBranching, GuardShape, LeafList, Leaf, Simple;
    if ss[0].If? {
      var t, f := Fresh(lab + 1), Fresh(lab + 2);
      var c := CondCode(ss[0].cond, t, f, lab + 2, id);
      var th := StmtCode(ss[0].thn, c.labels, c.ids);
      SimpleCode(ss[0].cond, t, f, lab + 2, id);
      LeafStmtCode(ss[0].thn, c.labels, c.ids);
      var b0, b1 := Block(t, c.code, [], []), Block(t, th.code, [], []);
      if ss[0].els.Some? {
        LeafStmtCode(ss[0].els.value, th.labels + 1, th.ids);
        var b2 := Block(f, StmtCode(ss[0].els.value, th.labels + 1, th.ids).code, [], []);
        ShapeOne(b2);
        ShapeMore(Block(l, c.code, [], []), b1, [b2]);
      } else {
        PartsShape(ss[1..], f, th.labels, th.ids);
        ShapeMore(Block(l, c.code, [], []), b1, Parts(ss[1..], f, th.labels, th.ids));
      }
    } else {
      LeafCode(ss, lab, id);
      ShapeOne(Block(l, BodyCode(ss, lab, id).code, [], []));
    }
  }

  lemma {:induction false} EndedIsMarkFree(c: Code)
    requires c != [] && Flows(c[..|c| - 1]) && !c[|c| - 1].Mark?
    ensures NoMarks(c)
  {
    forall i | i in c
      ensures !i.Mark?
    {
      var k :| 0 <= k < |c| && c[k] == i;
      if k < |c| - 1 {
        assert c[..|c| - 1][k] == i;
      }
    }
  }

  lemma {:induction false} ShapeIsMarkFree(bs: Blocks)
    requires GuardShape(bs)
    ensures MarkFree(bs)
  {
    hide Flows, NoMarks;
    forall b | b in bs
      ensures NoMarks(b.insts)
    {
      var k: nat :| k < |bs| && bs[k] == b;
      assert BlockShape(bs, k);
      EndedIsMarkFree(b.insts);
    }
  }

  /** The blocks of guards, as BuildCFG makes them, are known by label and code. */
  lemma {:induction false} BlocksAreParts(ck: Check, at: Base, bs: Blocks)
    requires BlocksOf(ck, at, bs) && Guards(AsList(ck.body))
    ensures var ps := Parts(AsList(ck.body), Named(ck.name), at.labels, at.ids);
      && |bs| == |ps| && forall k | 0 <= k < |bs| :: bs[k].label_ == ps[k].label_ && bs[k].insts == ps[k].insts
    ensures GuardShape(bs)
  {
    hide Guards, Parts, PartsCode, Edges, Flat, FrontCode;
    var ss, l := AsList(ck.body), Named(ck.name);
    var ps := Parts(ss, l, at.labels, at.ids);
    GuardsFront(ck.body, at.labels, at.ids);
    PartsAreFlat(ss, l, at.labels, at.ids);
    PartsShape(ss, l, at.labels, at.ids);
    ShapeIsMarkFree(ps);
    SameBlocks(bs, ps);
    hide EndsBranching, EndsDeciding;
    forall k: nat | k < |bs|
      ensures BlockShape(bs, k)
    {
      assert BlockShape(ps, k);
    }
  }

  // ---------- Edges ----------

  lemma {:induction false} SlotsOfLast(c: Code, l: Label)
    requires c != [] && Flows(c[..|c| - 1])
    ensures Slots(c, l) == Count(c[|c| - 1].Targets(), l)
  {
    if |c| == 1 {
      assert c[1..] == [];
    } else {
      assert c[..|c| - 1][0] == c[0] && c[0] in c[..|c| - 1];
      assert c[0].Targets() == [];
      forall i | i in c[1..][..|c| - 2]
        ensures !i.Ends() && !i.Mark?
      {
        assert c[1..][..|c| - 2] == c[..|c| - 1][1..];
      }
      SlotsOfLast(c[1..], l);
    }
  }

  /** The block with the only edge to block `j`. */
  function SoleParent(j: nat): (p: nat)
    requires j > 0
    ensures p < j
  {
    if j % 2 == 1 then j - 1 else j - 2
  }

  lemma {:induction false} GuardEdges(bs: Blocks, i: nat, j: nat)
    requires GuardShape(bs) && DistinctLabels(bs) && i < j < |bs|
    ensures Edges(bs, i, j) == if i == SoleParent(j) then 1 else 0
  {
    var c, l := bs[i].insts, bs[j].label_;
    assert BlockShape(bs, i);
    SlotsOfLast(c, l);
    hide Slots, Flows;
    CountTargets(c[|c| - 1], l);
  }

  lemma {:induction false} OneElement(s: seq<nat>, p: nat)
    requires forall i: nat :: multiset(s)[i] == if i == p then 1 else 0
    ensures s == [p]
  {
    assert multiset(s) == multiset{p};
    assert |s| == |multiset(s)|;
    assert s[0] in multiset(s);
  }

  lemma {:induction false} NoElement(s: seq<nat>)
    requires forall i: nat :: multiset(s)[i] == 0
    ensures s == []
  {
    assert multiset(s) == multiset{};
    assert |s| == |multiset(s)|;
  }

  /** Every block but the first has one parent. */
  predicate ParentsKnown(bs: Blocks) {
    forall j: nat | j < |bs| :: bs[j].parents == if j == 0 then [] else [SoleParent(j)]
  }

  lemma {:induction false} GuardParents(ck: Check, at: Base, bs: Blocks)
    requires BlocksOf(ck, at, bs) && GuardShape(bs) && DistinctLabels(bs)
    ensures ParentsKnown(bs)
  {
    hide GuardShape, CheckCode, Edges, DistinctLabels;
    forall j: nat | j < |bs|
      ensures bs[j].parents == if j == 0 then [] else [SoleParent(j)]
    {
      forall i: nat
        ensures multiset(bs[j].parents)[i] == if j > 0 && i == SoleParent(j) then 1 else 0
      {
        assert multiset(bs[j].parents)[i] == Edges(bs, i, j);
        if i < j {
          GuardEdges(bs, i, j);
        } else {
          NoEdge(bs, i, j);
        }
      }
      if j == 0 {
        NoElement(bs[j].parents);
      } else {
        OneElement(bs[j].parents, SoleParent(j));
      }
    }
  }

  lemma {:induction false} NoEdge(bs: Blocks, i: nat, j: nat)
    requires i >= j
    ensures Edges(bs, i, j) == 0
  {
  }

  // ---------- Instructions ----------

  lemma {:induction false} ExprStarts(e: Expr, id: nat)
    requires StartsWithCall(e)
    ensures ExprCode(e, id).code != [] && ExprCode(e, id).code[0].Call?
    decreases Size(e)
  {
    match e {
      case Invoke(_, _) =>
      case Unary(_, arg) => ExprStarts(arg, id);
      case Binary(_, left, right) => PairStarts(left, right, id);
    }
  }

  lemma {:induction false} PairStarts(left: Expr, right: Expr, id: nat)
    requires PairStartsWithCall(left, right)
    ensures var c := ExprCode(left, id).code + ExprCode(right, ExprCode(left, id).ids).code; c != [] && c[0].Call?
    decreases Size(left) + Size(right)
  {
    if Computed(left) {
      ExprStarts(left, id);
    } else {
      assert ExprCode(left, id).code == [];
      ExprStarts(right, id);
    }
  }

  lemma {:induction false} CondStarts(e: Expr, t: Label, f: Label, lab: nat, id: nat)
    requires Simple(e) && CondStartsWithCall(e)
    ensures CondCode(e, t, f, lab, id).code != [] && CondCode(e, t, f, lab, id).code[0].Call?
  {
    if e.Unary? && e.op == NOT {
      CondStarts(e.arg, f, t, lab, id);
    } else {
      var (l, _, r) := Test(e);
      PairStarts(l, r, id);
    }
  }

  lemma {:induction false} ExprIsMeant(e: Expr, id: nat)
    requires FilterExpr(e)
    ensures forall i | i in ExprCode(e, id).code :: Meant(i)
  {
    if e.Binary? {
      ExprIsMeant(e.left, id);
      ExprIsMeant(e.right, ExprCode(e.left, id).ids);
    }
  }

  lemma {:induction false} TestIsMeant(e: Expr, t: Label, f: Label, lab: nat, id: nat)
    requires FilterTest(e)
    ensures forall i | i in TestCode(e, t, f, lab, id).code :: Meant(i)
  {
    var (l, _, r) := Test(e);
    ExprIsMeant(l, id);
    ExprIsMeant(r, ExprCode(l, id).ids);
    hide FilterExpr;
  }

  lemma {:induction false} CondIsMeant(e: Expr, t: Label, f: Label, lab: nat, id: nat)
    requires FilterCond(e)
    ensures forall i | i in CondCode(e, t, f, lab, id).code :: Meant(i)
  {
    hide TestCode, FilterTest, Test;
    if e.Unary? && e.op == NOT {
      CondIsMeant(e.arg, f, t, lab, id);
    } else if e.Binary? && (e.op == AND || e.op == OR) {
      var mid := Fresh(lab + 1);
      var t1, f1 := if e.op == AND then mid else t, if e.op == AND then f else mid;
      CondIsMeant(e.left, t1, f1, lab + 1, id);
      var x := CondCode(e.left, t1, f1, lab + 1, id);
      CondIsMeant(e.right, t, f, x.labels, x.ids);
    } else {
      TestIsMeant(e, t, f, lab, id);
    }
  }

  lemma {:induction false} CondIsShallow(e: Expr, t: Label, f: Label, lab: nat, id: nat)
    requires NoCalls(e) && CondOneCell(e)
    ensures Shallow(CondCode(e, t, f, lab, id).code, [])
  {
    var g := CondCode(e, t, f, lab, id);
    assert Sound([], [], g.ids) && Shallow([], []);
    assert g.code + [] == g.code;
    CondShallow(e, t, f, lab, id, []);
  }

  /** Stores of assignments that survive their write-back. */
  lemma {:induction false} LeafIsSafe(copied: set<string>, defs: Defs, ss: seq<Stmt>, lab: nat, id: nat)
    requires LeafList(ss) && (forall s | s in ss :: SafeAssign(copied, s)) && Grounded(defs)
    requires AllKnown(defs, BodyCode(ss, lab, id).code) && DefsMatch(defs, BodyCode(ss, lab, id).code)
    ensures SafeCode(copied, defs, BodyCode(ss, lab, id).code)
  {
    var x := StmtCode(ss[0], lab, id);
    var y := BodyCode(ss[1..], x.labels, x.ids);
    var c := BodyCode(ss, lab, id).code;
    assert c == x.code + y.code && ss[0] in ss;
    if |ss| > 1 {
      assert forall i | i in x.code :: i in c;
      assert forall i | i in y.code :: i in c;
      LeafIsSafe(copied, defs, ss[1..], x.labels, x.ids);
      AssignIsSafe(copied, defs, ss[0], lab, id);
    } else {
      assert ss[1..] == [];
    }
  }

  lemma {:induction false} AssignIsSafe(copied: set<string>, defs: Defs, s: Stmt, lab: nat, id: nat)
    requires s.Assign? && SafeAssign(copied, s) && Grounded(defs)
    requires AllKnown(defs, StmtCode(s, lab, id).code) && DefsMatch(defs, StmtCode(s, lab, id).code)
    ensures SafeCode(copied, defs, StmtCode(s, lab, id).code)
  {
    var g := ExprCode(s.expr, id);
    var st := Store(g.val, s.arg);
    var c := StmtCode(s, lab, id).code;
    assert c == g.code + [st];
    ExprCodeStraight(s.expr, id);
    forall i | i in g.code
      ensures i.Computes() && i.id in defs && defs[i.id] == i
    {
      assert i in c;
    }
    LiftingInvertsLowering(defs, s.expr, id);
    forall i | i in c
      ensures SafeStore(copied, defs, i)
    {
      assert i in g.code || i == st;
    }
  }

  // ---------- The blocks ----------

  /** What is wanted of a block, whether or not the tracer runs it. */
  predicate BlockFits(copied: set<string>, defs: Defs, bs: Blocks, k: nat)
    requires k < |bs| && Ordered(bs) && Grounded(defs) && AllKnown(defs, bs[k].insts)
  {
    && (Coloured(bs, k) ==> Start(bs, k) == 0)
    && (!Coloured(bs, k) ==> (forall i | i in bs[k].insts :: Meant(i)) && Shallow(bs[k].insts, []))
    && SafeCode(copied, defs, bs[k].insts)
  }

  /** The tracer has taken over before block `k`. */
  predicate TracedBefore(bs: Blocks, k: nat)
    requires k < |bs| && Ordered(bs)
  {
    exists p | p in bs[k].parents :: Coloured(bs, p)
  }

  lemma {:induction false} StartsHere(bs: Blocks, k: nat)
    requires k < |bs| && Ordered(bs) && (TracedBefore(bs, k) || (bs[k].insts != [] && bs[k].insts[0].Effect()))
    ensures Coloured(bs, k) && Start(bs, k) == 0
  {
    if !TracedBefore(bs, k) {
      assert bs[k].insts[0] in bs[k].insts;
      assert HasEffect(bs[k].insts);
    }
  }

  lemma {:induction false} StaysInFilter(bs: Blocks, k: nat)
    requires k < |bs| && Ordered(bs) && !TracedBefore(bs, k) && NoEffects(bs[k].insts)
    ensures !Coloured(bs, k)
  {
  }

  lemma {:induction false} NoStoresIsSafe(copied: set<string>, defs: Defs, c: Code)
    requires Grounded(defs) && AllKnown(defs, c) && forall i | i in c :: !i.Store?
    ensures SafeCode(copied, defs, c)
  {
  }

  lemma {:induction false} CondHasNoStore(e: Expr, t: Label, f: Label, lab: nat, id: nat)
    ensures forall i | i in CondCode(e, t, f, lab, id).code :: !i.Store?
  {
    if e.Unary? && e.op == NOT {
      CondHasNoStore(e.arg, f, t, lab, id);
    } else if e.Binary? && (e.op == AND || e.op == OR) {
      var mid := Fresh(lab + 1);
      var t1, f1 := if e.op == AND then mid else t, if e.op == AND then f else mid;
      CondHasNoStore(e.left, t1, f1, lab + 1, id);
      var x := CondCode(e.left, t1, f1, lab + 1, id);
      CondHasNoStore(e.right, t, f, x.labels, x.ids);
    } else {
      var (l, _, r) := Test(e);
      ExprCodeStraight(l, id);
      ExprCodeStraight(r, ExprCode(l, id).ids);
      hide ExprCode;
    }
  }

  lemma {:induction false} TestFits(copied: set<string>, defs: Defs, bs: Blocks, k: nat, e: Expr, t: Label, f: Label,
                                    lab: nat, id: nat)
    requires k < |bs| && Ordered(bs) && Grounded(defs) && AllKnown(defs, bs[k].insts)
    requires Simple(e) && bs[k].insts == CondCode(e, t, f, lab, id).code && TestScreened(e, TracedBefore(bs, k))
    ensures BlockFits(copied, defs, bs, k) && (Coloured(bs, k) <==> TracedBefore(bs, k) || !NoCalls(e))
  {
    hide CondCode, Coloured, Start, TracedBefore, FilterCond, CondOneCell, CondStartsWithCall, SafeCode, Grounded,
      AllKnown, Shallow, Simple;
    CondHasNoStore(e, t, f, lab, id);
    NoStoresIsSafe(copied, defs, bs[k].insts);
    if TracedBefore(bs, k) {
      StartsHere(bs, k);
    } else if NoCalls(e) {
      CondHasNoEffects(e, t, f, lab, id);
      StaysInFilter(bs, k);
      CondIsMeant(e, t, f, lab, id);
      CondIsShallow(e, t, f, lab, id);
    } else {
      CondStarts(e, t, f, lab, id);
      StartsHere(bs, k);
    }
  }

  lemma {:induction false} LeafStarts(ss: seq<Stmt>, lab: nat, id: nat)
    requires LeafList(ss) && |ss| > 1 && (!Computed(ss[0].expr) || StartsWithCall(ss[0].expr))
    ensures BodyCode(ss, lab, id).code != [] && BodyCode(ss, lab, id).code[0].Effect()
  {
    var x := StmtCode(ss[0], lab, id);
    var g := ExprCode(ss[0].expr, id);
    assert x.code == g.code + [Store(g.val, ss[0].arg)];
    if Computed(ss[0].expr) {
      ExprStarts(ss[0].expr, id);
    } else {
      assert g.code == [];
    }
    assert BodyCode(ss, lab, id).code == x.code + BodyCode(ss[1..], x.labels, x.ids).code;
  }

  lemma {:induction false} LeafAlone(ss: seq<Stmt>, lab: nat, id: nat)
    requires LeafList(ss) && |ss| == 1
    ensures var c := BodyCode(ss, lab, id).code; Shallow(c, []) && NoEffects(c) && forall i | i in c :: Meant(i)
  {
    assert ss[1..] == [];
    var c := BodyCode(ss, lab, id).code;
    assert c == [Return(Decision(ss[0].perm))] && c[1..] == [];
    assert Shallow([], []);
  }

  lemma {:induction false} LeafFits(copied: set<string>, defs: Defs, bs: Blocks, k: nat, ss: seq<Stmt>, lab: nat,
                                    id: nat)
    requires k < |bs| && Ordered(bs) && Grounded(defs) && AllKnown(defs, bs[k].insts) && DefsMatch(defs, bs[k].insts)
    requires LeafList(ss) && bs[k].insts == BodyCode(ss, lab, id).code && LeafScreened(copied, ss, TracedBefore(bs, k))
    ensures BlockFits(copied, defs, bs, k)
  {
    hide BodyCode, Coloured, Start, TracedBefore, StartsWithCall, SafeCode, Grounded, AllKnown, Shallow, LeafList,
      Meant, SafeAssign;
    LeafIsSafe(copied, defs, ss, lab, id);
    assert ss != [] by { LeafHasStatement(ss); }
    if TracedBefore(bs, k) {
      StartsHere(bs, k);
    } else if |ss| > 1 {
      LeafIsAssign(ss);
      LeafStarts(ss, lab, id);
      StartsHere(bs, k);
    } else {
      LeafAlone(ss, lab, id);
      StaysInFilter(bs, k);
    }
  }

  lemma {:induction false} LeafHasStatement(ss: seq<Stmt>)
    requires LeafList(ss)
    ensures ss != []
  {
  }

  lemma {:induction false} LeafIsAssign(ss: seq<Stmt>)
    requires LeafList(ss) && |ss| > 1
    ensures ss[0].Assign?
  {
  }

  /** From block `p` on the blocks are those of the guards. */
  predicate LaidOut(bs: Blocks, p: nat, ps: Blocks) {
    p + |ps| == |bs| && forall k: nat | k < |ps| :: SameCodeAt(bs, p, ps, k)
  }

  predicate SameCodeAt(bs: Blocks, p: nat, ps: Blocks, k: nat)
    requires p + |ps| == |bs| && k < |ps|
  {
    bs[p + k].insts == ps[k].insts
  }

  lemma {:induction false} LaidOutAfter(bs: Blocks, p: nat, b0: Block, b1: Block, rest: Blocks)
    requires LaidOut(bs, p, [b0, b1] + rest)
    ensures p + 2 <= |bs| && bs[p].insts == b0.insts && bs[p + 1].insts == b1.insts && LaidOut(bs, p + 2, rest)
  {
    var ps, q := [b0, b1] + rest, p + 2;
    assert SameCodeAt(bs, p, ps, 0) && SameCodeAt(bs, p, ps, 1);
    forall k: nat | k < |rest|
      ensures SameCodeAt(bs, q, rest, k)
    {
      assert SameCodeAt(bs, p, ps, k + 2);
      assert ps[k + 2] == rest[k];
    }
  }

  lemma {:induction false} LaidOutOne(bs: Blocks, p: nat, b: Block)
    requires LaidOut(bs, p, [b])
    ensures |bs| == p + 1 && bs[p].insts == b.insts
  {
    assert SameCodeAt(bs, p, [b], 0);
  }

  /** What is known of the blocks of a check of guards. */
  predicate GuardFacts(defs: Defs, bs: Blocks) {
    && Ordered(bs) && Grounded(defs) && ParentsKnown(bs)
    && forall k: nat | k < |bs| :: AllKnown(defs, bs[k].insts) && DefsMatch(defs, bs[k].insts)
  }

  lemma {:induction false} FactsAt(defs: Defs, bs: Blocks, k: nat)
    requires GuardFacts(defs, bs) && k < |bs|
    ensures Ordered(bs) && Grounded(defs) && AllKnown(defs, bs[k].insts) && DefsMatch(defs, bs[k].insts)
  {
    hide AllKnown, DefsMatch, Grounded;
  }

  lemma {:induction false} TracedFromParent(defs: Defs, bs: Blocks, k: nat)
    requires GuardFacts(defs, bs) && Ordered(bs) && k < |bs|
    ensures TracedBefore(bs, k) <==> k > 0 && Coloured(bs, SoleParent(k))
  {
    hide AllKnown, DefsMatch, Grounded, Ordered, Coloured;
  }

  ghost predicate FitsAt(copied: set<string>, defs: Defs, bs: Blocks, k: nat)
    requires k < |bs|
  {
    Ordered(bs) && Grounded(defs) && AllKnown(defs, bs[k].insts) && BlockFits(copied, defs, bs, k)
  }

  /** The blocks of a test and of its decision, and what is known behind them. */
  lemma {:induction false} GuardFits(copied: set<string>, defs: Defs, bs: Blocks, p: nat, s: Stmt, l: Label, lab: nat,
                                     id: nat, rest: Blocks)
    requires GuardFacts(defs, bs) && Ordered(bs) && p % 2 == 0 && p + 2 < |bs| && s.If? && Simple(s.cond) && Leaf(s.thn)
    requires LeafList(AsList(s.thn))
    requires var t, f := Fresh(lab + 1), Fresh(lab + 2);
      var c := CondCode(s.cond, t, f, lab + 2, id);
      LaidOut(bs, p, [Block(l, c.code, [], []), Block(t, StmtCode(s.thn, c.labels, c.ids).code, [], [])] + rest)
    requires TestScreened(s.cond, TracedBefore(bs, p))
    requires LeafScreened(copied, AsList(s.thn), TracedBefore(bs, p) || !NoCalls(s.cond))
    ensures FitsAt(copied, defs, bs, p) && FitsAt(copied, defs, bs, p + 1) && LaidOut(bs, p + 2, rest)
    ensures TracedBefore(bs, p + 2) <==> TracedBefore(bs, p) || !NoCalls(s.cond)
  {
    hide GuardFacts, CondCode, StmtCode, LaidOut, TracedBefore, Coloured, LeafScreened, TestScreened, BlockFits,
      Ordered, Grounded, AllKnown, DefsMatch,
      LeafList, Leaf, Simple, NoCalls, AsList, BodyCode;
    var t, f := Fresh(lab + 1), Fresh(lab + 2);
    var c := CondCode(s.cond, t, f, lab + 2, id);
    LaidOutAfter(bs, p, Block(l, c.code, [], []), Block(t, StmtCode(s.thn, c.labels, c.ids).code, [], []), rest);
    FactsAt(defs, bs, p);
    FactsAt(defs, bs, p + 1);
    TestFits(copied, defs, bs, p, s.cond, t, f, lab + 2, id);
    TracedFromParent(defs, bs, p + 1);
    TracedFromParent(defs, bs, p + 2);
    SameCode(s.thn, c.labels, c.ids);
    LeafFits(copied, defs, bs, p + 1, AsList(s.thn), c.labels, c.ids);
  }

  lemma {:induction false} LeafIsList(s: Stmt)
    requires Leaf(s)
    ensures LeafList(AsList(s))
  {
  }

  /** From a position on, every block of screened guards is as it should be. */
  lemma {:induction false} GuardsFit(copied: set<string>, defs: Defs, bs: Blocks, p: nat, ss: seq<Stmt>, l: Label,
                                     lab: nat, id: nat)
    requires GuardFacts(defs, bs) && Ordered(bs) && p % 2 == 0 && p < |bs|
    requires Guards(ss) && LaidOut(bs, p, Parts(ss, l, lab, id)) && Screened(copied, ss, TracedBefore(bs, p))
    ensures forall k: nat | p <= k < |bs| :: FitsAt(copied, defs, bs, k)
    decreases |ss|
  {
    hide GuardFacts, CondCode, StmtCode, LaidOut, TracedBefore, Coloured, LeafScreened, TestScreened, BlockFits, FitsAt,
      Ordered, Grounded, AllKnown, DefsMatch,
      LeafList, Leaf, Simple, NoCalls, AsList, BodyCode;
    if ss[0].If? {
      var s := ss[0];
      var t, f := Fresh(lab + 1), Fresh(lab + 2);
      var c := CondCode(s.cond, t, f, lab + 2, id);
      var th := StmtCode(s.thn, c.labels, c.ids);
      LeafIsList(s.thn);
      if s.els.Some? {
        var el := StmtCode(s.els.value, th.labels + 1, th.ids);
        var b2 := Block(f, el.code, [], []);
        LaidOutLength(bs, p, Block(l, c.code, [], []), Block(t, th.code, [], []), [b2]);
        GuardFits(copied, defs, bs, p, s, l, lab, id, [b2]);
        LaidOutOne(bs, p + 2, b2);
        FactsAt(defs, bs, p + 2);
        LeafIsList(s.els.value);
        SameCode(s.els.value, th.labels + 1, th.ids);
        LeafFits(copied, defs, bs, p + 2, AsList(s.els.value), th.labels + 1, th.ids);
        FitsHere(copied, defs, bs, p + 2);
      } else {
        var rest := Parts(ss[1..], f, th.labels, th.ids);
        PartsShape(ss[1..], f, th.labels, th.ids);
        LaidOutLength(bs, p, Block(l, c.code, [], []), Block(t, th.code, [], []), rest);
        GuardFits(copied, defs, bs, p, s, l, lab, id, rest);
        GuardsFit(copied, defs, bs, p + 2, ss[1..], f, th.labels, th.ids);
      }
    } else {
      LaidOutOne(bs, p, Block(l, BodyCode(ss, lab, id).code, [], []));
      FactsAt(defs, bs, p);
      LeafFits(copied, defs, bs, p, ss, lab, id);
      FitsHere(copied, defs, bs, p);
    }
  }

  lemma {:induction false} LaidOutLength(bs: Blocks, p: nat, b0: Block, b1: Block, rest: Blocks)
    requires LaidOut(bs, p, [b0, b1] + rest)
    ensures |bs| == p + 2 + |rest|
  {
  }

  lemma {:induction false} FitsHere(copied: set<string>, defs: Defs, bs: Blocks, k: nat)
    requires k < |bs| && Ordered(bs) && Grounded(defs) && AllKnown(defs, bs[k].insts) && BlockFits(copied, defs, bs, k)
    ensures FitsAt(copied, defs, bs, k)
  {
  }

  // ---------- The filter ----------

  /** Blocks have at most one parent, so the blocks that need the tracer are the ones that only
      the tracer runs. */
  lemma {:induction false} OnlyIfColoured(bs: Blocks, k: nat)
    requires Ordered(bs) && ParentsKnown(bs) && k < |bs|
    ensures Only(bs, k) <==> Coloured(bs, k)
  {
    hide Coloured;
  }

  lemma {:induction false} ShallowJoins(a: Code, b: Code, st: seq<nat>)
    requires Disciplined(a, st) && Shallow(a, st) && Shallow(b, [])
    ensures Shallow(a + b, st)
  {
    if a == [] {
      assert a + b == b;
    } else {
      assert (a + b)[1..] == a[1..] + b;
      hide Step;
      ShallowJoins(a[1..], b, Step(a[0], st).value);
    }
  }

  lemma {:induction false} MarkedShallow(l: Label, c: Code)
    requires Shallow(c, [])
    ensures Shallow([Mark(l)] + c, [])
  {
    assert ([Mark(l)] + c)[1..] == c;
  }

  lemma {:induction false} HandOffIsMeant(l: Label, n: nat)
    ensures var c := [Mark(l), Return(ToPtrace(n))];
      Shallow(c, []) && (forall i | i in c :: Meant(i)) && Shallow(c[1..], []) && Shallow([], [])
  {
    var c := [Mark(l), Return(ToPtrace(n))];
    assert c[1..] == [Return(ToPtrace(n))] && c[1..][1..] == [];
    assert Shallow([], []);
  }

  lemma {:induction false} BlockEmitsMeant(copied: set<string>, defs: Defs, bs: Blocks, k: nat, n: nat)
    requires Ordered(bs) && ParentsKnown(bs) && k < |bs| && FitsAt(copied, defs, bs, k)
    ensures var c := EmitBlock(bs, k, n).code; (forall i | i in c :: Meant(i)) && Shallow(c, [])
  {
    OnlyIfColoured(bs, k);
    HandOffIsMeant(bs[k].label_, n);
    hide Only, Coloured, Start, Targeted, SafeCode, Shallow;
    if !Coloured(bs, k) {
      MarkedShallow(bs[k].label_, bs[k].insts);
    }
  }

  lemma {:induction false} EmitIsMeant(copied: set<string>, defs: Defs, bs: Blocks, k: nat, n: nat)
    requires Ordered(bs) && ParentsKnown(bs) && BlocksDisciplined(bs) && k <= |bs|
    requires forall j: nat | k <= j < |bs| :: FitsAt(copied, defs, bs, j)
    ensures var c := Emit(bs, k, n).code; (forall i | i in c :: Meant(i)) && Shallow(c, [])
    decreases |bs| - k
  {
    hide EmitBlock, ParentsKnown, Meant, Shallow, FitsAt, Ordered;
    if k < |bs| {
      var x := EmitBlock(bs, k, n);
      BlockEmitsMeant(copied, defs, bs, k, n);
      assert bs[k] in bs;
      BlockEmissionDiscipline(bs, k, n);
      EmitIsMeant(copied, defs, bs, k + 1, n + |x.table|);
      ShallowJoins(x.code, Emit(bs, k + 1, n + |x.table|).code, []);
    } else {
      HandOffIsMeant(Named(""), 0);
    }
  }

  lemma {:induction false} FilterIsMeant(copied: set<string>, defs: Defs, bs: Blocks, n: nat)
    requires Ordered(bs) && bs != [] && ParentsKnown(bs) && BlocksDisciplined(bs)
    requires forall j: nat | j < |bs| :: FitsAt(copied, defs, bs, j)
    ensures (forall i | i in FilterIr(bs, n) :: Meant(i)) && Shallow(FilterIr(bs, n), [])
  {
    hide Only, Meant, FitsAt, ParentsKnown, Ordered, Emit, Shallow;
    if Only(bs, 0) {
      HandOffIsMeant(bs[0].label_, n);
    } else {
      EmitIsMeant(copied, defs, bs, 0, n);
      EmitStarts(bs, n);
      var c := Emit(bs, 0, n).code;
      assert c == [c[0]] + c[1..];
      TailShallow(c);
    }
  }

  lemma {:induction false} EmitStarts(bs: Blocks, n: nat)
    requires Ordered(bs) && bs != [] && !Only(bs, 0)
    ensures Emit(bs, 0, n).code != [] && Emit(bs, 0, n).code[0].Mark?
  {
  }

  lemma {:induction false} TailShallow(c: Code)
    requires c != [] && c[0].Mark? && Shallow(c, [])
    ensures Shallow(c[1..], [])
  {
  }

  // ---------- The check ----------

  /** A check of guards that the text says is within what both targets express. */
  predicate GuardCheck(ck: Check) {
    Guards(AsList(ck.body)) && Screened(ck.copied, AsList(ck.body), false)
  }

  lemma {:induction false} GuardCheckFits(ck: Check, at: Base, bs: Blocks)
    requires GoodBlocks(ck, at, bs) && GuardCheck(ck)
    ensures Ordered(bs) && ParentsKnown(bs) && GuardShape(bs)
    ensures forall k: nat | k < |bs| :: FitsAt(ck.copied, DefsFor(ck, at), bs, k)
  {
    hide GoodBlock, Edges, CheckCode, Coloured, Parts, Guards, AllKnown, DefsMatch, Screened, FitsAt, DefsFor,
      DistinctLabels, Ordered, Disciplined;
    var defs, ss, l := DefsFor(ck, at), AsList(ck.body), Named(ck.name);
    BlocksAreParts(ck, at, bs);
    GuardParents(ck, at, bs);
    forall k: nat | k < |bs|
      ensures AllKnown(defs, bs[k].insts) && DefsMatch(defs, bs[k].insts)
    {
      BlockKnown(ck, at, bs, k);
    }
    var ps := Parts(ss, l, at.labels, at.ids);
    forall k: nat | k < |ps|
      ensures SameCodeAt(bs, 0, ps, k)
    {
    }
    assert LaidOut(bs, 0, ps);
    hide GoodBlocks, LaidOut;
    assert GuardFacts(defs, bs);
    TracedFromParent(defs, bs, 0);
    GuardsFit(ck.copied, defs, bs, 0, ss, l, at.labels, at.ids);
  }

  lemma {:induction false} GuardBlocksEnd(bs: Blocks, k: nat)
    requires GuardShape(bs) && k < |bs|
    ensures !FallsThrough(bs[k].insts)
  {
    assert BlockShape(bs, k);
  }

  lemma {:induction false} FitsParts(copied: set<string>, defs: Defs, bs: Blocks, k: nat)
    requires k < |bs| && FitsAt(copied, defs, bs, k)
    ensures Ordered(bs) && Grounded(defs) && AllKnown(defs, bs[k].insts) && SafeCode(copied, defs, bs[k].insts)
    ensures Coloured(bs, k) ==> Start(bs, k) == 0
  {
    hide Coloured, Start, SafeCode, Meant, Shallow, AllKnown, Grounded, Ordered;
  }

  /** What a check's text says is enough: whatever labels and numbers it gets, both targets
      express its blocks as they were meant, and no assertion of the code generator fails. */
  lemma {:induction false} GuardsAreSupported(ck: Check, at: Base, bs: Blocks, n: nat)
    requires WellTyped(ck.body) && VariablesDeclared(ck.params, RawCode(ck, at)) && BlocksOf(ck, at, bs)
    requires GuardCheck(ck)
    ensures Supported(ck, at, bs, n) && Compiled(ck, at, bs, n)
  {
    hide WellTyped, VariablesDeclared, RawCode, BlocksOf, GuardCheck, GoodBlocks, Ready, DefsFor, FilterIr, Coloured,
      Start, SafeCode, ParentsKnown, FitsAt, Ordered, Shallow, Meant, GuardShape, TableOf;
    var defs := DefsFor(ck, at);
    BlocksAreGood(ck, at, bs);
    GuardCheckFits(ck, at, bs);
    JobIsRunnable(ck, at, bs, n);
    GoodIsOrdered(ck, at, bs);
    FilterIsMeant(ck.copied, defs, bs, n);
    var x := JobOf(ck, at, bs, n);
    forall k: nat | k < |bs|
      ensures Grounded(defs) && AllKnown(defs, bs[k].insts) && SafeCode(ck.copied, defs, bs[k].insts)
      ensures !FallsThrough(bs[k].insts)
      ensures Coloured(bs, k) ==> Start(bs, k) == 0
    {
      FitsParts(ck.copied, defs, bs, k);
      GuardBlocksEnd(bs, k);
    }
    SupportedCompiles(ck, at, bs, n);
  }

  // ---------- Deciding ----------

  lemma {:induction false} LeafDecides(ss: seq<Stmt>)
    requires LeafList(ss)
    ensures (exists s | s in ss :: Decides(s)) && forall s | s in ss :: ThenBranchesDecide(s)
  {
    assert ss == [ss[0]] + ss[1..];
    if |ss| == 1 {
      assert Decides(ss[0]);
    } else {
      LeafDecides(ss[1..]);
      var s :| s in ss[1..] && Decides(s);
      assert s in ss;
    }
  }

  lemma {:induction false} LeafStmtDecides(s: Stmt)
    requires Leaf(s)
    ensures Decides(s) && ThenBranchesDecide(s)
  {
    if s.Compound? {
      LeafDecides(s.stmts);
    }
  }

  lemma {:induction false} GuardsDecide(ss: seq<Stmt>)
    requires Guards(ss)
    ensures (exists s | s in ss :: Decides(s)) && forall s | s in ss :: ThenBranchesDecide(s)
  {
    assert ss == [ss[0]] + ss[1..];
    if ss[0].If? {
      LeafStmtDecides(ss[0].thn);
      if ss[0].els.Some? {
        LeafStmtDecides(ss[0].els.value);
        assert Decides(ss[0]);
      } else {
        GuardsDecide(ss[1..]);
        var s :| s in ss[1..] && Decides(s);
        assert s in ss;
      }
    } else {
      LeafDecides(ss);
    }
  }

  lemma {:induction false} GuardBodyDecides(s: Stmt)
    requires Guards(AsList(s))
    ensures Decides(s) && ThenBranchesDecide(s)
  {
    hide Guards;
    GuardsDecide(AsList(s));
    if !s.Compound? {
      assert s in AsList(s);
    }
  }
}
