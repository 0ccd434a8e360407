/** One check of a policy, from its text to what the back ends are given: the facts about its
    blocks that every later stage relies on. */
module Check {
  import opened Syntax
  import opened Ir
  import opened IrGen
  import opened AstGen
  import opened Merge
  import opened DeadCode
  import opened Cfg
  import opened Colour
  import opened Split
  import opened Bpf
  import opened BpfGen
  import opened BpfSim
  import opened Generated
  import opened Preserved
  import opened BlockFacts
  import opened FrontEnd
  import opened Lifter

  /** A check: the syscall, its parameters, the body, and the parameters that stand for memory
      of the traced program. */
  datatype Check = Check(name: string, params: seq<string>, body: Stmt, copied: set<string>)

  /** The counters at which the code of the check starts. */
  datatype Base = Base(labels: nat, ids: nat)

  function RawCode(ck: Check, at: Base): Code {
    StmtCode(ck.body, at.labels, at.ids).code
  }

  /** What `SyscallCheck::IRGen` leaves in front of BuildCFG. */
  function CheckCode(ck: Check, at: Base): Code {
    FrontCode(ck.body, at.labels, at.ids)
  }

  ghost predicate BlocksOf(ck: Check, at: Base, bs: Blocks) {
    IsCfg(bs, Named(ck.name), CheckCode(ck, at))
  }

  // ---------- What is generated for a check ----------

  /** The filter's code of a check whose hand-off numbers start at `n`, without its label. */
  function FilterIr(bs: Blocks, n: nat): Code
    requires Ordered(bs) && bs != []
  {
    if BpfIr(bs, n).code == [] then [] else BpfIr(bs, n).code[1..]
  }

  /** The labels at which the filter hands off, by number from `n`. */
  function TableOf(bs: Blocks, n: nat): seq<Label>
    requires Ordered(bs) && bs != []
  {
    BpfIr(bs, n).table
  }

  function FilterOf(ck: Check, bs: Blocks, n: nat): Option<Filters>
    requires Ordered(bs) && bs != []
  {
    BpfCode(BpfIr(bs, n).code, ArgIndexOf(ck.params))
  }

  /** What the lifter is given. */
  ghost function JobOf(ck: Check, at: Base, bs: Blocks, n: nat): Job
    requires Ordered(bs) && bs != []
  {
    Job(bs, LiftedSet(bs), (set l | l in TableOf(bs, n)), DefsFor(ck, at), ck.copied)
  }

  /** What GenCode writes; the job of every accepted check is well formed. */
  function TextOf(x: Job): Lines {
    if WellFormedJob(x) then ProgramLines(x, 0) else []
  }

  // ---------- Declared variables ----------

  predicate NamedIn(params: seq<string>, o: Operand) {
    o.Mem? ==> o.name in params
  }

  /** The variables an instruction mentions, as CheckVariableUse looks them up. */
  predicate UsesOnly(params: seq<string>, i: Inst) {
    match i
    case Arith1(_, _, a) => NamedIn(params, a)
    case Arith2(_, _, a, b) => NamedIn(params, a) && NamedIn(params, b)
    case Call(_, _, args) => forall x | x in args :: x in params
    case Store(src, dst) => NamedIn(params, src) && dst in params
    case Branch(_, a, b, _, _) => NamedIn(params, a) && NamedIn(params, b)
    case _ => true
  }

  predicate VariablesDeclared(params: seq<string>, c: Code) {
    forall i | i in c :: UsesOnly(params, i)
  }

  /** `arg_index_`: of equal names the last one counts. */
  function ArgIndexOf(params: seq<string>): (idx: ArgIndex)
    ensures forall x :: x in idx <==> x in params
    ensures forall x | x in idx :: idx[x] < |params| && params[idx[x]] == x
  {
    if params == [] then map[]
    else
      var n := |params| - 1;
      ArgIndexOf(params[..n])[params[n] := n]
  }

  // ---------- The instructions of a check ----------

  /** What the grammar and IR generation put into instructions. */
  predicate Regular(i: Inst) {
    Typed(i) && (i.Return? ==> i.val.Decision?)
  }

  lemma {:induction false} ExprIsRegular(e: Expr, id: nat)
    requires IntExpr(e)
    ensures forall i | i in ExprCode(e, id).code :: Regular(i)
  {
    match e {
      case Unary(_, arg) => ExprIsRegular(arg, id);
      case Binary(_, left, right) =>
        ExprIsRegular(left, id);
        ExprIsRegular(right, ExprCode(left, id).ids);
      case _ =>
    }
  }

  lemma {:induction false} CondIsRegular(e: Expr, t: Label, f: Label, lab: nat, id: nat)
    requires CondExpr(e)
    ensures forall i | i in CondCode(e, t, f, lab, id).code :: Regular(i)
  {
    if e.Unary? && e.op == NOT {
      CondIsRegular(e.arg, f, t, lab, id);
    } else if e.Binary? && (e.op == AND || e.op == OR) {
      var mid := Fresh(lab + 1);
      var t1, f1 := if e.op == AND then mid else t, if e.op == AND then f else mid;
      var x := CondCode(e.left, t1, f1, lab + 1, id);
      CondIsRegular(e.left, t1, f1, lab + 1, id);
      CondIsRegular(e.right, t, f, x.labels, x.ids);
    } else {
      var (l, op, r) := Test(e);
      ExprIsRegular(l, id);
      ExprIsRegular(r, ExprCode(l, id).ids);
    }
  }

  lemma {:induction false} StmtIsRegular(s: Stmt, lab: nat, id: nat)
    requires WellTyped(s)
    ensures forall i | i in StmtCode(s, lab, id).code :: Regular(i)
    decreases s, 1
  {
    match s {
      case Assign(expr, _) => ExprIsRegular(expr, id);
      case If(_, _, _) => IfIsRegular(s, lab, id);
      case Compound(stmts) => BodyIsRegular(stmts, lab, id);
      case _ =>
    }
  }

  lemma {:induction false} IfIsRegular(s: Stmt, lab: nat, id: nat)
    requires s.If? && WellTyped(s)
    ensures forall i | i in StmtCode(s, lab, id).code :: Regular(i)
    decreases s, 0, 1
  {
    IfAppends(s, [], lab, id);
    hide StmtCode, ThenPart, ElsePart;
    var x := ThenPart(s, lab, id);
    ThenIsRegular(s, lab, id);
    if s.els.Some? {
      ElseIsRegular(s.els.value, Fresh(lab + 2), x.labels, x.ids);
    }
  }

  lemma {:induction false} ThenIsRegular(s: Stmt, lab: nat, id: nat)
    requires s.If? && WellTyped(s)
    ensures forall i | i in ThenPart(s, lab, id).code :: Regular(i)
    decreases s, 0, 0
  {
    var c := CondCode(s.cond, Fresh(lab + 1), Fresh(lab + 2), lab + 2, id);
    CondIsRegular(s.cond, Fresh(lab + 1), Fresh(lab + 2), lab + 2, id);
    StmtIsRegular(s.thn, c.labels, c.ids);
    hide CondCode, StmtCode;
  }

  lemma {:induction false} ElseIsRegular(s: Stmt, f: Label, lab: nat, id: nat)
    requires WellTyped(s)
    ensures forall i | i in ElsePart(s, f, lab, id).code :: Regular(i)
    decreases s, 2
  {
    StmtIsRegular(s, lab + 1, id);
    hide StmtCode;
  }

  lemma {:induction false} BodyIsRegular(ss: seq<Stmt>, lab: nat, id: nat)
    requires forall s | s in ss :: WellTyped(s)
    ensures forall i | i in BodyCode(ss, lab, id).code :: Regular(i)
    decreases ss, 0
  {
    if ss != [] {
      StmtIsRegular(ss[0], lab, id);
      var x := StmtCode(ss[0], lab, id);
      BodyIsRegular(ss[1..], x.labels, x.ids);
    }
  }

  /** What an instruction of a block has from the instruction it was generated as. */
  predicate Inherited(params: seq<string>, defs: Defs, i: Inst) {
    && Regular(i) && UsesOnly(params, i) && OperandsKnown(defs, i)
    && (i.Computes() ==> i.id in defs && defs[i.id] == i)
  }

  lemma {:induction false} RetargetInherits(heads: map<Label, Label>, params: seq<string>, defs: Defs, i: Inst)
    requires Inherited(params, defs, i)
    ensures Inherited(params, defs, Retarget(heads, i))
  {
  }

  function DefsFor(ck: Check, at: Base): Defs {
    DefsOf(RawCode(ck, at))
  }

  lemma {:induction false} CodeInherits(ck: Check, at: Base)
    requires WellTyped(ck.body) && VariablesDeclared(ck.params, RawCode(ck, at))
    ensures Grounded(DefsFor(ck, at)) && Ascending([Mark(Named(ck.name))] + CheckCode(ck, at), at.ids)
    ensures forall i | i in CheckCode(ck, at) :: Inherited(ck.params, DefsFor(ck, at), i)
  {
    hide StmtCode, Disciplined, Ascending, UsesOnly, DefsOf;
    var c, defs := RawCode(ck, at), DefsFor(ck, at);
    GeneratedIsSound(ck.body, at.labels, at.ids);
    DefsAreGrounded(c, at.ids);
    StmtIsRegular(ck.body, at.labels, at.ids);
    PassesKeepInstructions(c);
    PassesKeepOrder(c, at.ids);
    MarkedOrder(Named(ck.name), CheckCode(ck, at), at.ids);
    forall i' | i' in CheckCode(ck, at)
      ensures Inherited(ck.params, defs, i')
    {
      var i :| i in c && i' == Retarget(Heads(c, None), i);
      RetargetInherits(Heads(c, None), ck.params, defs, i);
    }
  }

  lemma {:induction false} MarkedOrder(l: Label, c: Code, n: nat)
    requires Ascending(c, n)
    ensures Ascending([Mark(l)] + c, n)
  {
    assert ([Mark(l)] + c)[1..] == c;
  }

  // ---------- The blocks of a check ----------

  /** What the back ends need to know of the blocks. */
  ghost predicate GoodBlocks(ck: Check, at: Base, bs: Blocks) {
    && BlocksOf(ck, at, bs) && bs != [] && MarkFree(bs) && Ordered(bs) && DistinctLabels(bs) && BlocksDisciplined(bs)
    && Grounded(DefsFor(ck, at)) && Ascending(Flat(bs), at.ids)
    && (forall k | 0 <= k < |bs| :: GoodBlock(ck, at, bs, k))
  }

  lemma {:induction false} GoodIsOrdered(ck: Check, at: Base, bs: Blocks)
    requires GoodBlocks(ck, at, bs)
    ensures Ordered(bs) && bs != [] && BlocksDisciplined(bs) && DistinctLabels(bs) && MarkFree(bs)
    ensures BlocksOf(ck, at, bs)
  {
  }

  predicate GoodInst(ck: Check, at: Base, bs: Blocks, k: nat, i: Inst)
    requires k < |bs|
  {
    && Inherited(ck.params, DefsFor(ck, at), i) && !i.Jump?
    && forall l | l in i.Targets() :: Find(bs, k + 1, l).Some?
  }

  predicate GoodBlock(ck: Check, at: Base, bs: Blocks, k: nat)
    requires k < |bs|
  {
    && (forall i | i in bs[k].insts :: GoodInst(ck, at, bs, k, i))
    && (forall n | 0 <= n < |bs[k].insts| - 1 :: !bs[k].insts[n].Ends())
    && (bs[k].label_ == Named(ck.name) || bs[k].label_.Fresh?)
  }

  lemma {:induction false} LabelledShape(c: Code, name: string)
    requires FrontShape(c)
    ensures var w := [Mark(Named(name))] + c;
      UniqueMarks(w) && Forward(w, {}) && EndsEndBlocks(w) && Disciplined(w, [])
  {
    var w := [Mark(Named(name))] + c;
    assert w[0] == Mark(Named(name)) && w[1..] == c;
    MarkedDiscipline(Named(name), c);
    forall k | 0 <= k < |w| - 1 && w[k].Ends()
      ensures w[k + 1].Mark?
    {
      assert c[k - 1].Ends();
    }
  }

  lemma {:induction false} BlocksAreGood(ck: Check, at: Base, bs: Blocks)
    requires WellTyped(ck.body) && VariablesDeclared(ck.params, RawCode(ck, at)) && BlocksOf(ck, at, bs)
    ensures GoodBlocks(ck, at, bs)
  {
    hide StmtCode, FrontCode, Disciplined, UniqueMarks, Forward, EndsEndBlocks, Edges, Justified, FrontShape, Ascending;
    var c, root := CheckCode(ck, at), Named(ck.name);
    FrontShapeHolds(ck.body, at.labels, at.ids);
    LabelledShape(c, ck.name);
    CodeInherits(ck, at);
    EdgesGoForward(bs, root, c);
    LabelsDistinct(bs);
    FlatDiscipline(bs);
    hide DistinctLabels, BlocksDisciplined, Ordered, Inherited;
    forall k | 0 <= k < |bs|
      ensures GoodBlock(ck, at, bs, k)
    {
      BlockIsGood(ck, at, bs, k);
    }
  }

  lemma {:induction false} BlockIsGood(ck: Check, at: Base, bs: Blocks, k: nat)
    requires BlocksOf(ck, at, bs) && MarkFree(bs) && k < |bs| && FrontShape(CheckCode(ck, at))
    requires Forward(Flat(bs), {}) && EndsEndBlocks(Flat(bs))
    requires forall i | i in CheckCode(ck, at) :: Inherited(ck.params, DefsFor(ck, at), i)
    ensures GoodBlock(ck, at, bs, k)
  {
    hide StmtCode, FrontCode, Disciplined, UniqueMarks, Forward, EndsEndBlocks, Edges, Inherited, Find;
    var c := CheckCode(ck, at);
    assert bs[k] in bs;
    BlockWithin(bs, bs[k]);
    EndsAreLast(bs, k);
    assert forall i | i in Flat(bs) && !i.Mark? :: i in c;
    assert forall i | i in Flat(bs) && i.Mark? :: i.lbl == Named(ck.name) || i.lbl.Fresh?;
    forall i | i in bs[k].insts
      ensures GoodInst(ck, at, bs, k, i)
    {
      forall l | l in i.Targets()
        ensures Find(bs, k + 1, l).Some?
      {
        TargetIsLater(bs, k, i, l);
      }
    }
  }

  /** The whole run of a body is the run of its blocks from the first. */
  lemma {:induction false} BlocksRun(m: Machine, ck: Check, at: Base, bs: Blocks, env: Env)
    requires WellTyped(ck.body) && m.jumps && JumpsHarmless(m.(jumps := false), ck.body, env)
    requires BlocksOf(ck, at, bs)
    ensures RunFrom(m, bs, 0, env) == Finished(Exec(m, ck.body, env))
  {
    hide FrontCode, Run, Exec, WellTyped, Edges, JumpsHarmless;
    FrontPreserves(m, ck.body, at.labels, at.ids, env);
    RunMark(m, Named(ck.name), CheckCode(ck, at), env, map[]);
    assert bs[0..] == bs;
  }
}
