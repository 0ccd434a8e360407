/** The lifter: nested C text from basic blocks, blocks with one reference inlined, the rest
    reached by `goto`. */
module Lifter {
  import opened Syntax
  import opened Ir
  import opened Cfg

  // ---------- Expressions ----------

  /** The instructions by identity, as operands refer to them. */
  type Defs = map<nat, Inst>

  predicate Below(o: Operand, id: nat, defs: Defs) {
    o.Tmp? ==> o.id < id && o.id in defs
  }

  predicate RefersBelow(i: Inst, id: nat, defs: Defs) {
    match i
    case Arith1(_, _, a) => Below(a, id, defs)
    case Arith2(_, _, a, b) => Below(a, id, defs) && Below(b, id, defs)
    case Call(_, _, _) => true
    case _ => false
  }

  /** Instructions refer to older instructions only. */
  predicate Grounded(defs: Defs) {
    forall id | id in defs :: RefersBelow(defs[id], id, defs)
  }

  predicate Known(defs: Defs, o: Operand) {
    o.Tmp? ==> o.id in defs
  }

  /** LiftExpr: the C expression of an operand, fully parenthesised, so a tree. */
  function LiftExpr(defs: Defs, o: Operand): Expr
    requires Grounded(defs) && Known(defs, o)
    decreases if o.Tmp? then o.id + 1 else 0
  {
    match o
    case Mem(x) => Ref(x)
    case Imm(n) => Value(n)
    case Tmp(id) =>
      match defs[id]
      case Arith1(_, op, a) => Unary(op, LiftExpr(defs, a))
      case Arith2(_, op, a, b) => Binary(op, LiftExpr(defs, a), LiftExpr(defs, b))
      case Call(_, f, params) => Invoke(f, params)
  }

  // ---------- Blocks ----------

  datatype PCode =
    | PIf(l: Expr, op: OpCode, r: Expr, t: Label, f: Label)
    | PGoto(t: Label)
    | PAllow
    | PDeny
    | PAssign(dst: string, expr: Expr)

  predicate Lifts(i: Inst) {
    i.Branches() || i.Store? || i.Return?
  }

  predicate OperandsKnown(defs: Defs, i: Inst) {
    match i
    case Arith1(_, _, a) => Known(defs, a)
    case Arith2(_, _, a, b) => Known(defs, a) && Known(defs, b)
    case Branch(_, a, b, _, _) => Known(defs, a) && Known(defs, b)
    case Store(src, _) => Known(defs, src)
    case _ => true
  }

  function LiftInst(defs: Defs, i: Inst): PCode
    requires Grounded(defs) && OperandsKnown(defs, i) && Lifts(i)
  {
    match i
    case Branch(op, a, b, t, f) => PIf(LiftExpr(defs, a), op, LiftExpr(defs, b), t, f)
    case Jump(t) => PGoto(t)
    case Store(src, x) => PAssign(x, LiftExpr(defs, src))
    case Return(val) => if val == Decision(Allow) then PAllow else PDeny
  }

  predicate AllKnown(defs: Defs, c: Code) {
    forall i | i in c :: OperandsKnown(defs, i)
  }

  /** LiftBasicBlock: only branches, stores and returns become C statements. */
  function LiftInsts(defs: Defs, c: Code): seq<PCode>
    requires Grounded(defs) && AllKnown(defs, c)
  {
    if c == [] then []
    else
      assert c[0] in c && AllKnown(defs, c[1..]);
      (if Lifts(c[0]) then [LiftInst(defs, c[0])] else []) + LiftInsts(defs, c[1..])
  }

  // ---------- Text ----------

  datatype Line =
    | LabelC(lbl: Label)
    | IfC(l: Expr, op: OpCode, r: Expr)
    | ElseC
    | EndC
    | GotoC(lbl: Label)
    | AllowC
    | DenyC
    | AssignC(dst: string, expr: Expr)
    | CopyBackC(dst: string)
    | SetArgC(dst: string, expr: Expr)

  type Lines = seq<Line>

  /** What the lifter works on: the blocks and which of them it was given, the labels where
      the filter hands off, the instructions, and the arguments that point to memory. */
  datatype Job = Job(bs: Blocks, lifted: set<nat>, iface: set<Label>, defs: Defs, copied: set<string>)

  /** How often branches of lifted blocks from `k` on name the label. */
  function Refs(x: Job, k: nat, l: Label): nat
    requires k <= |x.bs|
    decreases |x.bs| - k
  {
    if k == |x.bs| then 0
    else (if k in x.lifted then Slots(x.bs[k].insts, l) else 0) + Refs(x, k + 1, l)
  }

  predicate Inlined(x: Job, l: Label) {
    Refs(x, 0, l) == 1
  }

  /** Every branch of a lifted block goes to a later lifted block. */
  predicate TargetsLifted(x: Job) {
    forall k, i, l | k in x.lifted && k < |x.bs| && i in x.bs[k].insts && l in i.Targets() ::
      Find(x.bs, k + 1, l).Some? && Find(x.bs, k + 1, l).value in x.lifted
  }

  predicate WellFormedJob(x: Job) {
    && (forall k | k in x.lifted :: k < |x.bs|)
    && Grounded(x.defs)
    && (forall k | k in x.lifted :: AllKnown(x.defs, x.bs[k].insts))
    && TargetsLifted(x)
  }

  /** The code of a block before it becomes text. */
  function BlockCode(x: Job, k: nat): seq<PCode>
    requires WellFormedJob(x) && k in x.lifted
  {
    LiftInsts(x.defs, x.bs[k].insts)
  }

  /** The branches in `ps` go where the branches of lifted block `k` may go. */
  predicate TargetsFrom(x: Job, k: nat, ps: seq<PCode>)
    requires k < |x.bs|
  {
    forall p | p in ps && p.PIf? ::
      && Find(x.bs, k + 1, p.t).Some? && Find(x.bs, k + 1, p.t).value in x.lifted
      && Find(x.bs, k + 1, p.f).Some? && Find(x.bs, k + 1, p.f).value in x.lifted
  }

  lemma {:induction false} LiftedTargets(x: Job, k: nat, c: Code)
    requires WellFormedJob(x) && k in x.lifted && AllKnown(x.defs, c)
    requires forall i | i in c :: i in x.bs[k].insts
    ensures TargetsFrom(x, k, LiftInsts(x.defs, c))
  {
    if c != [] {
      assert c[0] in c;
      LiftedTargets(x, k, c[1..]);
      if c[0].Branch? {
        assert c[0].t in c[0].Targets() && c[0].f in c[0].Targets();
      }
    }
  }

  /** Write-back of an assigned argument: memory is copied back; a register gets the value of
      the assigned expression, which is evaluated once more. */
  function WriteBack(x: Job, dst: string, expr: Expr): Line {
    if dst in x.copied then CopyBackC(dst) else SetArgC(dst, expr)
  }

  function BlockLabel(x: Job, l: Label): Lines {
    if l in x.iface || Refs(x, 0, l) > 1 then [LabelC(l)] else []
  }

  /** GenBasicBlockCode. */
  function BlockLines(x: Job, k: nat): Lines
    requires WellFormedJob(x) && k in x.lifted
    decreases |x.bs| - k, 1, 0
  {
    LiftedTargets(x, k, x.bs[k].insts);
    BlockLabel(x, x.bs[k].label_) + CodeLines(x, k, BlockCode(x, k))
  }

  function CodeLines(x: Job, k: nat, ps: seq<PCode>): Lines
    requires WellFormedJob(x) && k in x.lifted && TargetsFrom(x, k, ps)
    decreases |x.bs| - k, 0, |ps|
  {
    if ps == [] then []
    else
      assert ps[0] in ps && TargetsFrom(x, k, ps[1..]);
      (match ps[0]
       case PIf(l, op, r, t, f) => [IfC(l, op, r)] + ArmLines(x, k, t) + [ElseC] + ArmLines(x, k, f) + [EndC]
       case PGoto(t) => [GotoC(t)]
       case PAllow => [AllowC]
       case PDeny => [DenyC]
       case PAssign(dst, expr) => [AssignC(dst, expr), WriteBack(x, dst, expr)])
      + CodeLines(x, k, ps[1..])
  }

  function ArmLines(x: Job, k: nat, l: Label): Lines
    requires WellFormedJob(x) && k in x.lifted
    requires Find(x.bs, k + 1, l).Some? && Find(x.bs, k + 1, l).value in x.lifted
    decreases |x.bs| - k, 0, 0
  {
    if Inlined(x, l) then BlockLines(x, Find(x.bs, k + 1, l).value) else [GotoC(l)]
  }

  /** GenCode: blocks in order, without those that were inlined. */
  function ProgramLines(x: Job, k: nat): Lines
    requires WellFormedJob(x) && k <= |x.bs|
    decreases |x.bs| - k
  {
    if k == |x.bs| then []
    else (if k in x.lifted && !Inlined(x, x.bs[k].label_) then BlockLines(x, k) else []) + ProgramLines(x, k + 1)
  }

  // ---------- Running the text ----------

  datatype COutcome = Done(perm: Perm, regs: Env) | FellOut | CStuck

  /** The text behind the `else` or the closing brace of the arm that starts here. */
  function SkipArm(ls: Lines, depth: nat): (r: Lines)
    ensures |r| <= |ls|
  {
    if ls == [] then []
    else if ls[0].IfC? then SkipArm(ls[1..], depth + 1)
    else if ls[0].EndC? then if depth == 0 then ls[1..] else SkipArm(ls[1..], depth - 1)
    else if ls[0].ElseC? && depth == 0 then ls[1..]
    else SkipArm(ls[1..], depth)
  }

  function AfterLabel(ls: Lines, l: Label): (r: Lines)
    requires LabelC(l) in ls
    ensures |r| < |ls|
  {
    if ls[0] == LabelC(l) then ls[1..] else AfterLabel(ls[1..], l)
  }

  /** `loc` holds the local variables, `regs` the arguments as the traced program will see
      them. */
  function RunC(m: Machine, ls: Lines, loc: Env, regs: Env): COutcome
    decreases |ls|
  {
    if ls == [] then FellOut
    else
      var rest := ls[1..];
      match ls[0]
      case LabelC(_) => RunC(m, rest, loc, regs)
      case IfC(l, op, r) =>
        if Compare(op, Eval(m, l, loc), Eval(m, r, loc)) then RunC(m, rest, loc, regs)
        else RunC(m, SkipArm(rest, 0), loc, regs)
      case ElseC => RunC(m, SkipArm(rest, 0), loc, regs)
      case EndC => RunC(m, rest, loc, regs)
      case GotoC(l) => if LabelC(l) in rest then RunC(m, AfterLabel(rest, l), loc, regs) else CStuck
      case AllowC => Done(Allow, regs)
      case DenyC => Done(Deny, regs)
      case AssignC(x, e) => RunC(m, rest, loc[x := Eval(m, e, loc)], regs)
      case CopyBackC(x) => RunC(m, rest, loc, regs[x := Lookup(loc, x)])
      case SetArgC(x, e) => RunC(m, rest, loc, regs[x := Eval(m, e, loc)])
  }
}
