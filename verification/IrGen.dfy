/** IR generation: what the code of a statement is, as functions of the counters. */
module IrGen {
  import opened Syntax
  import opened Ir

  /** Code for an expression, the operand that names its value, and the next identity. */
  datatype ExprGen = ExprGen(val: Operand, code: Code, ids: nat)

  /** Code, the label counter and the identity counter after it. */
  datatype Gen = Gen(code: Code, labels: nat, ids: nat)

  function ExprCode(e: Expr, id: nat): (g: ExprGen)
    ensures g.ids >= id
  {
    match e
    case Ref(x) => ExprGen(Mem(x), [], id)
    case Value(n) => ExprGen(Imm(n), [], id)
    case Invoke(f, params) => ExprGen(Tmp(id), [Call(id, f, params)], id + 1)
    case Unary(op, arg) =>
      var x := ExprCode(arg, id);
      ExprGen(Tmp(x.ids), x.code + [Arith1(x.ids, op, x.val)], x.ids + 1)
    case Binary(op, left, right) =>
      var x := ExprCode(left, id);
      var y := ExprCode(right, x.ids);
      ExprGen(Tmp(y.ids), x.code + y.code + [Arith2(y.ids, op, x.val, y.val)], y.ids + 1)
  }

  /** The comparison that a condition without a boolean operator at its root amounts to:
      a bare expression is compared with zero. */
  function Test(e: Expr): (Expr, OpCode, Expr)
  {
    if e.Binary? && IsCompare(e.op) then (e.left, e.op, e.right) else (e, NE, Value(0))
  }

  /** Code, a label, and more code. */
  function Joined(x: Code, mid: Label, y: Code): Code {
    x + [Mark(mid)] + y
  }

  function TestCode(e: Expr, t: Label, f: Label, lab: nat, id: nat): Gen {
    var (l, op, r) := Test(e);
    var x := ExprCode(l, id);
    var y := ExprCode(r, x.ids);
    Gen(x.code + y.code + [Branch(op, x.val, y.val, t, f)], lab, y.ids)
  }

  /** Jumping code for a condition with true target `t` and false target `f`. */
  function CondCode(e: Expr, t: Label, f: Label, lab: nat, id: nat): Gen {
    if e.Unary? && e.op == NOT then
      CondCode(e.arg, f, t, lab, id)
    else if e.Binary? && (e.op == AND || e.op == OR) then
      var mid := Fresh(lab + 1);
      var x := if e.op == AND then CondCode(e.left, mid, f, lab + 1, id)
               else CondCode(e.left, t, mid, lab + 1, id);
      var y := CondCode(e.right, t, f, x.labels, x.ids);
      Gen(Joined(x.code, mid, y.code), y.labels, y.ids)
    else
      TestCode(e, t, f, lab, id)
  }

  function StmtCode(s: Stmt, lab: nat, id: nat): Gen
    decreases s, 0
  {
    match s
    case Empty => Gen([], lab, id)
    case Permit(p) => Gen([Return(Decision(p))], lab, id)
    case Assign(expr, x) =>
      var v := ExprCode(expr, id);
      Gen(v.code + [Store(v.val, x)], lab, v.ids)
    case If(cond, thn, els) =>
      var t, f := Fresh(lab + 1), Fresh(lab + 2);
      var c := CondCode(cond, t, f, lab + 2, id);
      var th := StmtCode(thn, c.labels, c.ids);
      if els.None? then
        Gen(Joined(Joined(c.code, t, th.code), f, []), th.labels, th.ids)
      else
        var out := Fresh(th.labels + 1);
        var el := StmtCode(els.value, th.labels + 1, th.ids);
        Gen(Joined(Joined(Joined(c.code, t, th.code + [Jump(out)]), f, el.code), out, []),
            el.labels, el.ids)
    case Compound(stmts) => BodyCode(stmts, lab, id)
  }

  function BodyCode(ss: seq<Stmt>, lab: nat, id: nat): Gen
    decreases ss, 0
  {
    if ss == [] then Gen([], lab, id)
    else
      var x := StmtCode(ss[0], lab, id);
      var y := BodyCode(ss[1..], x.labels, x.ids);
      Gen(x.code + y.code, y.labels, y.ids)
  }

  // ---------- Freshness of labels ----------

  /** Every label marked in `c` was handed out after `lo` and no later than `hi`. */
  predicate MarksWithin(c: Code, lo: nat, hi: nat) {
    forall i | i in c :: i.Mark? ==> i.lbl.Fresh? && lo < i.lbl.n <= hi
  }

  /** The label was not handed out after `lo`. */
  predicate Older(l: Label, lo: nat) {
    l.Fresh? ==> l.n <= lo
  }

  predicate Straight(c: Code) {
    forall i | i in c :: i.Computes()
  }

  lemma {:induction false} ExprCodeStraight(e: Expr, id: nat)
    ensures Straight(ExprCode(e, id).code)
  {
    match e {
      case Unary(_, arg) => ExprCodeStraight(arg, id);
      case Binary(_, left, right) =>
        ExprCodeStraight(left, id);
        ExprCodeStraight(right, ExprCode(left, id).ids);
      case _ =>
    }
  }

  /** What both jumping code and statement code look like: fresh labels only, each defined
      once, jumps ahead or to `ext`, and every branch last in its block. */
  predicate Shaped(c: Code, ext: set<Label>, lo: nat, hi: nat) {
    && lo <= hi && MarksWithin(c, lo, hi)
    && UniqueMarks(c) && Forward(c, ext) && BranchesEndBlocks(c)
  }

  predicate OpenEnd(c: Code) {
    c != [] && c[|c| - 1].Branches()
  }

  lemma {:induction false} StraightBranch(c: Code, b: Inst, t: Label, f: Label, lo: nat)
    requires Straight(c) && b.Branch? && b.t == t && b.f == f
    ensures Shaped(c + [b], {t, f}, lo, lo)
  {
    if c == [] {
      assert [b][1..] == [];
    } else {
      assert (c + [b])[1..] == c[1..] + [b];
      assert c[0].Computes();
      StraightBranch(c[1..], b, t, f, lo);
      forall k | 0 <= k < |c + [b]| - 1
        ensures !(c + [b])[k].Branches()
      {
        assert c[k] in c;
      }
    }
  }

  lemma {:induction false} TestCodeShape(e: Expr, t: Label, f: Label, lab: nat, id: nat)
    ensures var g := TestCode(e, t, f, lab, id);
      g.labels == lab && Shaped(g.code, {t, f}, lab, lab)
  {
    var (l, op, r) := Test(e);
    var x := ExprCode(l, id);
    var y := ExprCode(r, x.ids);
    ExprCodeStraight(l, id);
    ExprCodeStraight(r, x.ids);
    StraightBranch(x.code + y.code, Branch(op, x.val, y.val, t, f), t, f, lab);
  }

  /** Code joined by a mark of label `mid`, which neither part defines. */
  lemma {:induction false} JoinShape(x: Code, mid: Label, y: Code, extX: set<Label>, ext: set<Label>,
                  lo: nat, lx: nat, hx: nat, hi: nat)
    requires Shaped(x, extX, lx, hx) && Shaped(y, ext, hx, hi)
    requires forall l | l in extX :: l in ext || l == mid || Mark(l) in y
    requires mid.Fresh? && lo < mid.n <= hi && lo <= lx && Mark(mid) !in x && Mark(mid) !in y
    ensures Shaped(Joined(x, mid, y), ext, lo, hi)
    ensures !OpenEnd(y) ==> !OpenEnd(Joined(x, mid, y))
  {
    var tail := [Mark(mid)] + y;
    assert tail[1..] == y;
    assert Joined(x, mid, y) == x + tail;
    assert Mark(mid) in tail;
    UniqueConcat(x, tail);
    ForwardConcat(x, tail, extX, ext);
  }

  lemma {:induction false} CondCodeShape(e: Expr, t: Label, f: Label, lab: nat, id: nat)
    requires CondExpr(e) && Older(t, lab) && Older(f, lab)
    ensures var g := CondCode(e, t, f, lab, id);
      Shaped(g.code, {t, f}, lab, g.labels)
  {
    if e.Unary? && e.op == NOT {
      CondCodeShape(e.arg, f, t, lab, id);
      assert {f, t} == {t, f};
    } else if e.Binary? && (e.op == AND || e.op == OR) {
      var mid := Fresh(lab + 1);
      var t1, f1 := if e.op == AND then mid else t, if e.op == AND then f else mid;
      var x := CondCode(e.left, t1, f1, lab + 1, id);
      CondCodeShape(e.left, t1, f1, lab + 1, id);
      var y := CondCode(e.right, t, f, x.labels, x.ids);
      CondCodeShape(e.right, t, f, x.labels, x.ids);
      JoinShape(x.code, mid, y.code, {t1, f1}, {t, f}, lab, lab + 1, x.labels, y.labels);
    } else {
      TestCodeShape(e, t, f, lab, id);
    }
  }

  /** Two pieces of code side by side, the second one closed. */
  lemma {:induction false} ConcatShape(x: Code, y: Code, extX: set<Label>, ext: set<Label>,
                    lo: nat, lx: nat, hx: nat, hi: nat)
    requires Shaped(x, extX, lx, hx) && Shaped(y, ext, hx, hi) && lo <= lx
    requires forall l | l in extX :: Mark(l) in y || l in ext
    requires OpenEnd(x) ==> y == [] || y[0].Mark?
    ensures Shaped(x + y, ext, lo, hi)
    ensures !OpenEnd(x) && !OpenEnd(y) ==> !OpenEnd(x + y)
  {
    UniqueConcat(x, y);
    ForwardConcat(x, y, extX, ext);
  }

  lemma {:induction false} WidenShape(c: Code, ext: set<Label>, wider: set<Label>, lo: nat, lo': nat, hi: nat, hi': nat)
    requires Shaped(c, ext, lo, hi) && ext <= wider && lo' <= lo && hi <= hi'
    ensures Shaped(c, wider, lo', hi')
  {
    ForwardWiden(c, ext, wider);
  }

  lemma {:induction false} StraightStore(c: Code, v: Operand, x: string, lo: nat)
    requires Straight(c)
    ensures Shaped(c + [Store(v, x)], {}, lo, lo)
  {
    if c == [] {
      assert [Store(v, x)][1..] == [];
    } else {
      assert (c + [Store(v, x)])[1..] == c[1..] + [Store(v, x)];
      assert c[0].Computes();
      StraightStore(c[1..], v, x, lo);
      forall k | 0 <= k < |c|
        ensures !c[k].Branches()
      {
        assert c[k] in c;
      }
    }
  }

  lemma {:induction false} EmptyShape(lo: nat)
    ensures Shaped([], {}, lo, lo) && !OpenEnd([])
  {
  }

  /** The code of an `if` without an `else`, from the code of its parts. */
  lemma {:induction false} IfShape(c: Code, th: Code, lab: nat, lc: nat, lth: nat)
    requires Shaped(c, {Fresh(lab + 1), Fresh(lab + 2)}, lab + 2, lc) && Shaped(th, {}, lc, lth)
    ensures var code := Joined(Joined(c, Fresh(lab + 1), th), Fresh(lab + 2), []);
      Shaped(code, {}, lab, lth) && !OpenEnd(code)
  {
    var t, f := Fresh(lab + 1), Fresh(lab + 2);
    WidenShape(th, {}, {f}, lc, lc, lth, lth);
    JoinShape(c, t, th, {t, f}, {f}, lab, lab + 2, lc, lth);
    JoinShape(Joined(c, t, th), f, [], {f}, {}, lab, lab, lth, lth);
  }

  lemma {:induction false} JumpOutShape(c: Code, th: Code, lab: nat, lc: nat, lth: nat, out: Label)
    requires Shaped(c, {Fresh(lab + 1), Fresh(lab + 2)}, lab + 2, lc) && Shaped(th, {}, lc, lth)
    requires !OpenEnd(th)
    ensures var front := Joined(c, Fresh(lab + 1), th + [Jump(out)]);
      Shaped(front, {Fresh(lab + 2), out}, lab, lth) && Mark(Fresh(lab + 2)) !in front && lab + 2 <= lth
  {
    var t, f := Fresh(lab + 1), Fresh(lab + 2);
    assert [Jump(out)][1..] == [];
    ConcatShape(th, [Jump(out)], {}, {out}, lc, lc, lth, lth);
    WidenShape(th + [Jump(out)], {out}, {f, out}, lc, lc, lth, lth);
    JoinShape(c, t, th + [Jump(out)], {t, f}, {f, out}, lab, lab + 2, lc, lth);
  }

  /** The code of an `if` with an `else`, from the code up to the `else` and the rest. */
  lemma {:induction false} ElseShape(front: Code, el: Code, f: Label, out: Label, lab: nat, lth: nat, lel: nat)
    requires Shaped(front, {f, out}, lab, lth) && Shaped(el, {}, lth + 1, lel)
    requires f.Fresh? && lab < f.n <= lth && Mark(f) !in front && out == Fresh(lth + 1)
    ensures var code := Joined(Joined(front, f, el), out, []);
      Shaped(code, {}, lab, lel) && !OpenEnd(code)
  {
    WidenShape(el, {}, {out}, lth + 1, lth, lel, lel);
    JoinShape(front, f, el, {f, out}, {out}, lab, lab, lth, lel);
    JoinShape(Joined(front, f, el), out, [], {out}, {}, lab, lab, lel, lel);
  }

  /** Statement code is closed: it defines fresh labels, each once, and jumps only ahead to
      labels of its own. */
  lemma {:induction false} StmtCodeShape(s: Stmt, lab: nat, id: nat)
    requires WellTyped(s)
    ensures var g := StmtCode(s, lab, id); Shaped(g.code, {}, lab, g.labels) && !OpenEnd(g.code)
    decreases s, 1
  {
    match s {
      case Empty =>
      case Permit(p) => assert [Return(Decision(p))][1..] == [];
      case Assign(expr, x) =>
        ExprCodeStraight(expr, id);
        StraightStore(ExprCode(expr, id).code, ExprCode(expr, id).val, x, lab);
      case Compound(stmts) => BodyCodeShape(stmts, lab, id);
      case If(_, _, _) => IfCodeShape(s, lab, id);
    }
  }

  lemma {:induction false} IfCodeShape(s: Stmt, lab: nat, id: nat)
    requires WellTyped(s) && s.If?
    ensures var g := StmtCode(s, lab, id); Shaped(g.code, {}, lab, g.labels) && !OpenEnd(g.code)
    decreases s, 0
  {
    hide Shaped, OpenEnd, Joined;
    var t, f := Fresh(lab + 1), Fresh(lab + 2);
    var c := CondCode(s.cond, t, f, lab + 2, id);
    CondCodeShape(s.cond, t, f, lab + 2, id);
    var th := StmtCode(s.thn, c.labels, c.ids);
    StmtCodeShape(s.thn, c.labels, c.ids);
    if s.els.None? {
      assert StmtCode(s, lab, id) == Gen(Joined(Joined(c.code, t, th.code), f, []), th.labels, th.ids);
      IfShape(c.code, th.code, lab, c.labels, th.labels);
    } else {
      var out := Fresh(th.labels + 1);
      var el := StmtCode(s.els.value, th.labels + 1, th.ids);
      StmtCodeShape(s.els.value, th.labels + 1, th.ids);
      var front := Joined(c.code, t, th.code + [Jump(out)]);
      assert StmtCode(s, lab, id) == Gen(Joined(Joined(front, f, el.code), out, []), el.labels, el.ids);
      JumpOutShape(c.code, th.code, lab, c.labels, th.labels, out);
      ElseShape(front, el.code, f, out, lab, th.labels, el.labels);
    }
  }

  lemma {:induction false} BodyCodeShape(ss: seq<Stmt>, lab: nat, id: nat)
    requires forall s | s in ss :: WellTyped(s)
    ensures var g := BodyCode(ss, lab, id); Shaped(g.code, {}, lab, g.labels) && !OpenEnd(g.code)
    decreases ss, 0
  {
    hide Shaped, OpenEnd;
    if ss == [] {
      EmptyShape(lab);
    } else {
      var x := StmtCode(ss[0], lab, id);
      StmtCodeShape(ss[0], lab, id);
      var y := BodyCode(ss[1..], x.labels, x.ids);
      BodyCodeShape(ss[1..], x.labels, x.ids);
      ConcatShape(x.code, y.code, {}, {}, lab, lab, x.labels, y.labels);
    }
  }
}
