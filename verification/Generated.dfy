/** What the later stages need to know about generated code: temporaries are numbered in
    order and used in last-in first-out order, within one block. */
module Generated {
  import opened Syntax
  import opened Ir
  import opened IrGen
  import opened BpfGen

  /** Identities grow along the code, from `n` on. */
  predicate Ascending(c: Code, n: nat) {
    c != [] ==>
      if c[0].Computes() then n <= c[0].id && Ascending(c[1..], c[0].id + 1)
      else Ascending(c[1..], n)
  }

  lemma {:induction false} AscendingFrom(c: Code, n: nat, n': nat)
    requires Ascending(c, n) && n' <= n
    ensures Ascending(c, n')
  {
    if c != [] && !c[0].Computes() {
      AscendingFrom(c[1..], n, n');
    }
  }

  /** The pending temporaries once the operand is pending too. */
  function Push(st: seq<nat>, o: Operand): seq<nat> {
    if o.Tmp? then st + [o.id] else st
  }

  predicate AllBelow(st: seq<nat>, n: nat) {
    forall k | k in st :: k < n
  }

  /** In front of `rest`, disciplined and ascending, stands code that keeps it so. */
  predicate Sound(c: Code, st: seq<nat>, n: nat) {
    Disciplined(c, st) && Ascending(c, n)
  }

  lemma {:induction false} SoundStep(i: Inst, rest: Code, st: seq<nat>, n: nat)
    requires Step(i, st).Some? && Disciplined(rest, Step(i, st).value)
    requires if i.Computes() then n <= i.id && Ascending(rest, i.id + 1) else Ascending(rest, n)
    ensures Sound([i] + rest, st, n)
  {
    assert ([i] + rest)[1..] == rest;
  }

  lemma {:induction false} ExprSound(e: Expr, id: nat, rest: Code, st: seq<nat>, n: nat)
    requires AllBelow(st, id) && n <= id
    requires Sound(rest, Push(st, ExprCode(e, id).val), ExprCode(e, id).ids)
    ensures Sound(ExprCode(e, id).code + rest, st, n)
    decreases e, 1
  {
    hide Disciplined, Ascending;
    var g := ExprCode(e, id);
    match e {
      case Ref(_) =>
        assert [] + rest == rest;
        AscendingFrom(rest, g.ids, n);
      case Value(_) =>
        assert [] + rest == rest;
        AscendingFrom(rest, g.ids, n);
      case Invoke(f, params) => SoundStep(Call(id, f, params), rest, st, n);
      case Unary(op, arg) =>
        var x := ExprCode(arg, id);
        ValBelow(arg, id);
        PushedBelow(st, x.val, id, x.ids);
        var i := Arith1(x.ids, op, x.val);
        PopPushed(st, x.val);
        SoundStep(i, rest, Push(st, x.val), x.ids);
        ExprSound(arg, id, [i] + rest, st, n);
        assert g.code + rest == x.code + ([i] + rest);
      case Binary(_, _, _) => BinarySound(e, id, rest, st, n);
    }
  }

  lemma {:induction false} BinarySound(e: Expr, id: nat, rest: Code, st: seq<nat>, n: nat)
    requires e.Binary? && AllBelow(st, id) && n <= id
    requires Sound(rest, Push(st, ExprCode(e, id).val), ExprCode(e, id).ids)
    ensures Sound(ExprCode(e, id).code + rest, st, n)
    decreases e, 0
  {
    var x := ExprCode(e.left, id);
    var y := ExprCode(e.right, x.ids);
    var i := Arith2(y.ids, e.op, x.val, y.val);
    assert ExprCode(e, id) == ExprGen(Tmp(y.ids), x.code + y.code + [i], y.ids + 1);
    assert Push(st, Tmp(y.ids)) == st + [y.ids];
    hide Disciplined, Ascending, ExprCode, Sound, AllBelow, Push;
    ValBelow(e.left, id);
    ValBelow(e.right, x.ids);
    PushedBelow(st, x.val, id, x.ids);
    PushedBelow(Push(st, x.val), y.val, x.ids, y.ids);
    OperationSound(i, rest, st, y.ids);
    ExprSound(e.right, x.ids, [i] + rest, Push(st, x.val), x.ids);
    ExprSound(e.left, id, y.code + ([i] + rest), st, n);
    ThreeApart(x.code, y.code, [i], rest);
  }

  lemma {:induction false} ThreeApart(a: Code, b: Code, c: Code, rest: Code)
    ensures a + b + c + rest == a + (b + (c + rest))
  {
  }

  /** An operation pops its operands and leaves its own identity pending. */
  lemma {:induction false} OperationSound(i: Inst, rest: Code, st: seq<nat>, n: nat)
    requires i.Arith2? && i.id == n && AllBelow(Push(Push(st, i.a), i.b), n) && Sound(rest, st + [n], n + 1)
    ensures Sound([i] + rest, Push(Push(st, i.a), i.b), n)
  {
    hide Disciplined, Ascending;
    PopPushedTwo(st, i.a, i.b);
    SoundStep(i, rest, Push(Push(st, i.a), i.b), n);
  }

  lemma {:induction false} PushedBelow(st: seq<nat>, o: Operand, n: nat, n': nat)
    requires AllBelow(st, n) && n <= n' && (o.Tmp? ==> o.id < n')
    ensures AllBelow(Push(st, o), n')
  {
  }

  lemma {:induction false} ValBelow(e: Expr, id: nat)
    ensures ExprCode(e, id).val.Tmp? ==> id <= ExprCode(e, id).val.id < ExprCode(e, id).ids
  {
  }

  lemma {:induction false} PopPushed(st: seq<nat>, o: Operand)
    ensures Pop1(Push(st, o), o) == Some(st)
  {
    if o.Tmp? {
      assert (st + [o.id])[..|st|] == st;
    }
  }

  lemma {:induction false} PopPushedTwo(st: seq<nat>, a: Operand, b: Operand)
    ensures Pop2(Push(Push(st, a), b), a, b) == Some(st)
  {
    PopPushed(Push(st, a), b);
    PopPushed(st, a);
  }

  lemma {:induction false} TestSound(e: Expr, t: Label, f: Label, lab: nat, id: nat, rest: Code, n: nat)
    requires n <= id && Sound(rest, [], TestCode(e, t, f, lab, id).ids)
    ensures Sound(TestCode(e, t, f, lab, id).code + rest, [], n)
  {
    hide Disciplined, Ascending, ExprCode, Test;
    var (l, op, r) := Test(e);
    var x := ExprCode(l, id);
    var y := ExprCode(r, x.ids);
    var br := Branch(op, x.val, y.val, t, f);
    ValBelow(l, id);
    ValBelow(r, x.ids);
    PopPushedTwo([], x.val, y.val);
    SoundStep(br, rest, Push(Push([], x.val), y.val), y.ids);
    ExprSound(r, x.ids, [br] + rest, Push([], x.val), x.ids);
    ExprSound(l, id, y.code + ([br] + rest), [], n);
    assert TestCode(e, t, f, lab, id).code + rest == x.code + (y.code + ([br] + rest));
  }

  lemma {:induction false} CondSound(e: Expr, t: Label, f: Label, lab: nat, id: nat, rest: Code, n: nat)
    requires n <= id && Sound(rest, [], CondCode(e, t, f, lab, id).ids)
    ensures Sound(CondCode(e, t, f, lab, id).code + rest, [], n)
  {
    hide Disciplined, Ascending, TestCode;
    if e.Unary? && e.op == NOT {
      CondSound(e.arg, f, t, lab, id, rest, n);
    } else if e.Binary? && (e.op == AND || e.op == OR) {
      var mid := Fresh(lab + 1);
      var t1, f1 := if e.op == AND then mid else t, if e.op == AND then f else mid;
      var x := CondCode(e.left, t1, f1, lab + 1, id);
      var y := CondCode(e.right, t, f, x.labels, x.ids);
      CondIds(e.left, t1, f1, lab + 1, id);
      CondSound(e.right, t, f, x.labels, x.ids, rest, x.ids);
      SoundStep(Mark(mid), y.code + rest, [], x.ids);
      CondSound(e.left, t1, f1, lab + 1, id, [Mark(mid)] + (y.code + rest), n);
      assert Joined(x.code, mid, y.code) + rest == x.code + ([Mark(mid)] + (y.code + rest));
    } else {
      TestSound(e, t, f, lab, id, rest, n);
    }
  }

  lemma {:induction false} CondIds(e: Expr, t: Label, f: Label, lab: nat, id: nat)
    ensures CondCode(e, t, f, lab, id).ids >= id
  {
    if e.Unary? && e.op == NOT {
      CondIds(e.arg, f, t, lab, id);
    } else if e.Binary? && (e.op == AND || e.op == OR) {
      var mid := Fresh(lab + 1);
      var t1, f1 := if e.op == AND then mid else t, if e.op == AND then f else mid;
      CondIds(e.left, t1, f1, lab + 1, id);
      var x := CondCode(e.left, t1, f1, lab + 1, id);
      CondIds(e.right, t, f, x.labels, x.ids);
    }
  }

  lemma {:induction false} StmtIds(s: Stmt, lab: nat, id: nat)
    ensures StmtCode(s, lab, id).ids >= id
    decreases s, 0
  {
    match s {
      case If(cond, thn, els) =>
        var c := CondCode(cond, Fresh(lab + 1), Fresh(lab + 2), lab + 2, id);
        CondIds(cond, Fresh(lab + 1), Fresh(lab + 2), lab + 2, id);
        StmtIds(thn, c.labels, c.ids);
        if els.Some? {
          var th := StmtCode(thn, c.labels, c.ids);
          StmtIds(els.value, th.labels + 1, th.ids);
        }
      case Compound(stmts) => BodyIds(stmts, lab, id);
      case _ =>
    }
  }

  lemma {:induction false} BodyIds(ss: seq<Stmt>, lab: nat, id: nat)
    ensures BodyCode(ss, lab, id).ids >= id
    decreases ss, 0
  {
    if ss != [] {
      StmtIds(ss[0], lab, id);
      var x := StmtCode(ss[0], lab, id);
      BodyIds(ss[1..], x.labels, x.ids);
    }
  }

  /** Generated code keeps the discipline, whatever sound code follows. */
  lemma {:induction false} StmtSound(s: Stmt, lab: nat, id: nat, rest: Code, n: nat)
    requires n <= id && Sound(rest, [], StmtCode(s, lab, id).ids)
    ensures Sound(StmtCode(s, lab, id).code + rest, [], n)
    decreases s, 1, 0
  {
    hide Disciplined, Ascending, ExprCode;
    match s {
      case Empty =>
        assert [] + rest == rest;
        AscendingFrom(rest, id, n);
      case Permit(p) =>
        AscendingFrom(rest, id, n);
        SoundStep(Return(Decision(p)), rest, [], n);
      case Assign(expr, x) =>
        var g := ExprCode(expr, id);
        PopPushed([], g.val);
        SoundStep(Store(g.val, x), rest, Push([], g.val), g.ids);
        ExprSound(expr, id, [Store(g.val, x)] + rest, [], n);
        assert g.code + [Store(g.val, x)] + rest == g.code + ([Store(g.val, x)] + rest);
      case If(_, _, _) => IfSound(s, lab, id, rest, n);
      case Compound(stmts) => BodySound(stmts, lab, id, rest, n);
    }
  }

  lemma {:induction false} BodySound(ss: seq<Stmt>, lab: nat, id: nat, rest: Code, n: nat)
    requires n <= id && Sound(rest, [], BodyCode(ss, lab, id).ids)
    ensures Sound(BodyCode(ss, lab, id).code + rest, [], n)
    decreases ss, 0, 0
  {
    hide Disciplined, Ascending, StmtCode;
    if ss == [] {
      assert [] + rest == rest;
      AscendingFrom(rest, id, n);
    } else {
      var x := StmtCode(ss[0], lab, id);
      var y := BodyCode(ss[1..], x.labels, x.ids);
      BodySound(ss[1..], x.labels, x.ids, rest, x.ids);
      StmtSound(ss[0], lab, id, y.code + rest, n);
      assert x.code + y.code + rest == x.code + (y.code + rest);
    }
  }

  lemma {:induction false} IfSound(s: Stmt, lab: nat, id: nat, rest: Code, n: nat)
    requires s.If? && n <= id && Sound(rest, [], StmtCode(s, lab, id).ids)
    ensures Sound(StmtCode(s, lab, id).code + rest, [], n)
    decreases s, 0, 1
  {
    var t, f := Fresh(lab + 1), Fresh(lab + 2);
    var c := CondCode(s.cond, t, f, lab + 2, id);
    var th := StmtCode(s.thn, c.labels, c.ids);
    var tail := IfTail(s, lab, id, rest);
    hide Sound, CondCode, StmtCode;
    ThenSound(s, lab, id, tail, n);
  }

  /** The condition and the `then` part, in front of a sound tail. */
  lemma {:induction false} ThenSound(s: Stmt, lab: nat, id: nat, tail: Code, n: nat)
    requires s.If? && n <= id
    requires var c := CondCode(s.cond, Fresh(lab + 1), Fresh(lab + 2), lab + 2, id);
      Sound(tail, [], StmtCode(s.thn, c.labels, c.ids).ids)
    ensures var c := CondCode(s.cond, Fresh(lab + 1), Fresh(lab + 2), lab + 2, id);
      Sound(c.code + ([Mark(Fresh(lab + 1))] + (StmtCode(s.thn, c.labels, c.ids).code + tail)), [], n)
    decreases s, 0, 0
  {
    hide Disciplined, Ascending, CondCode, StmtCode;
    var t, f := Fresh(lab + 1), Fresh(lab + 2);
    var c := CondCode(s.cond, t, f, lab + 2, id);
    var th := StmtCode(s.thn, c.labels, c.ids);
    CondIds(s.cond, t, f, lab + 2, id);
    StmtSound(s.thn, c.labels, c.ids, tail, c.ids);
    SoundStep(Mark(t), th.code + tail, [], c.ids);
    CondSound(s.cond, t, f, lab + 2, id, [Mark(t)] + (th.code + tail), n);
  }

  /** What follows the `then` part of an `if`. */
  lemma {:induction false} IfTail(s: Stmt, lab: nat, id: nat, rest: Code) returns (tail: Code)
    requires s.If? && Sound(rest, [], StmtCode(s, lab, id).ids)
    ensures var c := CondCode(s.cond, Fresh(lab + 1), Fresh(lab + 2), lab + 2, id);
      var th := StmtCode(s.thn, c.labels, c.ids);
      && Sound(tail, [], th.ids)
      && StmtCode(s, lab, id).code + rest == c.code + ([Mark(Fresh(lab + 1))] + (th.code + tail))
    decreases s, 0, 0
  {
    var t, f := Fresh(lab + 1), Fresh(lab + 2);
    var c := CondCode(s.cond, t, f, lab + 2, id);
    var th := StmtCode(s.thn, c.labels, c.ids);
    if s.els.Some? {
      var out := Fresh(th.labels + 1);
      var el := StmtCode(s.els.value, th.labels + 1, th.ids);
      assert StmtCode(s, lab, id) ==
        Gen(Joined(Joined(Joined(c.code, t, th.code + [Jump(out)]), f, el.code), out, []), el.labels, el.ids);
      hide Sound, CondCode, StmtCode;
      tail := ElseSound(s.els.value, f, out, th.labels + 1, th.ids, rest);
      ElseApart(c.code, t, th.code, f, el.code, out, rest);
    } else {
      assert StmtCode(s, lab, id) == Gen(Joined(Joined(c.code, t, th.code), f, []), th.labels, th.ids);
      hide Disciplined, Ascending, CondCode, StmtCode;
      SoundStep(Mark(f), rest, [], th.ids);
      tail := [Mark(f)] + rest;
      ThenApart(c.code, t, th.code, f, rest);
    }
  }

  lemma {:induction false} ThenApart(c: Code, t: Label, th: Code, f: Label, rest: Code)
    ensures Joined(Joined(c, t, th), f, []) + rest == c + ([Mark(t)] + (th + ([Mark(f)] + rest)))
  {
  }

  lemma {:induction false} ElseApart(c: Code, t: Label, th: Code, f: Label, el: Code, out: Label, rest: Code)
    ensures Joined(Joined(Joined(c, t, th + [Jump(out)]), f, el), out, []) + rest
         == c + ([Mark(t)] + (th + ([Jump(out)] + ([Mark(f)] + (el + ([Mark(out)] + rest))))))
  {
  }

  lemma {:induction false} ElseSound(s: Stmt, f: Label, out: Label, lab: nat, id: nat, rest: Code) returns (tail: Code)
    requires Sound(rest, [], StmtCode(s, lab, id).ids)
    ensures tail == [Jump(out)] + ([Mark(f)] + (StmtCode(s, lab, id).code + ([Mark(out)] + rest)))
    ensures Sound(tail, [], id)
    decreases s, 2, 0
  {
    hide Disciplined, Ascending, StmtCode;
    var el := StmtCode(s, lab, id);
    var end := el.code + ([Mark(out)] + rest);
    SoundStep(Mark(out), rest, [], el.ids);
    StmtSound(s, lab, id, [Mark(out)] + rest, id);
    SoundStep(Mark(f), end, [], id);
    SoundStep(Jump(out), [Mark(f)] + end, [], id);
    tail := [Jump(out)] + ([Mark(f)] + end);
  }
}
