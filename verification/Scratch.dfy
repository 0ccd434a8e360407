/** When one scratch cell is enough, seen from the condition that was written. */
module Scratch {
  import opened Syntax
  import opened Ir
  import opened IrGen
  import opened BpfGen
  import opened Generated

  /** Expressions whose value is left in a temporary. */
  predicate Computed(e: Expr) {
    !e.Ref? && !e.Value?
  }

  /** The filter cannot call helpers. */
  predicate NoCalls(e: Expr) {
    match e
    case Invoke(_, _) => false
    case Unary(_, arg) => NoCalls(arg)
    case Binary(_, left, right) => NoCalls(left) && NoCalls(right)
    case _ => true
  }

  /** A node with two computed operands. */
  predicate PairNode(e: Expr) {
    e.Binary? && Computed(e.left) && Computed(e.right)
  }

  predicate HasPair(e: Expr) {
    match e
    case Unary(_, arg) => HasPair(arg)
    case Binary(_, left, right) => PairNode(e) || HasPair(left) || HasPair(right)
    case _ => false
  }

  /** No node with two computed operands lies inside the right operand of another one. */
  predicate OneCell(e: Expr) {
    match e
    case Unary(_, arg) => OneCell(arg)
    case Binary(_, left, right) => OneCell(left) && OneCell(right) && (PairNode(e) ==> !HasPair(right))
    case _ => true
  }

  /** The same of every comparison that a condition is made of. */
  predicate CondOneCell(e: Expr) {
    if e.Unary? && e.op == NOT then CondOneCell(e.arg)
    else if e.Binary? && (e.op == AND || e.op == OR) then CondOneCell(e.left) && CondOneCell(e.right)
    else var (l, op, r) := Test(e); OneCell(Binary(op, l, r))
  }

  function Max(a: nat, b: nat): nat {
    if a < b then b else a
  }

  /** How many temporaries are pending at once while the expression is computed. */
  function Depth(e: Expr): nat {
    match e
    case Invoke(_, _) => 1
    case Unary(_, arg) => Max(1, Depth(arg))
    case Binary(_, left, right) =>
      Max(1, Max(Depth(left), Depth(right) + if Computed(left) then 1 else 0))
    case _ => 0
  }

  lemma {:induction false} DepthOfPairs(e: Expr)
    requires NoCalls(e)
    ensures Depth(e) >= 1 <==> Computed(e)
    ensures Depth(e) >= 2 <==> HasPair(e)
    ensures Depth(e) <= 2 <==> OneCell(e)
  {
    match e {
      case Unary(_, arg) => DepthOfPairs(arg);
      case Binary(_, left, right) =>
        DepthOfPairs(left);
        DepthOfPairs(right);
      case _ =>
    }
  }

  // ---------- Code ----------

  lemma {:induction false} ShallowStep(i: Inst, rest: Code, st: seq<nat>)
    requires Step(i, st).Some?
    ensures Shallow([i] + rest, st) <==> |st| <= 2 && Shallow(rest, Step(i, st).value)
  {
    assert ([i] + rest)[1..] == rest;
  }

  lemma {:induction false} ShallowBound(c: Code, st: seq<nat>)
    requires Shallow(c, st)
    ensures |st| <= 2
  {
  }

  /** In front of sound code, expression code keeps to two pending temporaries exactly when
      its depth fits on top of what is pending already. */
  lemma {:induction false} ExprShallow(e: Expr, id: nat, rest: Code, st: seq<nat>)
    requires NoCalls(e) && AllBelow(st, id) && Sound(rest, Push(st, ExprCode(e, id).val), ExprCode(e, id).ids)
    ensures Shallow(ExprCode(e, id).code + rest, st) <==>
      |st| + Depth(e) <= 2 && Shallow(rest, Push(st, ExprCode(e, id).val))
    decreases Size(e), 1
  {
    hide Disciplined, Ascending, Shallow;
    match e {
      case Ref(_) =>
        assert [] + rest == rest;
        assert Shallow(rest, st) ==> |st| <= 2 by { if Shallow(rest, st) { ShallowBound(rest, st); } }
      case Value(_) =>
        assert [] + rest == rest;
        assert Shallow(rest, st) ==> |st| <= 2 by { if Shallow(rest, st) { ShallowBound(rest, st); } }
      case Unary(_, _) => UnaryShallow(e, id, rest, st);
      case Binary(_, _, _) => BinaryShallow(e, id, rest, st);
    }
  }

  lemma {:induction false} UnaryShallow(e: Expr, id: nat, rest: Code, st: seq<nat>)
    requires e.Unary? && NoCalls(e) && AllBelow(st, id)
    requires Sound(rest, st + [ExprCode(e.arg, id).ids], ExprCode(e.arg, id).ids + 1)
    ensures Shallow(ExprCode(e, id).code + rest, st) <==>
      |st| + Depth(e) <= 2 && Shallow(rest, st + [ExprCode(e.arg, id).ids])
    decreases Size(e), 0
  {
    var x := ExprCode(e.arg, id);
    var i := Arith1(x.ids, e.op, x.val);
    assert ExprCode(e, id).code + rest == x.code + ([i] + rest);
    ValBelow(e.arg, id);
    PushedBelow(st, x.val, id, x.ids);
    PopPushed(st, x.val);
    var st' := st + [x.ids];
    assert Step(i, Push(st, x.val)) == Some(st');
    assert |Push(st, x.val)| <= |st'| == |st| + 1;
    hide Disciplined, Ascending, ExprCode, Shallow, Push, Step;
    SoundStep(i, rest, Push(st, x.val), x.ids);
    ExprShallow(e.arg, id, [i] + rest, st);
    ShallowStep(i, rest, Push(st, x.val));
    if Shallow(rest, st') {
      ShallowBound(rest, st');
    }
  }

  lemma {:induction false} BinaryShallow(e: Expr, id: nat, rest: Code, st: seq<nat>)
    requires e.Binary? && NoCalls(e) && AllBelow(st, id)
    requires Sound(rest, Push(st, ExprCode(e, id).val), ExprCode(e, id).ids)
    ensures Shallow(ExprCode(e, id).code + rest, st) <==>
      |st| + Depth(e) <= 2 && Shallow(rest, Push(st, ExprCode(e, id).val))
    decreases Size(e), 0
  {
    var x := ExprCode(e.left, id);
    var y := ExprCode(e.right, x.ids);
    var i := Arith2(y.ids, e.op, x.val, y.val);
    assert ExprCode(e, id) == ExprGen(Tmp(y.ids), x.code + y.code + [i], y.ids + 1);
    ThreeApart(x.code, y.code, [i], rest);
    var st' := st + [y.ids];
    assert Push(st, Tmp(y.ids)) == st';
    assert |Push(st, x.val)| == |st| + (if Computed(e.left) then 1 else 0);
    hide Disciplined, Ascending, ExprCode, Shallow, Sound, AllBelow;
    PairShallow(e.left, e.right, i, id, rest, st, st', 1);
  }

  /** Two operands and the instruction that uses them; `n` temporaries more than before are
      pending behind it. */
  lemma {:induction false} PairShallow(left: Expr, right: Expr, i: Inst, id: nat, rest: Code, st: seq<nat>,
                                       st': seq<nat>, n: nat)
    requires NoCalls(left) && NoCalls(right) && AllBelow(st, id)
    requires var x := ExprCode(left, id); var y := ExprCode(right, x.ids);
      && (if i.Arith2? then i.id == y.ids && st' == st + [y.ids] && n == 1 else i.Branch? && st' == st == [] && n == 0)
      && i.a == x.val && i.b == y.val && Sound(rest, st', if i.Arith2? then y.ids + 1 else y.ids)
    ensures var x := ExprCode(left, id); var y := ExprCode(right, x.ids);
      Shallow(x.code + (y.code + ([i] + rest)), st) <==>
      |st| + Max(n, Max(Depth(left), Depth(right) + if Computed(left) then 1 else 0)) <= 2 && Shallow(rest, st')
    decreases Size(left) + Size(right), 2
  {
    hide *;
    var x := ExprCode(left, id);
    var y := ExprCode(right, x.ids);
    var st1, st2 := Push(st, x.val), Push(Push(st, x.val), y.val);
    SizeIsPositive(left);
    SizeIsPositive(right);
    PendingBelow(left, right, id, st);
    PairPending(left, right, id, st);
    PairUses(left, right, i, id, rest, st, st');
    ExprSound(right, x.ids, [i] + rest, st1, x.ids);
    ExprShallow(left, id, y.code + ([i] + rest), st);
    ExprShallow(right, x.ids, [i] + rest, st1);
    ShallowStep(i, rest, st2);
    if Shallow(rest, st') {
      ShallowBound(rest, st');
    }
    MaxIs(n, Max(Depth(left), Depth(right) + if Computed(left) then 1 else 0));
    MaxIs(Depth(left), Depth(right) + if Computed(left) then 1 else 0);
    DepthOfPairs(right);
  }

  lemma {:induction false} MaxIs(a: nat, b: nat)
    ensures a <= Max(a, b) && b <= Max(a, b) && (Max(a, b) == a || Max(a, b) == b)
  {
  }

  lemma {:induction false} SizeIsPositive(e: Expr)
    ensures Size(e) > 0
  {
  }

  /** How many temporaries two operands leave pending. */
  lemma {:induction false} PairPending(left: Expr, right: Expr, id: nat, st: seq<nat>)
    ensures var x := ExprCode(left, id); var y := ExprCode(right, x.ids);
      && |Push(st, x.val)| == |st| + (if Computed(left) then 1 else 0)
      && |Push(Push(st, x.val), y.val)| == |Push(st, x.val)| + (if Computed(right) then 1 else 0)
  {
    ComputedIsTmp(left, id);
    ComputedIsTmp(right, ExprCode(left, id).ids);
    hide ExprCode, Computed;
  }

  /** The instruction that uses two pending operands. */
  lemma {:induction false} PairUses(left: Expr, right: Expr, i: Inst, id: nat, rest: Code, st: seq<nat>, st': seq<nat>)
    requires AllBelow(st, id)
    requires var x := ExprCode(left, id); var y := ExprCode(right, x.ids);
      && (if i.Arith2? then i.id == y.ids && st' == st + [y.ids] else i.Branch? && st' == st == [])
      && i.a == x.val && i.b == y.val && Sound(rest, st', if i.Arith2? then y.ids + 1 else y.ids)
    ensures var x := ExprCode(left, id); var y := ExprCode(right, x.ids);
      var st2 := Push(Push(st, x.val), y.val);
      Step(i, st2) == Some(st') && Sound([i] + rest, st2, y.ids)
  {
    hide Disciplined, Ascending, ExprCode, Push;
    var x := ExprCode(left, id);
    var y := ExprCode(right, x.ids);
    PendingBelow(left, right, id, st);
    PopPushedTwo(st, x.val, y.val);
    SoundStep(i, rest, Push(Push(st, x.val), y.val), y.ids);
  }

  lemma {:induction false} PendingBelow(left: Expr, right: Expr, id: nat, st: seq<nat>)
    requires AllBelow(st, id)
    ensures var x := ExprCode(left, id); var y := ExprCode(right, x.ids);
      AllBelow(Push(st, x.val), x.ids) && AllBelow(Push(Push(st, x.val), y.val), y.ids)
  {
    hide ExprCode, AllBelow;
    var x := ExprCode(left, id);
    var y := ExprCode(right, x.ids);
    ValBelow(left, id);
    ValBelow(right, x.ids);
    PushedBelow(st, x.val, id, x.ids);
    PushedBelow(Push(st, x.val), y.val, x.ids, y.ids);
  }

  lemma {:induction false} ComputedIsTmp(e: Expr, id: nat)
    ensures Computed(e) <==> ExprCode(e, id).val.Tmp?
  {
  }

  // ---------- Conditions ----------

  lemma {:induction false} TestShallow(e: Expr, t: Label, f: Label, lab: nat, id: nat, rest: Code)
    requires NoCalls(e) && Sound(rest, [], TestCode(e, t, f, lab, id).ids)
    ensures var (l, op, r) := Test(e);
      Shallow(TestCode(e, t, f, lab, id).code + rest, []) <==> OneCell(Binary(op, l, r)) && Shallow(rest, [])
  {
    var (l, op, r) := Test(e);
    assert NoCalls(Binary(op, l, r));
    var x := ExprCode(l, id);
    var y := ExprCode(r, x.ids);
    var br := Branch(op, x.val, y.val, t, f);
    DepthOfPairs(Binary(op, l, r));
    hide Sound, Shallow, ExprCode, OneCell, Test;
    ThreeApart(x.code, y.code, [br], rest);
    PairShallow(l, r, br, id, rest, [], [], 0);
  }

  lemma {:induction false} CondShallow(e: Expr, t: Label, f: Label, lab: nat, id: nat, rest: Code)
    requires NoCalls(e) && Sound(rest, [], CondCode(e, t, f, lab, id).ids)
    ensures Shallow(CondCode(e, t, f, lab, id).code + rest, []) <==> CondOneCell(e) && Shallow(rest, [])
  {
    hide Disciplined, Ascending, Shallow, TestCode, OneCell;
    if e.Unary? && e.op == NOT {
      CondShallow(e.arg, f, t, lab, id, rest);
    } else if e.Binary? && (e.op == AND || e.op == OR) {
      var mid := Fresh(lab + 1);
      var t1, f1 := if e.op == AND then mid else t, if e.op == AND then f else mid;
      var x := CondCode(e.left, t1, f1, lab + 1, id);
      var y := CondCode(e.right, t, f, x.labels, x.ids);
      assert Joined(x.code, mid, y.code) + rest == x.code + ([Mark(mid)] + (y.code + rest));
      CondIds(e.right, t, f, x.labels, x.ids);
      CondSound(e.right, t, f, x.labels, x.ids, rest, x.ids);
      SoundStep(Mark(mid), y.code + rest, [], x.ids);
      CondShallow(e.left, t1, f1, lab + 1, id, [Mark(mid)] + (y.code + rest));
      ShallowStep(Mark(mid), y.code + rest, []);
      CondShallow(e.right, t, f, x.labels, x.ids, rest);
    } else {
      TestShallow(e, t, f, lab, id, rest);
    }
  }

  lemma {:induction false} CondHasNoEffects(e: Expr, t: Label, f: Label, lab: nat, id: nat)
    requires NoCalls(e)
    ensures NoEffects(CondCode(e, t, f, lab, id).code)
  {
    if e.Unary? && e.op == NOT {
      CondHasNoEffects(e.arg, f, t, lab, id);
    } else if e.Binary? && (e.op == AND || e.op == OR) {
      var mid := Fresh(lab + 1);
      var t1, f1 := if e.op == AND then mid else t, if e.op == AND then f else mid;
      var x := CondCode(e.left, t1, f1, lab + 1, id);
      CondHasNoEffects(e.left, t1, f1, lab + 1, id);
      CondHasNoEffects(e.right, t, f, x.labels, x.ids);
    } else {
      var (l, op, r) := Test(e);
      ExprHasNoEffects(l, id);
      ExprHasNoEffects(r, ExprCode(l, id).ids);
    }
  }

  lemma {:induction false} ExprHasNoEffects(e: Expr, id: nat)
    requires NoCalls(e)
    ensures NoEffects(ExprCode(e, id).code)
  {
    match e {
      case Unary(_, arg) => ExprHasNoEffects(arg, id);
      case Binary(_, left, right) =>
        ExprHasNoEffects(left, id);
        ExprHasNoEffects(right, ExprCode(left, id).ids);
      case _ =>
    }
  }

  /** The generator's assertions hold for the code of a condition exactly when, in each of its
      comparisons, no node with two computed operands lies inside the right operand of another. */
  lemma {:induction false} AssertionsHoldIffOneCell(e: Expr, t: Label, f: Label, lab: nat, id: nat, idx: ArgIndex)
    requires NoCalls(e)
    ensures GenAll(CondCode(e, t, f, lab, id).code, EMPTY_STATE, idx).Some? <==> CondOneCell(e)
  {
    var g := CondCode(e, t, f, lab, id);
    assert Sound([], [], g.ids) && Shallow([], []);
    assert g.code + [] == g.code;
    hide Shallow, GenAll, CondOneCell, Ascending, CondCode;
    CondIds(e, t, f, lab, id);
    CondSound(e, t, f, lab, id, [], id);
    CondShallow(e, t, f, lab, id, []);
    CondHasNoEffects(e, t, f, lab, id);
    AssertionsHoldIffShallow(g.code, [], EMPTY_STATE, idx);
  }
}
