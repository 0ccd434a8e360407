/** The passes on the instruction list, in place. */
module Passes {
  import opened Syntax
  import opened Ir
  import opened Merge
  import opened DeadCode
  import opened Check
  import opened AstGen

  // ---------- CheckVariableUse ----------

  /** The operands that are looked up, other than the parameters of a call. */
  function Operands(i: Inst): seq<Operand> {
    match i
    case Arith1(_, _, a) => [a]
    case Arith2(_, _, a, b) => [a, b]
    case Store(src, dst) => [src, Mem(dst)]
    case Branch(_, a, b, _, _) => [a, b]
    case _ => []
  }

  lemma {:induction false} OperandsUsed(args: seq<string>, i: Inst)
    requires !i.Call?
    ensures UsesOnly(args, i) <==> forall k | 0 <= k < |Operands(i)| :: NamedIn(args, Operands(i)[k])
  {
    var ops := Operands(i);
    if UsesOnly(args, i) {
    } else {
      assert (|ops| > 0 && !NamedIn(args, ops[0])) || (|ops| > 1 && !NamedIn(args, ops[1]));
    }
  }

  /** Accepts the code exactly when every variable in it is a parameter. */
  method CheckVariableUse(code: InstList, args: seq<string>) returns (ok: bool)
    ensures ok <==> VariablesDeclared(args, code.insts)
  {
    var declared := set s | s in args;
    var n := 0;
    while n < |code.insts|
      invariant n <= |code.insts|
      invariant VariablesDeclared(args, code.insts[..n])
    {
      var inst := code.insts[n];
      assert inst in code.insts;
      if inst.Call? {
        var k := 0;
        while k < |inst.params|
          invariant k <= |inst.params|
          invariant forall x | x in inst.params[..k] :: x in args
        {
          if inst.params[k] !in declared {
            assert !UsesOnly(args, inst);
            return false;
          }
          k := k + 1;
        }
        assert inst.params[..k] == inst.params;
      } else {
        var ops := Operands(inst);
        OperandsUsed(args, inst);
        var k := 0;
        while k < |ops|
          invariant k <= |ops|
          invariant forall j | 0 <= j < k :: NamedIn(args, ops[j])
        {
          if ops[k].Mem? && ops[k].name !in declared {
            return false;
          }
          k := k + 1;
        }
      }
      n := n + 1;
      assert code.insts[..n] == code.insts[..n - 1] + [inst];
    }
    assert code.insts[..n] == code.insts;
    return true;
  }

  // ---------- MergeLabels ----------

  /** The head of the run that the loop is in. */
  function HeadNow(prevIsLabel: bool, prevLabel: Label): Option<Label> {
    if prevIsLabel then Some(prevLabel) else None
  }

  method MergeLabels(code: InstList)
    modifies code
    ensures code.insts == Merged(old(code.insts))
  {
    var heads := DropMerged(code);
    RetargetBranches(code, heads);
  }

  /** What the loops do to a list whose first part is done: they go on to the next element,
      or erase it. */
  lemma {:induction false} ListStep(c: Code, done: Code, rest: Code)
    requires c == done + rest && rest != []
    ensures c[|done|] == rest[0]
    ensures c[..|done|] + c[|done| + 1..] == done + rest[1..]
    ensures done + [rest[0]] + rest[1..] == c
  {
  }

  lemma {:induction false} Regroup(done: Code, i: Inst, rest: Code)
    ensures done + [i] + rest == done + ([i] + rest)
  {
  }

  /** The first loop: erases every label behind a label, and records its replacement. */
  method DropMerged(code: InstList) returns (oldToNew: map<Label, Label>)
    modifies code
    ensures code.insts == Strip(old(code.insts), false)
    ensures oldToNew == Heads(old(code.insts), None)
  {
    ghost var whole := code.insts;
    ghost var done, rest := [], whole;
    oldToNew := map[];
    var prevIsLabel, prevLabel := false, Named("");
    var k := 0;
    while k < |code.insts|
      invariant code.insts == done + rest && k == |done|
      invariant done + Strip(rest, prevIsLabel) == Strip(whole, false)
      invariant oldToNew + Heads(rest, HeadNow(prevIsLabel, prevLabel)) == Heads(whole, None)
      decreases |code.insts| - k
    {
      ListStep(code.insts, done, rest);
      var inst := code.insts[k];
      if inst.Mark? && prevIsLabel {
        oldToNew := oldToNew[inst.lbl := prevLabel];
        code.Erase(k);
      } else {
        Regroup(done, inst, Strip(rest[1..], inst.Mark?));
        if inst.Mark? {
          prevIsLabel := true;
          prevLabel := inst.lbl;
        } else {
          prevIsLabel := false;
        }
        k := k + 1;
        done := done + [inst];
      }
      rest := rest[1..];
    }
  }

  /** The second loop: every branch gets the replacement of its targets. */
  method RetargetBranches(code: InstList, oldToNew: map<Label, Label>)
    modifies code
    ensures code.insts == RetargetAll(oldToNew, old(code.insts))
  {
    ghost var whole := code.insts;
    var k := 0;
    while k < |code.insts|
      invariant |code.insts| == |whole| && k <= |whole|
      invariant forall j | 0 <= j < |whole| :: code.insts[j] == if j < k then Retarget(oldToNew, whole[j]) else whole[j]
    {
      var inst := code.insts[k];
      if inst.Branches() {
        var b := inst;
        if inst.t in oldToNew {
          b := b.(t := oldToNew[inst.t]);
        }
        if inst.Branch? {
          if inst.f in oldToNew {
            b := b.(f := oldToNew[inst.f]);
          }
        }
        code.insts := code.insts[k := b];
      }
      k := k + 1;
    }
  }

  // ---------- EliminateDeadCode ----------

  method EliminateDeadCode(code: InstList)
    modifies code
    ensures code.insts == Live(old(code.insts))
  {
    DropAfterEnds(code);
    var modified := EliminateDeadCodeImpl(code);
    while modified
      invariant Settle(code.insts) == Live(old(code.insts))
      invariant !modified ==> Settle(code.insts) == code.insts
      decreases |code.insts|, modified
    {
      modified := EliminateDeadCodeImpl(code);
    }
  }

  /** The first loop. */
  method DropAfterEnds(code: InstList)
    modifies code
    ensures code.insts == Sweep(old(code.insts), None)
  {
    ghost var whole := code.insts;
    ghost var done, rest := [], whole;
    var prev: Option<Inst> := None;
    var k := 0;
    while k < |code.insts|
      invariant code.insts == done + rest && k == |done|
      invariant done + Sweep(rest, prev) == Sweep(whole, None)
      decreases |code.insts| - k
    {
      ListStep(code.insts, done, rest);
      var inst := code.insts[k];
      if prev.Some? && (prev.value.Return? || inst.Jump?) && !inst.Mark? {
        code.Erase(k);
        rest := rest[1..];
        continue;
      }
      Regroup(done, inst, Sweep(rest[1..], Some(inst)));
      prev := Some(inst);
      k := k + 1;
      done, rest := done + [inst], rest[1..];
    }
  }

  /** One pass of the second loop; says whether it changed the list. */
  method EliminateDeadCodeImpl(code: InstList) returns (modified: bool)
    modifies code
    ensures code.insts == Purge(old(code.insts), None, false, {})
    ensures modified <==> code.insts != old(code.insts)
    ensures Settle(code.insts) == Settle(old(code.insts))
  {
    ghost var whole := code.insts;
    ghost var done, rest := [], whole;
    var reachable: set<Label> := {};
    var prev: Option<Inst> := None;
    var purging := false;
    modified := false;
    var k := 0;
    while k < |code.insts|
      invariant code.insts == done + rest && k == |done|
      invariant done + Purge(rest, prev, purging, reachable) == Purge(whole, None, false, {})
      invariant modified <==> |code.insts| < |whole|
      invariant !modified ==> code.insts == whole
      decreases |code.insts| - k
    {
      ListStep(code.insts, done, rest);
      var inst := code.insts[k];
      PurgeHead(rest, prev, purging, reachable);
      hide Purge, Settle;
      if inst.Mark? {
        purging := false;
        if inst.lbl !in reachable {
          if prev.Some? && (prev.value.Return? || prev.value.Branches()) {
            purging := true;
          }
        }
      }
      if purging {
        code.Erase(k);
        modified := true;
      } else {
        TargetsOf(inst, reachable);
        if inst.Branch? {
          reachable := reachable + {inst.t, inst.f};
        } else if inst.Jump? {
          reachable := reachable + {inst.t};
        }
        Regroup(done, inst, Purge(rest[1..], Some(inst), false, reachable));
        k := k + 1;
        done := done + [inst];
      }
      prev := Some(inst);
      rest := rest[1..];
    }
  }

  lemma {:induction false} PurgeHead(c: Code, prev: Option<Inst>, purging: bool, reach: set<Label>)
    requires c != []
    ensures Purge(c, prev, purging, reach) ==
      if Dropped(c[0], prev, purging, reach) then Purge(c[1..], Some(c[0]), true, reach)
      else [c[0]] + Purge(c[1..], Some(c[0]), false, reach + TargetSet(c[0]))
  {
  }

  lemma {:induction false} TargetsOf(i: Inst, reach: set<Label>)
    ensures reach + TargetSet(i) == if i.Branch? then reach + {i.t, i.f} else if i.Jump? then reach + {i.t} else reach
  {
  }
}
