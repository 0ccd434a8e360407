/** Basic blocks: what BuildCFG makes of code, and runs that start at a block. */
module Cfg {
  import opened Syntax
  import opened Ir

  /** A block refers to its neighbours by their position in the program order. */
  datatype Block = Block(label_: Label, insts: Code, children: seq<nat>, parents: seq<nat>)

  type Blocks = seq<Block>

  /** The instruction list that the blocks came from, each block behind its label. */
  function Flat(bs: Blocks): Code {
    if bs == [] then [] else [Mark(bs[0].label_)] + bs[0].insts + Flat(bs[1..])
  }

  predicate MarkFree(bs: Blocks) {
    forall b | b in bs :: NoMarks(b.insts)
  }

  predicate DistinctLabels(bs: Blocks) {
    forall i, j | 0 <= i < j < |bs| :: bs[i].label_ != bs[j].label_
  }

  /** Control runs on into the next block. */
  predicate FallsThrough(c: Code) {
    c == [] || !c[|c| - 1].Ends()
  }

  function Count(ls: seq<Label>, l: Label): nat {
    if ls == [] then 0 else (if ls[0] == l then 1 else 0) + Count(ls[1..], l)
  }

  /** How many branch targets in `c` name `l`. */
  function Slots(c: Code, l: Label): nat {
    if c == [] then 0 else Count(c[0].Targets(), l) + Slots(c[1..], l)
  }

  /** The number of edges from block `i` to block `j`: fall-through plus branch targets. */
  function Edges(bs: Blocks, i: nat, j: nat): nat {
    if i < j < |bs| then
      (if j == i + 1 && FallsThrough(bs[i].insts) then 1 else 0) + Slots(bs[i].insts, bs[j].label_)
    else 0
  }

  /** The blocks hold exactly the code, and the edges are exactly the control flow, with
      multiplicity, seen from both ends. */
  ghost predicate IsCfg(bs: Blocks, root: Label, c: Code) {
    && bs != [] && MarkFree(bs) && Flat(bs) == [Mark(root)] + c
    && (forall i: nat, j: nat | j < |bs| :: multiset(bs[j].parents)[i] == Edges(bs, i, j))
    && (forall i: nat, j: nat | i < |bs| :: multiset(bs[i].children)[j] == Edges(bs, i, j))
  }

  // ---------- Runs of one block ----------

  datatype Exit = Falls(env: Env) | Goes(lbl: Label, env: Env) | Ended(outcome: Outcome)

  /** What a label-free piece of code does. */
  function RunBlock(m: Machine, c: Code, env: Env, tmp: Temps): Exit {
    if c == [] then Falls(env)
    else
      var i, rest := c[0], c[1..];
      match i
      case Mark(_) => Ended(Stuck)
      case Store(src, x) =>
        var v := Val(src, env, tmp);
        if v.Some? then RunBlock(m, rest, env[x := v.value], map[]) else Ended(Stuck)
      case Branch(op, a, b, t, f) =>
        var va, vb := Val(a, env, tmp), Val(b, env, tmp);
        if va.Some? && vb.Some? then Goes(if Compare(op, va.value, vb.value) then t else f, env)
        else Ended(Stuck)
      case Jump(t) => Goes(t, env)
      case Return(val) => Ended(Returned(val, env))
      case _ =>
        var v := Result(m, i, env, tmp);
        if v.Some? then RunBlock(m, rest, env, tmp[i.id := v.value]) else Ended(Stuck)
  }

  /** The code that follows a block: nothing, or a label. */
  predicate AtBoundary(c: Code) {
    c == [] || c[0].Mark?
  }

  function Continue(m: Machine, x: Exit, rest: Code): Outcome {
    match x
    case Falls(env) => Run(m, rest, env, map[])
    case Goes(l, env) => JumpTo(m, rest, l, env)
    case Ended(o) => o
  }

  lemma {:induction false} RunBlockThen(m: Machine, c: Code, rest: Code, env: Env, tmp: Temps)
    requires m.jumps && NoMarks(c) && AtBoundary(rest)
    ensures Run(m, c + rest, env, tmp) == Continue(m, RunBlock(m, c, env, tmp), rest)
  {
    hide JumpTo;
    if c == [] {
      assert c + rest == rest;
    } else {
      var i := c[0];
      assert (c + rest)[0] == i && (c + rest)[1..] == c[1..] + rest;
      if i.Computes() {
        var v := Result(m, i, env, tmp);
        if v.Some? {
          RunBlockThen(m, c[1..], rest, env, tmp[i.id := v.value]);
        }
      } else if i.Store? {
        var v := Val(i.src, env, tmp);
        if v.Some? {
          RunBlockThen(m, c[1..], rest, env[i.dst := v.value], map[]);
        }
      } else if i.Branches() {
        forall l | l in i.Targets()
          ensures JumpTo(m, c[1..] + rest, l, env) == JumpTo(m, rest, l, env)
        {
          assert Mark(l) !in c;
          JumpSkips(m, c[1..], rest, l, env);
        }
      }
    }
  }

  // ---------- Runs from a block ----------

  function RunFrom(m: Machine, bs: Blocks, k: nat, env: Env): Outcome
    requires k <= |bs|
  {
    Run(m, Flat(bs[k..]), env, map[])
  }

  /** The first block at or after `k` with the label. */
  function Find(bs: Blocks, k: nat, l: Label): (r: Option<nat>)
    requires k <= |bs|
    ensures r.Some? ==> k <= r.value < |bs| && bs[r.value].label_ == l
    ensures r.Some? ==> forall j | k <= j < r.value :: bs[j].label_ != l
    ensures r.None? ==> forall j | k <= j < |bs| :: bs[j].label_ != l
    decreases |bs| - k
  {
    if k == |bs| then None
    else if bs[k].label_ == l then Some(k)
    else Find(bs, k + 1, l)
  }

  lemma {:induction false} FlatFrom(bs: Blocks, k: nat)
    requires k < |bs|
    ensures Flat(bs[k..]) == [Mark(bs[k].label_)] + bs[k].insts + Flat(bs[k + 1..])
  {
    assert bs[k..][0] == bs[k] && bs[k..][1..] == bs[k + 1..];
  }

  lemma {:induction false} JumpToBlock(m: Machine, bs: Blocks, k: nat, l: Label, env: Env)
    requires k <= |bs| && MarkFree(bs)
    ensures JumpTo(m, Flat(bs[k..]), l, env) ==
      match Find(bs, k, l) case Some(j) => RunFrom(m, bs, j, env) case None => Stuck
    decreases |bs| - k
  {
    hide Run;
    if k < |bs| {
      FlatFrom(bs, k);
      var b, rest := bs[k], Flat(bs[k + 1..]);
      assert b in bs;
      assert [Mark(b.label_)] + b.insts + rest == [Mark(b.label_)] + (b.insts + rest);
      if b.label_ == l {
        assert [Mark(l)] + (b.insts + rest) == [] + [Mark(l)] + (b.insts + rest);
        JumpLands(m, [], b.insts + rest, l, env);
        RunMark(m, l, b.insts + rest, env, map[]);
      } else {
        assert Mark(l) !in [Mark(b.label_)] + b.insts;
        JumpSkips(m, [Mark(b.label_)] + b.insts, rest, l, env);
        JumpToBlock(m, bs, k + 1, l, env);
      }
    }
  }

  /** A run from block `k`, one block at a time. */
  lemma {:induction false} StepBlock(m: Machine, bs: Blocks, k: nat, env: Env)
    requires m.jumps && k < |bs| && MarkFree(bs)
    ensures bs[k] in bs
    ensures RunFrom(m, bs, k, env) ==
      match RunBlock(m, bs[k].insts, env, map[])
      case Falls(e) => RunFrom(m, bs, k + 1, e)
      case Goes(l, e) => (match Find(bs, k + 1, l) case Some(j) => RunFrom(m, bs, j, e) case None => Stuck)
      case Ended(o) => o
  {
    hide Run, RunBlock;
    FlatFrom(bs, k);
    var b, rest := bs[k], Flat(bs[k + 1..]);
    assert b in bs;
    assert [Mark(b.label_)] + b.insts + rest == [Mark(b.label_)] + (b.insts + rest);
    RunMark(m, b.label_, b.insts + rest, env, map[]);
    RunBlockThen(m, b.insts, rest, env, map[]);
    var x := RunBlock(m, b.insts, env, map[]);
    if x.Goes? {
      JumpToBlock(m, bs, k + 1, x.lbl, x.env);
    }
  }

  // ---------- Exits and edges ----------

  lemma {:induction false} CountHas(ls: seq<Label>, l: Label)
    requires l in ls
    ensures Count(ls, l) > 0
  {
    if ls[0] != l {
      CountHas(ls[1..], l);
    }
  }

  lemma {:induction false} CountTargets(i: Inst, l: Label)
    ensures Count(i.Targets(), l) ==
      if i.Branch? then (if i.t == l then 1 else 0) + (if i.f == l then 1 else 0)
      else if i.Jump? && i.t == l then 1 else 0
  {
    if i.Branch? {
      assert i.Targets()[1..] == [i.f] && [i.f][1..] == [];
    } else if i.Jump? {
      assert i.Targets()[1..] == [];
    }
  }

  lemma {:induction false} SlotsHave(c: Code, i: Inst, l: Label)
    requires i in c && l in i.Targets()
    ensures Slots(c, l) > 0
  {
    if c[0] == i {
      CountHas(i.Targets(), l);
    } else {
      SlotsHave(c[1..], i, l);
    }
  }

  /** Where a block's run goes, there is a branch target for it. */
  lemma {:induction false} GoesHasSlot(m: Machine, c: Code, env: Env, tmp: Temps)
    requires NoMarks(c) && RunBlock(m, c, env, tmp).Goes?
    ensures Slots(c, RunBlock(m, c, env, tmp).lbl) > 0
  {
    hide Count;
    var i := c[0];
    if i.Branches() {
      SlotsHave(c, i, RunBlock(m, c, env, tmp).lbl);
    } else if i.Store? {
      GoesHasSlot(m, c[1..], env[i.dst := Val(i.src, env, tmp).value], map[]);
    } else {
      GoesHasSlot(m, c[1..], env, tmp[i.id := Result(m, i, env, tmp).value]);
    }
  }

  lemma {:induction false} FallsIsFallThrough(m: Machine, c: Code, env: Env, tmp: Temps)
    requires NoMarks(c) && RunBlock(m, c, env, tmp).Falls?
    ensures FallsThrough(c)
  {
    if c != [] {
      var i := c[0];
      if i.Store? {
        FallsIsFallThrough(m, c[1..], env[i.dst := Val(i.src, env, tmp).value], map[]);
      } else if !i.Ends() {
        FallsIsFallThrough(m, c[1..], env, tmp[i.id := Result(m, i, env, tmp).value]);
      }
    }
  }

  /** Every edge goes to a later block, so program order is a topological order. */
  lemma {:induction false} EdgesGoForward(bs: Blocks, root: Label, c: Code)
    requires IsCfg(bs, root, c)
    ensures forall j, p | 0 <= j < |bs| && p in bs[j].parents :: p < j
    ensures forall i, k | 0 <= i < |bs| && k in bs[i].children :: i < k < |bs|
    ensures forall i, j | 0 <= i < |bs| && 0 <= j < |bs| :: i in bs[j].parents <==> j in bs[i].children
  {
    forall j, p | 0 <= j < |bs| && p in bs[j].parents
      ensures p < j
    {
      assert multiset(bs[j].parents)[p] > 0;
    }
    forall i, k | 0 <= i < |bs| && k in bs[i].children
      ensures i < k < |bs|
    {
      assert multiset(bs[i].children)[k] > 0;
    }
    forall i: nat, j: nat | i < |bs| && j < |bs|
      ensures i in bs[j].parents <==> j in bs[i].children
    {
      assert multiset(bs[j].parents)[i] == multiset(bs[i].children)[j];
      assert i in bs[j].parents <==> i in multiset(bs[j].parents);
      assert j in bs[i].children <==> j in multiset(bs[i].children);
    }
  }

  /** A block of a Cfg never runs on into a block that is not its child. */
  lemma {:induction false} ExitIsChild(m: Machine, bs: Blocks, root: Label, c: Code, k: nat, env: Env)
    requires IsCfg(bs, root, c) && k < |bs| && bs[k] in bs
    ensures var x := RunBlock(m, bs[k].insts, env, map[]);
      && (x.Falls? && k + 1 < |bs| ==> k + 1 in bs[k].children)
      && (x.Goes? && Find(bs, k + 1, x.lbl).Some? ==> Find(bs, k + 1, x.lbl).value in bs[k].children)
  {
    var x := RunBlock(m, bs[k].insts, env, map[]);
    hide RunBlock;
    if x.Falls? && k + 1 < |bs| {
      FallsIsFallThrough(m, bs[k].insts, env, map[]);
      assert multiset(bs[k].children)[k + 1] > 0;
    }
    if x.Goes? && Find(bs, k + 1, x.lbl).Some? {
      GoesHasSlot(m, bs[k].insts, env, map[]);
      assert multiset(bs[k].children)[Find(bs, k + 1, x.lbl).value] > 0;
    }
  }
}
