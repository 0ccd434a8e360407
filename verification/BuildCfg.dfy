/** BuildCFG: basic blocks from the instruction list, with the edges between them. */
module BuildCfg {
  import opened Ir
  import opened Cfg
  import opened AstGen

  /** The blocks of one check, in program order; neighbours are named by position. */
  class BlockList {
    var bs: Blocks

    constructor (root: Label)
      ensures bs == [Block(root, [], [], [])]
    {
      bs := [Block(root, [], [], [])];
    }

    method NewBasicBlock(l: Label)
      modifies this
      ensures bs == old(bs) + [Block(l, [], [], [])]
    {
      bs := bs + [Block(l, [], [], [])];
    }

    method AddInst(k: nat, i: Inst)
      requires k < |bs|
      modifies this
      ensures bs == old(bs[k := bs[k].(insts := bs[k].insts + [i])])
    {
      bs := bs[k := bs[k].(insts := bs[k].insts + [i])];
    }

    method AddChild(k: nat, child: nat)
      requires k < |bs|
      modifies this
      ensures bs == old(bs[k := bs[k].(children := bs[k].children + [child])])
    {
      bs := bs[k := bs[k].(children := bs[k].children + [child])];
    }

    method AddParent(k: nat, parent: nat)
      requires k < |bs|
      modifies this
      ensures bs == old(bs[k := bs[k].(parents := bs[k].parents + [parent])])
    {
      bs := bs[k := bs[k].(parents := bs[k].parents + [parent])];
    }
  }

  // ---------- Edges into the last block ----------

  /** An edge from block `s` to block `j`, recorded at both ends. */
  function Link(bs: Blocks, j: nat, s: nat): Blocks
    requires s < j < |bs|
  {
    var bs' := bs[s := bs[s].(children := bs[s].children + [j])];
    bs'[j := bs'[j].(parents := bs'[j].parents + [s])]
  }

  predicate Sources(j: nat, srcs: seq<nat>) {
    forall s | s in srcs :: s < j
  }

  lemma {:induction false} SourcesPrefix(j: nat, srcs: seq<nat>, n: nat)
    requires Sources(j, srcs) && n < |srcs|
    ensures srcs[n] < j && Sources(j, srcs[..n])
  {
    assert srcs[n] in srcs;
    forall s | s in srcs[..n]
      ensures s < j
    {
      assert s in srcs;
    }
  }

  function Linked(bs: Blocks, j: nat, srcs: seq<nat>): (r: Blocks)
    requires j < |bs| && Sources(j, srcs)
    ensures |r| == |bs|
    decreases |srcs|
  {
    if srcs == [] then bs
    else
      var n := |srcs| - 1;
      SourcesPrefix(j, srcs, n);
      Link(Linked(bs, j, srcs[..n]), j, srcs[n])
  }

  lemma {:induction false} LinkBlock(bs: Blocks, j: nat, s: nat, i: nat, x: nat)
    requires s < j < |bs| && i < |bs|
    ensures var b := Link(bs, j, s)[i];
      && b.label_ == bs[i].label_ && b.insts == bs[i].insts
      && b.parents == (if i == j then bs[i].parents + [s] else bs[i].parents)
      && multiset(b.children)[x] == multiset(bs[i].children)[x] + (if x == j && i == s then 1 else 0)
  {
  }

  lemma {:induction false} LinkedBlock(bs: Blocks, j: nat, srcs: seq<nat>, i: nat, x: nat)
    requires j < |bs| && Sources(j, srcs) && i < |bs|
    ensures var b := Linked(bs, j, srcs)[i];
      && b.label_ == bs[i].label_ && b.insts == bs[i].insts
      && b.parents == (if i == j then bs[i].parents + srcs else bs[i].parents)
      && multiset(b.children)[x] == multiset(bs[i].children)[x] + (if x == j then multiset(srcs)[i] else 0)
    decreases |srcs|
  {
    if srcs == [] {
      assert bs[i].parents + [] == bs[i].parents;
    } else {
      var n := |srcs| - 1;
      SourcesPrefix(j, srcs, n);
      LinkedBlock(bs, j, srcs[..n], i, x);
      assert srcs == srcs[..n] + [srcs[n]];
      var r := Linked(bs, j, srcs[..n]);
      hide Linked;
      assert multiset(srcs)[i] == multiset(srcs[..n])[i] + (if srcs[n] == i then 1 else 0);
      LinkBlock(r, j, srcs[n], i, x);
    }
  }

  // ---------- Growing a graph ----------

  lemma {:induction false} FlatAppend(bs: Blocks, b: Block)
    ensures Flat(bs + [b]) == Flat(bs) + [Mark(b.label_)] + b.insts
  {
    if bs == [] {
      assert [b][1..] == [] && Flat([b][1..]) == [];
    } else {
      assert (bs + [b])[0] == bs[0] && (bs + [b])[1..] == bs[1..] + [b];
      FlatAppend(bs[1..], b);
    }
  }

  /** The flat code depends on labels and instructions only. */
  lemma {:induction false} SameFlat(bs: Blocks, bs': Blocks)
    requires |bs'| == |bs| && forall i | 0 <= i < |bs| :: bs'[i].label_ == bs[i].label_ && bs'[i].insts == bs[i].insts
    ensures Flat(bs') == Flat(bs)
  {
    if bs != [] {
      SameFlat(bs[1..], bs'[1..]);
    }
  }

  lemma {:induction false} SlotsAppend(c: Code, i: Inst, l: Label)
    ensures Slots(c + [i], l) == Slots(c, l) + Count(i.Targets(), l)
  {
    if c == [] {
      assert [i][1..] == [];
    } else {
      assert (c + [i])[0] == c[0] && (c + [i])[1..] == c[1..] + [i];
      SlotsAppend(c[1..], i, l);
    }
  }

  /** An instruction joins the last block. */
  lemma {:induction false} InstJoins(bs: Blocks, root: Label, c: Code, i: Inst)
    requires IsCfg(bs, root, c) && !i.Mark?
    ensures var n := |bs| - 1;
      IsCfg(bs[n := bs[n].(insts := bs[n].insts + [i])], root, c + [i])
  {
    var n := |bs| - 1;
    var b := bs[n].(insts := bs[n].insts + [i]);
    var bs' := bs[n := b];
    assert bs' == bs[..n] + [b] && bs == bs[..n] + [bs[n]];
    FlatAppend(bs[..n], b);
    FlatAppend(bs[..n], bs[n]);
    assert MarkFree(bs') by {
      assert bs[n] in bs;
      assert forall k | 0 <= k < n :: bs[k] in bs;
    }
    hide Flat, MarkFree;
    forall i: nat, j: nat
      ensures Edges(bs', i, j) == Edges(bs, i, j)
    {
      SameEdges(bs, bs', i, j);
    }
    assert [Mark(root)] + (c + [i]) == [Mark(root)] + c + [i];
  }

  /** Edges depend on all blocks' labels and on the instructions of all but the last. */
  lemma {:induction false} SameEdges(bs: Blocks, bs': Blocks, i: nat, j: nat)
    requires |bs| == |bs'| && forall k | 0 <= k < |bs| :: bs'[k].label_ == bs[k].label_
    requires forall k | 0 <= k < |bs| - 1 :: bs'[k].insts == bs[k].insts
    ensures Edges(bs', i, j) == Edges(bs, i, j)
  {
  }

  /** The blocks that branch to each label, with multiplicity, are those that were noted. */
  ghost predicate Noted(bs: Blocks, backward: map<Label, seq<nat>>) {
    && (forall l, s | l in backward && s in backward[l] :: s < |bs|)
    && forall l, i: nat | i < |bs| :: multiset(Back(backward, l))[i] == Slots(bs[i].insts, l)
  }

  function Back(backward: map<Label, seq<nat>>, l: Label): seq<nat> {
    if l in backward then backward[l] else []
  }

  lemma {:induction false} BranchNoted(bs: Blocks, backward: map<Label, seq<nat>>, i: Inst,
                                       backward': map<Label, seq<nat>>)
    requires bs != [] && Noted(bs, backward)
    requires var n := |bs| - 1;
      && (forall l, s | l in backward' && s in backward'[l] :: s < |bs|)
      && forall l, k: nat ::
         multiset(Back(backward', l))[k] ==
         multiset(Back(backward, l))[k] + (if k == n then Count(i.Targets(), l) else 0)
    ensures var n := |bs| - 1;
      Noted(bs[n := bs[n].(insts := bs[n].insts + [i])], backward')
  {
    var n := |bs| - 1;
    var bs' := bs[n := bs[n].(insts := bs[n].insts + [i])];
    forall l, k: nat | k < |bs'|
      ensures multiset(Back(backward', l))[k] == Slots(bs'[k].insts, l)
    {
      SlotsAppend(bs[n].insts, i, l);
    }
  }

  /** The sources of the edges into a new block labelled `l`. */
  function SourcesOf(bs: Blocks, backward: map<Label, seq<nat>>, l: Label): seq<nat>
    requires bs != []
  {
    (if FallsThrough(bs[|bs| - 1].insts) then [|bs| - 1] else []) + Back(backward, l)
  }

  /** The blocks with a new one behind them, linked to its sources. */
  function Grown(bs: Blocks, backward: map<Label, seq<nat>>, l: Label): (r: Blocks)
    requires bs != [] && Sources(|bs|, SourcesOf(bs, backward, l))
    ensures |r| == |bs| + 1
  {
    Linked(bs + [Block(l, [], [], [])], |bs|, SourcesOf(bs, backward, l))
  }

  lemma {:induction false} SourcesAreBlocks(bs: Blocks, backward: map<Label, seq<nat>>, l: Label)
    requires bs != [] && Noted(bs, backward)
    ensures Sources(|bs|, SourcesOf(bs, backward, l))
  {
  }

  /** Block `i` of the grown blocks. */
  lemma {:induction false} GrownBlock(bs: Blocks, backward: map<Label, seq<nat>>, l: Label, i: nat, x: nat)
    requires bs != [] && Sources(|bs|, SourcesOf(bs, backward, l)) && i <= |bs|
    ensures var srcs := SourcesOf(bs, backward, l);
      var b := Grown(bs, backward, l)[i];
      if i < |bs| then
        && b.label_ == bs[i].label_ && b.insts == bs[i].insts && b.parents == bs[i].parents
        && multiset(b.children)[x] == multiset(bs[i].children)[x] + (if x == |bs| then multiset(srcs)[i] else 0)
      else b.label_ == l && b.insts == [] && b.parents == srcs && multiset(b.children)[x] == 0
  {
    var grown := bs + [Block(l, [], [], [])];
    var srcs: seq<nat> := SourcesOf(bs, backward, l);
    LinkedBlock(grown, |bs|, srcs, i, x);
    assert [] + srcs == srcs;
    assert i == |bs| ==> i !in srcs;
  }

  /** How many edges lead into the new block. */
  lemma {:induction false} NewEdges(bs: Blocks, backward: map<Label, seq<nat>>, l: Label, i: nat)
    requires bs != [] && Noted(bs, backward) && Sources(|bs|, SourcesOf(bs, backward, l)) && i < |bs|
    ensures Edges(Grown(bs, backward, l), i, |bs|) == multiset(SourcesOf(bs, backward, l))[i]
  {
    hide *;
    GrownBlock(bs, backward, l, i, 0);
    GrownBlock(bs, backward, l, |bs|, 0);
    SourceCount(bs, backward, l, i);
    EdgesBetween(Grown(bs, backward, l), i, |bs|);
  }

  lemma {:induction false} SourceCount(bs: Blocks, backward: map<Label, seq<nat>>, l: Label, i: nat)
    requires bs != [] && Noted(bs, backward) && i < |bs|
    ensures multiset(SourcesOf(bs, backward, l))[i] ==
      (if |bs| == i + 1 && FallsThrough(bs[i].insts) then 1 else 0) + Slots(bs[i].insts, l)
  {
    hide Slots, FallsThrough;
    assert multiset(Back(backward, l))[i] == Slots(bs[i].insts, l);
  }

  lemma {:induction false} EdgesBetween(bs: Blocks, i: nat, j: nat)
    requires i < j < |bs|
    ensures Edges(bs, i, j) ==
      (if j == i + 1 && FallsThrough(bs[i].insts) then 1 else 0) + Slots(bs[i].insts, bs[j].label_)
  {
  }

  lemma {:induction false} OldEdges(bs: Blocks, backward: map<Label, seq<nat>>, l: Label, i: nat, j: nat)
    requires bs != [] && Sources(|bs|, SourcesOf(bs, backward, l)) && j < |bs|
    ensures Edges(Grown(bs, backward, l), i, j) == Edges(bs, i, j)
  {
    GrownBlock(bs, backward, l, j, 0);
    if i < |bs| {
      GrownBlock(bs, backward, l, i, 0);
    }
    hide Grown;
  }

  /** A new block joins, with its edges. */
  lemma {:induction false} BlockJoins(bs: Blocks, root: Label, c: Code, l: Label, backward: map<Label, seq<nat>>)
    requires IsCfg(bs, root, c) && Noted(bs, backward)
    ensures Sources(|bs|, SourcesOf(bs, backward, l))
    ensures IsCfg(Grown(bs, backward, l), root, c + [Mark(l)]) && Noted(Grown(bs, backward, l), backward)
  {
    SourcesAreBlocks(bs, backward, l);
    var n: nat := |bs|;
    var bs' := Grown(bs, backward, l);
    forall i: nat | i <= n
      ensures bs'[i].label_ == (if i < n then bs[i].label_ else l)
      ensures bs'[i].insts == (if i < n then bs[i].insts else [])
    {
      GrownBlock(bs, backward, l, i, 0);
    }
    GrownFlat(bs, bs', l, root, c);
    NotedGrown(bs, bs', backward);
    hide Flat, MarkFree, SourcesOf, Noted, Grown, Edges;
    forall i: nat, j: nat | j <= n
      ensures multiset(bs'[j].parents)[i] == Edges(bs', i, j)
    {
      GrownParents(bs, root, c, l, backward, i, j);
    }
    forall i: nat, j: nat | i <= n
      ensures multiset(bs'[i].children)[j] == Edges(bs', i, j)
    {
      GrownChildren(bs, root, c, l, backward, i, j);
    }
  }

  lemma {:induction false} NotedGrown(bs: Blocks, bs': Blocks, backward: map<Label, seq<nat>>)
    requires Noted(bs, backward) && |bs'| == |bs| + 1 && bs'[|bs|].insts == []
    requires forall i: nat | i < |bs| :: bs'[i].insts == bs[i].insts
    ensures Noted(bs', backward)
  {
    hide Slots;
    forall l, i: nat | i < |bs'|
      ensures multiset(Back(backward, l))[i] == Slots(bs'[i].insts, l)
    {
      if i == |bs| {
        assert i !in Back(backward, l);
        assert Slots([], l) == 0 by { NoSlots(l); }
      }
    }
  }

  lemma {:induction false} NoSlots(l: Label)
    ensures Slots([], l) == 0
  {
  }

  lemma {:induction false} GrownFlat(bs: Blocks, bs': Blocks, l: Label, root: Label, c: Code)
    requires MarkFree(bs) && Flat(bs) == [Mark(root)] + c && |bs'| == |bs| + 1
    requires forall i: nat | i <= |bs| ::
      bs'[i].label_ == (if i < |bs| then bs[i].label_ else l) && bs'[i].insts == (if i < |bs| then bs[i].insts else [])
    ensures MarkFree(bs') && Flat(bs') == [Mark(root)] + (c + [Mark(l)])
  {
    var b := Block(l, [], [], []);
    SameFlat(bs + [b], bs');
    FlatAppend(bs, b);
    assert forall k | 0 <= k < |bs| :: bs[k] in bs;
  }

  lemma {:induction false} GrownParents(bs: Blocks, root: Label, c: Code, l: Label, backward: map<Label, seq<nat>>,
                                        i: nat, j: nat)
    requires IsCfg(bs, root, c) && Noted(bs, backward) && Sources(|bs|, SourcesOf(bs, backward, l)) && j <= |bs|
    ensures var bs' := Grown(bs, backward, l); multiset(bs'[j].parents)[i] == Edges(bs', i, j)
  {
    GrownBlock(bs, backward, l, j, 0);
    hide Grown, SourcesOf;
    if j < |bs| {
      OldEdges(bs, backward, l, i, j);
    } else if i < |bs| {
      NewEdges(bs, backward, l, i);
    } else {
      assert i !in SourcesOf(bs, backward, l);
    }
  }

  lemma {:induction false} GrownChildren(bs: Blocks, root: Label, c: Code, l: Label, backward: map<Label, seq<nat>>,
                                         i: nat, j: nat)
    requires IsCfg(bs, root, c) && Noted(bs, backward) && Sources(|bs|, SourcesOf(bs, backward, l)) && i <= |bs|
    ensures var bs' := Grown(bs, backward, l); multiset(bs'[i].children)[j] == Edges(bs', i, j)
  {
    GrownBlock(bs, backward, l, i, j);
    hide Grown, SourcesOf;
    if j < |bs| {
      OldEdges(bs, backward, l, i, j);
    } else if i < |bs| && j == |bs| {
      NewEdges(bs, backward, l, i);
    }
  }

  // ---------- The pass ----------

  /** Notes that block `cur` branches to `l`. */
  function Note(backward: map<Label, seq<nat>>, l: Label, cur: nat): map<Label, seq<nat>> {
    backward[l := Back(backward, l) + [cur]]
  }

  function NoteAll(backward: map<Label, seq<nat>>, i: Inst, cur: nat): map<Label, seq<nat>> {
    if i.Branch? then Note(Note(backward, i.t, cur), i.f, cur)
    else if i.Jump? then Note(backward, i.t, cur)
    else backward
  }

  lemma {:induction false} NoteCountsOne(backward: map<Label, seq<nat>>, l': Label, cur: nat, l: Label, k: nat)
    ensures multiset(Back(Note(backward, l', cur), l))[k] ==
      multiset(Back(backward, l))[k] + (if l == l' && k == cur then 1 else 0)
    ensures forall s | s in Back(Note(backward, l', cur), l) :: s in Back(backward, l) || s == cur
  {
  }

  lemma {:induction false} NoteCounts(backward: map<Label, seq<nat>>, i: Inst, cur: nat, l: Label, k: nat)
    ensures multiset(Back(NoteAll(backward, i, cur), l))[k] ==
      multiset(Back(backward, l))[k] + (if k == cur then Count(i.Targets(), l) else 0)
    ensures forall s | s in Back(NoteAll(backward, i, cur), l) :: s in Back(backward, l) || s == cur
  {
    hide Note, Back, Count;
    CountTargets(i, l);
    if i.Branches() {
      NoteCountsOne(backward, i.t, cur, l, k);
      if i.Branch? {
        NoteCountsOne(Note(backward, i.t, cur), i.f, cur, l, k);
      }
    }
  }

  lemma {:induction false} InstNoted(bs: Blocks, backward: map<Label, seq<nat>>, i: Inst)
    requires bs != [] && Noted(bs, backward)
    ensures var n := |bs| - 1;
      Noted(bs[n := bs[n].(insts := bs[n].insts + [i])], NoteAll(backward, i, n))
  {
    hide NoteAll, Count, Slots;
    var n := |bs| - 1;
    var backward' := NoteAll(backward, i, n);
    forall l, k: nat
      ensures multiset(Back(backward', l))[k] ==
        multiset(Back(backward, l))[k] + (if k == n then Count(i.Targets(), l) else 0)
      ensures forall s | s in Back(backward', l) :: s < |bs|
    {
      NoteCounts(backward, i, n, l, k);
      assert forall s | s in Back(backward, l) :: s < |bs|;
    }
    forall l, s | l in backward' && s in backward'[l]
      ensures s < |bs|
    {
      assert s in Back(backward', l);
      NoteCounts(backward, i, n, l, 0);
    }
    BranchNoted(bs, backward, i, backward');
  }

  /** BuildCFG: the blocks hold exactly the code, with exactly the edges of its control flow. */
  method BuildCFG(code: InstList, syscallName: string) returns (graph: BlockList)
    ensures fresh(graph) && IsCfg(graph.bs, Named(syscallName), code.insts)
    ensures code.insts == old(code.insts)
  {
    graph := new BlockList(Named(syscallName));
    var cur := 0;
    var backward: map<Label, seq<nat>> := map[];
    var prevBranchOrRet := false;
    var n := 0;
    RootAlone(Named(syscallName));
    while n < |code.insts|
      invariant n <= |code.insts| && code.insts == old(code.insts)
      invariant IsCfg(graph.bs, Named(syscallName), code.insts[..n]) && Noted(graph.bs, backward)
      invariant graph.bs != [] && cur == |graph.bs| - 1
      invariant prevBranchOrRet == !FallsThrough(graph.bs[cur].insts)
    {
      hide IsCfg, Noted;
      var inst := code.insts[n];
      assert code.insts[..n + 1] == code.insts[..n] + [inst];
      if inst.Mark? {
        AddBlock(graph, cur, prevBranchOrRet, inst.lbl, backward, Named(syscallName), code.insts[..n]);
        cur := cur + 1;
        prevBranchOrRet := false;
      } else {
        InstJoins(graph.bs, Named(syscallName), code.insts[..n], inst);
        InstNoted(graph.bs, backward, inst);
        if inst.Branches() {
          var trueTarget := inst.t;
          backward := Note(backward, trueTarget, cur);
          if inst.Branch? {
            var falseTarget := inst.f;
            backward := Note(backward, falseTarget, cur);
          }
          prevBranchOrRet := true;
        } else if inst.Return? {
          prevBranchOrRet := true;
        } else {
          prevBranchOrRet := false;
        }
        graph.AddInst(cur, inst);
      }
      n := n + 1;
    }
    assert code.insts[..n] == code.insts;
  }

  lemma {:induction false} RootAlone(root: Label)
    ensures IsCfg([Block(root, [], [], [])], root, []) && Noted([Block(root, [], [], [])], map[])
  {
    var bs := [Block(root, [], [], [])];
    assert bs[1..] == [];
  }

  /** What BuildCFG does at a label: a new block, its edge from the block before unless that
      one ended, and its edges from the branches noted so far. */
  method AddBlock(graph: BlockList, cur: nat, prevBranchOrRet: bool, l: Label, backward: map<Label, seq<nat>>,
                  ghost root: Label, ghost c: Code)
    requires graph.bs != [] && cur == |graph.bs| - 1 && prevBranchOrRet == !FallsThrough(graph.bs[cur].insts)
    requires IsCfg(graph.bs, root, c) && Noted(graph.bs, backward)
    modifies graph
    ensures IsCfg(graph.bs, root, c + [Mark(l)]) && Noted(graph.bs, backward)
    ensures |graph.bs| == cur + 2 && graph.bs[cur + 1].insts == []
  {
    hide *;
    ghost var grown := graph.bs + [Block(l, [], [], [])];
    ghost var first: seq<nat> := if prevBranchOrRet then [] else [cur];
    ghost var srcs := first + Back(backward, l);
    NewBlock(graph.bs, cur, first, root, c, l, backward);
    graph.NewBasicBlock(l);
    ghost var done: seq<nat> := [];
    NoLinks(grown, cur + 1);
    if !prevBranchOrRet {
      LinkNext(grown, cur + 1, done, cur);
      AddEdge(graph, cur + 1, cur);
      done := done + [cur];
    }
    assert done == first;
    var parents := Back(backward, l);
    var k := 0;
    while k < |parents|
      invariant k <= |parents| && done == first + parents[..k]
      invariant Sources(cur + 1, done) && graph.bs == Linked(grown, cur + 1, done)
    {
      LinkNext(grown, cur + 1, done, parents[k]);
      AddEdge(graph, cur + 1, parents[k]);
      done := done + [parents[k]];
      k := k + 1;
    }
    assert done == srcs;
  }

  lemma {:induction false} NewBlock(bs: Blocks, cur: nat, first: seq<nat>, root: Label, c: Code, l: Label,
                                    backward: map<Label, seq<nat>>)
    requires IsCfg(bs, root, c) && Noted(bs, backward) && |bs| == cur + 1
    requires first == if FallsThrough(bs[cur].insts) then [cur] else []
    ensures var grown := bs + [Block(l, [], [], [])];
      var srcs := first + Back(backward, l);
      && (forall k | 0 <= k < |Back(backward, l)| :: Back(backward, l)[k] < cur + 1)
      && Sources(cur + 1, srcs)
      && IsCfg(Linked(grown, cur + 1, srcs), root, c + [Mark(l)]) && Noted(Linked(grown, cur + 1, srcs), backward)
      && Linked(grown, cur + 1, srcs)[cur + 1].insts == []
  {
    BlockJoins(bs, root, c, l, backward);
    GrownBlock(bs, backward, l, |bs|, 0);
    assert SourcesOf(bs, backward, l) == first + Back(backward, l);
    hide IsCfg, Linked, Back;
    forall k | 0 <= k < |Back(backward, l)|
      ensures Back(backward, l)[k] < cur + 1
    {
      assert Back(backward, l)[k] in first + Back(backward, l);
    }
  }

  lemma {:induction false} NoLinks(bs: Blocks, j: nat)
    requires j < |bs|
    ensures Sources(j, []) && Linked(bs, j, []) == bs
  {
  }

  method AddEdge(graph: BlockList, j: nat, s: nat)
    requires s < j < |graph.bs|
    modifies graph
    ensures graph.bs == Link(old(graph.bs), j, s)
  {
    graph.AddChild(s, j);
    graph.AddParent(j, s);
  }

  lemma {:induction false} LinkNext(bs: Blocks, j: nat, srcs: seq<nat>, s: nat)
    requires s < j < |bs| && Sources(j, srcs)
    ensures Sources(j, srcs + [s]) && Linked(bs, j, srcs + [s]) == Link(Linked(bs, j, srcs), j, s)
  {
    assert (srcs + [s])[..|srcs|] == srcs;
  }
}
