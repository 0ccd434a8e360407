/** The shape of the filter's code of a check, before it becomes lines. */
module EmitShape {
  import opened Ir
  import opened Cfg
  import opened Colour
  import opened Split
  import opened BpfGen
  import opened Generated
  import opened Preserved
  import opened Check

  // ---------- The filter's code ----------

  lemma {:induction false} EmittedMark(bs: Blocks, k: nat, n: nat, j: nat)
    requires Ordered(bs) && k <= j < |bs| && Emitted(bs, j)
    ensures Mark(bs[j].label_) in Emit(bs, k, n).code
    decreases j - k
  {
    hide Emit, EmitBlock, Emitted;
    EmitSplit(bs, k, n);
    EmittedBlock(bs, k, n);
    if k < j {
      EmittedMark(bs, k + 1, n + |EmitBlock(bs, k, n).table|, j);
    }
  }

  /** A tracer block that starts in its middle. */
  predicate LeftOut(bs: Blocks, k: nat)
    requires Ordered(bs) && k < |bs|
  {
    !Emitted(bs, k) && Coloured(bs, k) && Start(bs, k) != 0
  }

  /** The labels of the blocks that the filter leaves out although something goes there. */
  ghost function LostLabels(bs: Blocks): set<Label>
    requires Ordered(bs)
  {
    set k: nat | 1 <= k < |bs| && LeftOut(bs, k) :: bs[k].label_
  }

  lemma {:induction false} NothingIsLost(bs: Blocks)
    requires Ordered(bs) && StartsAtTop(bs)
    ensures LostLabels(bs) == {}
  {
    hide Emitted, Coloured, Start;
  }

  /** A branch target of the filter is a block of the filter or a hand-off, except for a tracer
      block that starts in its middle; where there is none, no target is left out. */
  lemma {:induction false} TargetEmitted(ck: Check, at: Base, bs: Blocks, k: nat, i: Inst, l: Label)
    requires GoodBlocks(ck, at, bs) && k < |bs| && !Only(bs, k)
    requires i in bs[k].insts && l in i.Targets()
    ensures Find(bs, k + 1, l).Some?
    ensures var j := Find(bs, k + 1, l).value; Emitted(bs, j) <==>
      (Coloured(bs, j) && Only(bs, j) ==> Start(bs, j) == 0)
    ensures StartsAtTop(bs) ==> Emitted(bs, Find(bs, k + 1, l).value)
  {
    assert GoodBlock(ck, at, bs, k) && GoodInst(ck, at, bs, k, i);
    hide GoodBlock, GoodInst, Only, Coloured, Start, Slots;
    var j := Find(bs, k + 1, l).value;
    SlotsHave(bs[k].insts, i, l);
    assert multiset(bs[k].children)[j] > 0;
    assert j in bs[k].children;
    if Only(bs, j) {
      OnlyIsColoured(bs, j);
      assert Targeted(bs, j);
    }
  }

  lemma {:induction false} StraightForward(c: Code, ext: set<Label>)
    requires forall i, l | i in c && l in i.Targets() :: l in ext
    ensures Forward(c, ext)
  {
    if c != [] {
      assert c[0] in c;
      StraightForward(c[1..], ext);
    }
  }

  lemma {:induction false} EmitForward(ck: Check, at: Base, bs: Blocks, k: nat, n: nat)
    requires GoodBlocks(ck, at, bs) && Ordered(bs) && k <= |bs|
    ensures Forward(Emit(bs, k, n).code, LostLabels(bs))
    decreases |bs| - k
  {
    hide *;
    var lost := LostLabels(bs);
    if k < |bs| {
      var x := EmitBlock(bs, k, n);
      var y := Emit(bs, k + 1, n + |x.table|);
      EmitSplit(bs, k, n);
      EmitForward(ck, at, bs, k + 1, n + |x.table|);
      var mid := set i, l | i in x.code && l in i.Targets() :: l;
      StraightForward(x.code, mid);
      forall l | l in mid
        ensures Mark(l) in y.code || l in lost
      {
        var i :| i in x.code && l in i.Targets();
        BranchOfFilter(bs, k, n, i, l);
        TargetEmitted(ck, at, bs, k, i, l);
        var j := Find(bs, k + 1, l).value;
        if Emitted(bs, j) {
          EmittedMark(bs, k + 1, n + |x.table|, j);
        } else {
          IsLeftOut(bs, j);
          LostIsLost(bs, j);
        }
      }
      ForwardConcat(x.code, y.code, mid, lost);
    } else {
      NothingForward(bs, n, lost);
    }
  }

  lemma {:induction false} IsLeftOut(bs: Blocks, j: nat)
    requires Ordered(bs) && j < |bs| && !Emitted(bs, j) && Coloured(bs, j) && Start(bs, j) != 0
    ensures LeftOut(bs, j)
  {
    hide Emitted, Coloured, Start;
  }

  lemma {:induction false} LostIsLost(bs: Blocks, j: nat)
    requires Ordered(bs) && 1 <= j < |bs| && LeftOut(bs, j)
    ensures bs[j].label_ in LostLabels(bs)
  {
    hide LeftOut;
  }

  lemma {:induction false} NothingForward(bs: Blocks, n: nat, ext: set<Label>)
    requires Ordered(bs)
    ensures Forward(Emit(bs, |bs|, n).code, ext)
  {
  }

  lemma {:induction false} BranchOfFilter(bs: Blocks, k: nat, n: nat, i: Inst, l: Label)
    requires Ordered(bs) && k < |bs| && i in EmitBlock(bs, k, n).code && l in i.Targets()
    ensures !Only(bs, k) && i in bs[k].insts
  {
    hide Only, Start, Targeted, Ordered;
  }

  lemma {:induction false} EmitUnique(bs: Blocks, k: nat, n: nat)
    requires Ordered(bs) && MarkFree(bs) && DistinctLabels(bs) && k <= |bs|
    ensures UniqueMarks(Emit(bs, k, n).code)
    decreases |bs| - k
  {
    hide Emit, EmitBlock, Ordered, MarkFree, UniqueMarks;
    if k < |bs| {
      var x := EmitBlock(bs, k, n);
      var y := Emit(bs, k + 1, n + |x.table|);
      EmitSplit(bs, k, n);
      EmittedBlock(bs, k, n);
      EmitUnique(bs, k + 1, n + |x.table|);
      BlockUnique(bs, k, n);
      UniqueConcat(x.code, y.code);
      forall l | Mark(l) in x.code
        ensures Mark(l) !in y.code
      {
        if Mark(l) in y.code {
          EmitMarks(bs, k + 1, n + |x.table|, l);
        }
      }
    } else {
      NothingMarked(bs, n);
    }
  }

  lemma {:induction false} NothingMarked(bs: Blocks, n: nat)
    requires Ordered(bs)
    ensures UniqueMarks(Emit(bs, |bs|, n).code)
  {
  }

  lemma {:induction false} MarkFreeIsUnique(c: Code)
    requires NoMarks(c)
    ensures UniqueMarks(c)
  {
    if c != [] {
      assert c[0] in c;
      MarkFreeIsUnique(c[1..]);
    }
  }

  lemma {:induction false} OneMark(l: Label, c: Code)
    requires NoMarks(c)
    ensures UniqueMarks([Mark(l)] + c)
  {
    MarkFreeIsUnique(c);
    assert ([Mark(l)] + c)[1..] == c;
  }

  lemma {:induction false} BlockUnique(bs: Blocks, k: nat, n: nat)
    requires Ordered(bs) && MarkFree(bs) && k < |bs|
    ensures UniqueMarks(EmitBlock(bs, k, n).code)
  {
    hide UniqueMarks, Only, Start, Targeted, Ordered;
    assert bs[k] in bs;
    var l := bs[k].label_;
    OneMark(l, bs[k].insts);
    OneMark(l, [Return(ToPtrace(n))]);
    MarkFreeIsUnique([]);
    assert [Mark(l)] + [Return(ToPtrace(n))] == [Mark(l), Return(ToPtrace(n))];
  }

  /** The filter's code of a check: each label once, and every branch target ahead, or lost. */
  lemma {:induction false} FilterIrShape(ck: Check, at: Base, bs: Blocks, n: nat)
    requires GoodBlocks(ck, at, bs) && Ordered(bs) && bs != []
    ensures UniqueMarks(FilterIr(bs, n)) && Forward(FilterIr(bs, n), LostLabels(bs))
  {
    GoodIsOrdered(ck, at, bs);
    var lost := LostLabels(bs);
    hide GoodBlocks, Only, Emit, LostLabels;
    if Only(bs, 0) {
      assert FilterIr(bs, n) == [Return(ToPtrace(n))];
      MarkFreeIsUnique(FilterIr(bs, n));
      StraightForward(FilterIr(bs, n), lost);
    } else {
      EmitForward(ck, at, bs, 0, n);
      EmitUnique(bs, 0, n);
      EmitCopied(bs, 0, n);
    }
  }

  /** Behind the first label, the filter's code marks labels of later blocks that it has. */
  lemma {:induction false} FilterMarks(bs: Blocks, n: nat, l: Label)
    requires Ordered(bs) && bs != [] && MarkFree(bs) && Mark(l) in FilterIr(bs, n)
    ensures exists j | 1 <= j < |bs| :: bs[j].label_ == l && Emitted(bs, j)
  {
    hide Emit, Only, MarkFree, Ordered, Emitted;
    if !Only(bs, 0) {
      EmitCopied(bs, 0, n);
      var rest := bs[0].insts + Emit(bs, 1, n).code;
      assert ([Mark(bs[0].label_)] + rest)[1..] == rest;
      assert Mark(l) !in bs[0].insts by { FirstIsMarkFree(bs); }
      assert Mark(l) in Emit(bs, 1, n).code;
      EmitMarks(bs, 1, n, l);
    }
  }

  lemma {:induction false} FirstIsMarkFree(bs: Blocks)
    requires bs != [] && MarkFree(bs)
    ensures NoMarks(bs[0].insts)
  {
    assert bs[0] in bs;
  }

  /** A label that is lost is not in the filter's code. */
  lemma {:induction false} LostIsNotMarked(ck: Check, at: Base, bs: Blocks, n: nat, l: Label)
    requires GoodBlocks(ck, at, bs) && Ordered(bs) && bs != [] && l in LostLabels(bs)
    ensures Mark(l) !in FilterIr(bs, n)
    ensures exists j | 1 <= j < |bs| :: bs[j].label_ == l
  {
    hide FilterIr, Emitted;
    GoodIsOrdered(ck, at, bs);
    if Mark(l) in FilterIr(bs, n) {
      FilterMarks(bs, n, l);
    }
  }

  // ---------- The order of what is computed ----------

  lemma {:induction false} FilterIrOrder(ck: Check, at: Base, bs: Blocks, n: nat)
    requires GoodBlocks(ck, at, bs) && Ordered(bs) && bs != []
    ensures Disciplined(FilterIr(bs, n), []) && Ascending(FilterIr(bs, n), at.ids)
  {
    GoodIsOrdered(ck, at, bs);
    assert Ascending(Flat(bs), at.ids);
    hide GoodBlocks, Only, Emit, Disciplined, Ascending;
    BpfIrOrder(bs, n, at.ids);
    BpfIrDiscipline(bs, n);
    var c := BpfIr(bs, n).code;
    assert [c[0]] + c[1..] == c;
    OrderSuffix([c[0]], c[1..], at.ids);
  }
}
