/** What the shape of linear code says about the blocks that BuildCFG makes of it. */
module BlockFacts {
  import opened Ir
  import opened DeadCode
  import opened Cfg
  import opened Colour

  // ---------- Splitting linear facts ----------

  lemma {:induction false} ForwardSuffix(a: Code, b: Code)
    requires Forward(a + b, {})
    ensures Forward(b, {})
  {
    if a == [] {
      assert a + b == b;
    } else {
      assert (a + b)[1..] == a[1..] + b;
      ForwardSuffix(a[1..], b);
    }
  }

  lemma {:induction false} TargetsBehind(a: Code, b: Code, i: Inst, l: Label)
    requires Forward(a + b, {}) && NoMarks(a) && i in a && l in i.Targets()
    ensures Mark(l) in b
  {
    assert (a + b)[0] == a[0] && (a + b)[1..] == a[1..] + b;
    if a[0] == i {
      assert Mark(l) in a[1..] + b;
      assert Mark(l) !in a;
    } else {
      TargetsBehind(a[1..], b, i, l);
    }
  }

  lemma {:induction false} FlatMarks(bs: Blocks, l: Label)
    requires MarkFree(bs) && Mark(l) in Flat(bs)
    ensures exists j | 0 <= j < |bs| :: bs[j].label_ == l
  {
    if bs[0].label_ != l {
      assert bs[0] in bs;
      FlatMarks(bs[1..], l);
      var j :| 0 <= j < |bs[1..]| && bs[1..][j].label_ == l;
      assert bs[j + 1].label_ == l;
    }
  }

  lemma {:induction false} FlatSplit(bs: Blocks, k: nat)
    requires k <= |bs|
    ensures Flat(bs) == Flat(bs[..k]) + Flat(bs[k..])
  {
    if k == 0 {
      assert bs[0..] == bs;
    } else {
      assert bs[..k][1..] == bs[1..][..k - 1] && bs[1..][k - 1..] == bs[k..];
      FlatSplit(bs[1..], k - 1);
    }
  }

  // ---------- Facts about every block ----------

  lemma {:induction false} LabelsDistinct(bs: Blocks)
    requires UniqueMarks(Flat(bs))
    ensures DistinctLabels(bs)
  {
    forall i, j | 0 <= i < j < |bs|
      ensures bs[i].label_ != bs[j].label_
    {
      LabelsDiffer(bs, i, j);
    }
  }

  lemma {:induction false} LabelsDiffer(bs: Blocks, i: nat, j: nat)
    requires UniqueMarks(Flat(bs)) && i < j < |bs|
    ensures bs[i].label_ != bs[j].label_
    decreases i
  {
    hide UniqueMarks;
    var a, rest := [Mark(bs[0].label_)] + bs[0].insts, Flat(bs[1..]);
    assert Flat(bs) == a + rest;
    UniqueConcat(a, rest);
    if i == 0 {
      assert Mark(bs[0].label_) in a;
      MarkInFlat(bs[1..], j - 1);
      assert bs[1..][j - 1] == bs[j];
    } else {
      LabelsDiffer(bs[1..], i - 1, j - 1);
    }
  }

  lemma {:induction false} MarkInFlat(bs: Blocks, j: nat)
    requires j < |bs|
    ensures Mark(bs[j].label_) in Flat(bs)
  {
    if j > 0 {
      MarkInFlat(bs[1..], j - 1);
    }
  }

  /** Every branch target of a block is the label of a later block. */
  lemma {:induction false} TargetIsLater(bs: Blocks, k: nat, i: Inst, l: Label)
    requires Forward(Flat(bs), {}) && MarkFree(bs) && k < |bs| && i in bs[k].insts && l in i.Targets()
    ensures Find(bs, k + 1, l).Some?
  {
    hide Flat, Forward, Find;
    FlatSplit(bs, k);
    ForwardSuffix(Flat(bs[..k]), Flat(bs[k..]));
    FlatFrom(bs, k);
    var rest := Flat(bs[k + 1..]);
    assert bs[k] in bs;
    assert Flat(bs[k..]) == [Mark(bs[k].label_)] + (bs[k].insts + rest);
    ForwardSuffix([Mark(bs[k].label_)], bs[k].insts + rest);
    TargetsBehind(bs[k].insts, rest, i, l);
    FlatMarks(bs[k + 1..], l);
    var j :| 0 <= j < |bs[k + 1..]| && bs[k + 1..][j].label_ == l;
    assert bs[k + 1 + j].label_ == l;
  }

  lemma {:induction false} EndsWithin(a: Code, c: Code, b: Code)
    requires EndsEndBlocks(a + (c + b)) && NoMarks(c)
    ensures forall n | 0 <= n < |c| - 1 :: !c[n].Ends()
  {
    forall n | 0 <= n < |c| - 1
      ensures !c[n].Ends()
    {
      var whole := a + (c + b);
      assert whole[|a| + n] == c[n] && whole[|a| + n + 1] == c[n + 1];
      assert c[n + 1] in c;
    }
  }

  /** Branches and returns are the last instructions of their blocks. */
  lemma {:induction false} EndsAreLast(bs: Blocks, k: nat)
    requires EndsEndBlocks(Flat(bs)) && MarkFree(bs) && k < |bs|
    ensures forall n | 0 <= n < |bs[k].insts| - 1 :: !bs[k].insts[n].Ends()
  {
    hide EndsEndBlocks;
    FlatSplit(bs, k);
    FlatFrom(bs, k);
    assert bs[k] in bs;
    var before := Flat(bs[..k]) + [Mark(bs[k].label_)];
    var c, rest := bs[k].insts, Flat(bs[k + 1..]);
    assert Flat(bs) == before + (c + rest);
    EndsWithin(before, c, rest);
  }

  /** Colour runs along branches, and the tracer enters what they lead to at the top. */
  lemma {:induction false} ColourRunsOn(bs: Blocks, root: Label, c: Code, k: nat, i: Inst, l: Label)
    requires IsCfg(bs, root, c) && Ordered(bs) && k < |bs| && Coloured(bs, k)
    requires i in bs[k].insts && l in i.Targets() && Find(bs, k + 1, l).Some?
    ensures var j := Find(bs, k + 1, l).value; Coloured(bs, j) && Start(bs, j) == 0
  {
    var j := Find(bs, k + 1, l).value;
    SlotsHave(bs[k].insts, i, l);
    assert multiset(bs[j].parents)[k] > 0;
    assert k in bs[j].parents;
  }

  // ---------- Reachability ----------

  /** After dead-code elimination every block but the first has a parent. */
  lemma {:induction false} BlockHasParent(bs: Blocks, root: Label, c: Code, k: nat)
    requires IsCfg(bs, root, c) && forall n | 0 <= n < |c| :: Justified(c, n)
    requires 0 < k < |bs|
    ensures bs[k].parents != []
  {
    hide Justified;
    FlatSplit(bs, k);
    FlatFrom(bs, k);
    var before := Flat(bs[..k]);
    var l := bs[k].label_;
    var n := |before| - 1;
    assert bs[..k] != [] && before != [];
    assert Flat(bs) == before + Flat(bs[k..]);
    assert c == Flat(bs)[1..];
    assert Flat(bs[k..])[0] == Mark(l) && c[n] == Mark(l);
    var p := ParentOf(bs, c, k, n);
    assert multiset(bs[k].parents)[p] > 0;
  }

  lemma {:induction false} ParentOf(bs: Blocks, c: Code, k: nat, n: nat) returns (p: nat)
    requires bs != [] && 0 < k < |bs| && MarkFree(bs) && Flat(bs)[1..] == c
    requires n == |Flat(bs[..k])| - 1 && n < |c| && c[n] == Mark(bs[k].label_) && Justified(c, n)
    ensures Edges(bs, p, k) > 0
  {
    hide Flat, Slots;
    var before := Flat(bs[..k]);
    FlatSplit(bs, k);
    assert forall j | 0 <= j < n :: c[j] == before[j + 1];
    if exists j | 0 <= j < n :: bs[k].label_ in c[j].Targets() {
      var j :| 0 <= j < n && bs[k].label_ in c[j].Targets();
      assert before[j + 1] in before;
      p := BranchIn(bs[..k], before[j + 1], bs[k].label_);
      SlotsHave(bs[p].insts, before[j + 1], bs[k].label_);
    } else {
      p := k - 1;
      LastOf(bs, k);
      assert n == 0 ==> before[0].Mark? by { FlatFrom(bs[..k], 0); assert bs[..k][0..] == bs[..k]; }
      assert !before[n].Ends();
    }
  }

  lemma {:induction false} BranchIn(bs: Blocks, i: Inst, l: Label) returns (p: nat)
    requires i in Flat(bs) && l in i.Targets()
    ensures p < |bs| && i in bs[p].insts
  {
    if i in bs[0].insts {
      p := 0;
    } else {
      var q := BranchIn(bs[1..], i, l);
      p := q + 1;
    }
  }

  /** The last instruction before block `k` belongs to the block in front of it. */
  lemma {:induction false} LastOf(bs: Blocks, k: nat)
    requires 0 < k <= |bs|
    ensures var before := Flat(bs[..k]);
      before != [] && (FallsThrough(bs[k - 1].insts) <==> !before[|before| - 1].Ends())
  {
    FlatSplit(bs[..k], k - 1);
    assert bs[..k][k - 1..] == [bs[k - 1]];
    assert Flat([bs[k - 1]]) == [Mark(bs[k - 1].label_)] + bs[k - 1].insts + Flat([bs[k - 1]][1..]);
  }

  /** After dead-code elimination every block is reached from the first along edges. */
  lemma {:induction false} AllReachable(bs: Blocks, root: Label, c: Code, k: nat)
    requires IsCfg(bs, root, c) && (forall n | 0 <= n < |c| :: Justified(c, n))
    requires Ordered(bs) && k < |bs|
    ensures Path(bs, 0, k)
    decreases k
  {
    if k > 0 {
      BlockHasParent(bs, root, c, k);
      var p := bs[k].parents[0];
      assert p in bs[k].parents;
      AllReachable(bs, root, c, p);
    }
  }
}
