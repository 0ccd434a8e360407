/** The layout of the lifted text: which block refers to which, what is inlined in what, and what
    the text runs on into behind a block. */
module Layout {
  import opened Syntax
  import opened Ir
  import opened Cfg
  import opened Lifter

  predicate Ready(x: Job) {
    WellFormedJob(x) && DistinctLabels(x.bs)
  }

  /** Block `r` has a branch to block `j`. */
  predicate Refers(x: Job, r: nat, j: nat)
    requires r < |x.bs| && j < |x.bs|
  {
    Slots(x.bs[r].insts, x.bs[j].label_) > 0
  }

  // ---------- References ----------

  lemma {:induction false} ReferenceCounts(x: Job, n: nat, k: nat, i: Inst, l: Label)
    requires n <= k < |x.bs| && k in x.lifted && i in x.bs[k].insts && l in i.Targets()
    ensures Refs(x, n, l) > 0
    decreases k - n
  {
    if n == k {
      SlotsHave(x.bs[k].insts, i, l);
    } else {
      ReferenceCounts(x, n + 1, k, i, l);
    }
  }

  lemma {:induction false} SomeReference(x: Job, n: nat, l: Label) returns (k: nat, i: Inst)
    requires n <= |x.bs| && Refs(x, n, l) > 0
    ensures k < |x.bs| && k in x.lifted && i in x.bs[k].insts && l in i.Targets()
    decreases |x.bs| - n
  {
    if n in x.lifted && Slots(x.bs[n].insts, l) > 0 {
      k := n;
      i := SomeSlot(x.bs[n].insts, l);
    } else {
      k, i := SomeReference(x, n + 1, l);
    }
  }

  lemma {:induction false} SomeSlot(c: Code, l: Label) returns (i: Inst)
    requires Slots(c, l) > 0
    ensures i in c && l in i.Targets()
  {
    if Count(c[0].Targets(), l) > 0 {
      i := c[0];
      HasCount(c[0].Targets(), l);
    } else {
      i := SomeSlot(c[1..], l);
    }
  }

  lemma {:induction false} HasCount(ls: seq<Label>, l: Label)
    requires Count(ls, l) > 0
    ensures l in ls
  {
    if ls[0] != l {
      HasCount(ls[1..], l);
    }
  }

  lemma {:induction false} RefsOfOne(x: Job, n: nat, r: nat, l: Label)
    requires n <= r < |x.bs| && r in x.lifted
    ensures Refs(x, n, l) >= Slots(x.bs[r].insts, l)
    decreases r - n
  {
    hide Slots;
    if n < r {
      RefsOfOne(x, n + 1, r, l);
    }
  }

  lemma {:induction false} RefsOfTwo(x: Job, n: nat, r: nat, r': nat, l: Label)
    requires n <= r < r' < |x.bs| && r in x.lifted && r' in x.lifted
    ensures Refs(x, n, l) >= Slots(x.bs[r].insts, l) + Slots(x.bs[r'].insts, l)
    decreases r - n
  {
    hide Slots;
    if n < r {
      RefsOfTwo(x, n + 1, r, r', l);
    } else {
      RefsOfOne(x, n + 1, r', l);
    }
  }

  /** An inlined block is referred to by one block only. */
  lemma {:induction false} OneReference(x: Job, r: nat, r': nat, j: nat)
    requires r in x.lifted && r' in x.lifted && r < |x.bs| && r' < |x.bs| && j < |x.bs|
    requires Inlined(x, x.bs[j].label_) && Refers(x, r, j) && Refers(x, r', j)
    ensures r == r'
  {
    hide Slots, Refs;
    if r < r' {
      RefsOfTwo(x, 0, r, r', x.bs[j].label_);
    } else if r' < r {
      RefsOfTwo(x, 0, r', r, x.bs[j].label_);
    }
  }

  lemma {:induction false} BlockCodeIs(x: Job, k: nat)
    requires WellFormedJob(x) && k in x.lifted
    ensures BlockCode(x, k) == LiftInsts(x.defs, x.bs[k].insts)
  {
  }

  predicate NoJumpsIn(x: Job) {
    forall k, i | k in x.lifted && k < |x.bs| && i in x.bs[k].insts :: !i.Jump?
  }

  // ---------- Nesting ----------

  /** The first lifted block from `n` on with a branch to the label. */
  function Referrer(x: Job, n: nat, l: Label): (r: nat)
    requires n <= |x.bs| && Refs(x, n, l) > 0
    ensures n <= r < |x.bs| && r in x.lifted && Slots(x.bs[r].insts, l) > 0
    decreases |x.bs| - n
  {
    if n in x.lifted && Slots(x.bs[n].insts, l) > 0 then n else Referrer(x, n + 1, l)
  }

  lemma {:induction false} ReferrerIsEarlier(x: Job, j: nat, r: nat)
    requires Ready(x) && j in x.lifted && j < |x.bs| && r in x.lifted && r < |x.bs| && Refers(x, r, j)
    ensures r < j && Find(x.bs, r + 1, x.bs[j].label_) == Some(j)
  {
    var l := x.bs[j].label_;
    var i := SomeSlot(x.bs[r].insts, l);
    assert Find(x.bs, r + 1, l).Some?;
    assert x.bs[Find(x.bs, r + 1, l).value].label_ == l;
  }

  /** The block at the top of the text that block `j` is nested in, itself if it is not inlined. */
  function TopOf(x: Job, j: nat): (t: nat)
    requires Ready(x) && j in x.lifted && j < |x.bs|
    ensures t <= j && t in x.lifted
  {
    var l := x.bs[j].label_;
    if Inlined(x, l) then
      ReferrerIsEarlier(x, j, Referrer(x, 0, l));
      TopOf(x, Referrer(x, 0, l))
    else j
  }

  /** What is inlined in block `k` has the same top. */
  lemma {:induction false} InlinedTop(x: Job, k: nat, j: nat)
    requires Ready(x) && k in x.lifted && k < |x.bs| && j in x.lifted && j < |x.bs|
    requires Refers(x, k, j) && Inlined(x, x.bs[j].label_)
    ensures TopOf(x, j) == TopOf(x, k)
  {
    hide Refs, Slots, WellFormedJob, Ready;
    OneReference(x, k, Referrer(x, 0, x.bs[j].label_), j);
  }

  /** Block `j` stands on its own in the text. */
  predicate IsTop(x: Job, j: nat)
    requires j < |x.bs|
  {
    j in x.lifted && !Inlined(x, x.bs[j].label_)
  }

  /** The first block from `n` on that stands on its own, or the end of the text. */
  function NextTop(x: Job, n: nat): (t: nat)
    requires n <= |x.bs|
    ensures n <= t <= |x.bs| && (t < |x.bs| ==> IsTop(x, t))
    ensures forall j: nat | n <= j < t :: !IsTop(x, j)
    decreases |x.bs| - n
  {
    if n == |x.bs| || IsTop(x, n) then n else NextTop(x, n + 1)
  }

  /** What the text runs on into behind block `k`: everything that `k` is nested in is left
      behind, and the next block at the top follows. */
  function TextNext(x: Job, k: nat): (t: nat)
    requires Ready(x) && k in x.lifted && k < |x.bs|
    ensures TopOf(x, k) < t <= |x.bs| && (t < |x.bs| ==> IsTop(x, t))
  {
    NextTop(x, TopOf(x, k) + 1)
  }

  /** The text runs on into the next block of the program exactly when that block stands on its
      own and no other one does from the top of block `k` on. */
  lemma {:induction false} RunsOnIff(x: Job, k: nat)
    requires Ready(x) && k in x.lifted && k < |x.bs|
    ensures TextNext(x, k) == k + 1 <==>
      && (k + 1 < |x.bs| ==> IsTop(x, k + 1))
      && forall j: nat | TopOf(x, k) < j <= k :: !IsTop(x, j)
  {
    hide Ready, TopOf, Inlined;
    if TextNext(x, k) < k + 1 {
      assert IsTop(x, TextNext(x, k));
    }
  }
}
