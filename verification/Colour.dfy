/** Which blocks need the tracer, and which of them only the tracer runs. */
module Colour {
  import opened Ir
  import opened Cfg

  /** Parents come before their blocks, as EdgesGoForward shows for what BuildCFG builds. */
  predicate Ordered(bs: Blocks) {
    forall j, p | 0 <= j < |bs| && p in bs[j].parents :: p < j
  }

  predicate HasEffect(c: Code) {
    exists i | i in c :: i.Effect()
  }

  /** The position of the first call or store. */
  function FirstEffect(c: Code): (k: nat)
    requires HasEffect(c)
    ensures k < |c| && c[k].Effect() && forall j | 0 <= j < k :: !c[j].Effect()
  {
    if c[0].Effect() then 0 else FirstEffect(c[1..]) + 1
  }

  predicate Coloured(bs: Blocks, k: nat)
    requires Ordered(bs) && k < |bs|
    decreases k
  {
    HasEffect(bs[k].insts) || exists p | p in bs[k].parents :: Coloured(bs, p)
  }

  /** Where the tracer takes over in a coloured block: at its first instruction when control
      comes from a coloured block, and otherwise at its first call or store. */
  function Start(bs: Blocks, k: nat): nat
    requires Ordered(bs) && k < |bs| && Coloured(bs, k)
  {
    if exists p | p in bs[k].parents :: Coloured(bs, p) then 0 else FirstEffect(bs[k].insts)
  }

  /** The rule of GetPtraceOnlyBB: all parents are in, or there is at most one parent. */
  predicate Rule(bs: Blocks, only: set<nat>, k: nat)
    requires k < |bs|
  {
    |bs[k].parents| <= 1 || forall p | p in bs[k].parents :: p in only
  }

  predicate Only(bs: Blocks, k: nat)
    requires Ordered(bs) && k < |bs|
    decreases k
  {
    Coloured(bs, k) && (|bs[k].parents| <= 1 || forall p | p in bs[k].parents :: Only(bs, p))
  }

  ghost function ColouredSet(bs: Blocks): set<nat>
    requires Ordered(bs)
  {
    set k: nat | k < |bs| && Coloured(bs, k)
  }

  ghost function OnlySet(bs: Blocks): set<nat>
    requires Ordered(bs)
  {
    set k: nat | k < |bs| && Only(bs, k)
  }

  /** The blocks that are lifted: those that the tracer enters at their first instruction. */
  ghost function LiftedSet(bs: Blocks): set<nat>
    requires Ordered(bs)
  {
    set k: nat | k < |bs| && Coloured(bs, k) && Start(bs, k) == 0
  }

  // ---------- Colouring is reachability ----------

  /** A path of edges, as parents followed backwards. */
  ghost predicate Path(bs: Blocks, i: nat, k: nat)
    requires Ordered(bs) && k < |bs|
    decreases k
  {
    i == k || exists p | p in bs[k].parents :: Path(bs, i, p)
  }

  /** Colouring is exact: a block is coloured exactly when a block with a call or a store
      reaches it. */
  lemma {:induction false} ColouredIffReached(bs: Blocks, k: nat)
    requires Ordered(bs) && k < |bs|
    ensures Coloured(bs, k) <==> exists i: nat | i < |bs| && HasEffect(bs[i].insts) :: Path(bs, i, k)
    decreases k
  {
    forall p | p in bs[k].parents
      ensures Coloured(bs, p) <==> exists i: nat | i < |bs| && HasEffect(bs[i].insts) :: Path(bs, i, p)
    {
      ColouredIffReached(bs, p);
    }
    if HasEffect(bs[k].insts) {
      assert Path(bs, k, k);
    }
  }

  // ---------- Least fixpoint ----------

  /** Every coloured block that meets the rule is in the set. */
  ghost predicate ClosedUnderRule(bs: Blocks, s: set<nat>)
    requires Ordered(bs)
  {
    forall k | 0 <= k < |bs| && Coloured(bs, k) && Rule(bs, s, k) :: k in s
  }

  /** OnlySet is closed under the rule and is contained in every set that is. */
  lemma {:induction false} OnlyIsLeast(bs: Blocks, s: set<nat>)
    requires Ordered(bs) && ClosedUnderRule(bs, s)
    ensures OnlySet(bs) <= s
    ensures ClosedUnderRule(bs, OnlySet(bs))
  {
    forall k: nat | k < |bs| && Only(bs, k)
      ensures k in s
    {
      OnlyIn(bs, s, k);
    }
  }

  lemma {:induction false} OnlyIn(bs: Blocks, s: set<nat>, k: nat)
    requires Ordered(bs) && ClosedUnderRule(bs, s) && k < |bs| && Only(bs, k)
    ensures k in s
    decreases k
  {
    if |bs[k].parents| > 1 {
      forall p | p in bs[k].parents
        ensures p in s
      {
        OnlyIn(bs, s, p);
      }
    }
  }

  lemma {:induction false} OnlyIsColoured(bs: Blocks, k: nat)
    requires Ordered(bs) && k < |bs| && Only(bs, k)
    ensures Coloured(bs, k)
  {
  }
}
