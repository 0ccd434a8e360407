/** ColorCode and GetPtraceOnlyBB: the maps from blocks to the place where the tracer starts. */
module Colouring {
  import opened Syntax
  import opened Ir
  import opened Cfg
  import opened Colour

  /** Blocks, by position, and the position of the instruction where the tracer starts. */
  type PtraceBlocks = map<nat, nat>

  /** The first parent in the map ends the search. */
  method AnyParentIn(parents: seq<nat>, blocks: PtraceBlocks) returns (found: bool)
    ensures found <==> exists p | p in parents :: p in blocks
  {
    var k := 0;
    while k < |parents|
      invariant k <= |parents|
      invariant forall p | p in parents[..k] :: p !in blocks
    {
      if parents[k] in blocks {
        return true;
      }
      k := k + 1;
    }
    assert parents[..k] == parents;
    return false;
  }

  lemma {:induction false} FirstEffectIs(c: Code, k: nat)
    requires k < |c| && c[k].Effect() && forall j | 0 <= j < k :: !c[j].Effect()
    ensures HasEffect(c) && FirstEffect(c) == k
  {
    assert c[k] in c;
  }

  /** The first call or store of a block. */
  method FindEffect(insts: Code) returns (r: Option<nat>)
    ensures r.Some? <==> HasEffect(insts)
    ensures r.Some? ==> HasEffect(insts) && r.value == FirstEffect(insts)
  {
    var k := 0;
    while k < |insts|
      invariant k <= |insts|
      invariant forall j | 0 <= j < k :: !insts[j].Effect()
    {
      if insts[k].Effect() {
        FirstEffectIs(insts, k);
        return Some(k);
      }
      k := k + 1;
    }
    return None;
  }

  /** The map is right for the blocks before `n`. */
  ghost predicate RightUpTo(bs: Blocks, blocks: PtraceBlocks, n: nat)
    requires Ordered(bs) && n <= |bs|
  {
    && (forall k: nat | k < n :: k in blocks <==> Coloured(bs, k))
    && (forall k | k in blocks :: k < n && Coloured(bs, k) && blocks[k] == Start(bs, k))
  }

  /** One pass over the blocks in program order colours exactly the blocks that need the
      tracer, and finds where it starts in each; then the blocks that only the tracer runs. */
  method ColorCode(bs: Blocks) returns (ptrace: PtraceBlocks, only: PtraceBlocks)
    requires Ordered(bs)
    ensures ptrace.Keys == ColouredSet(bs) && forall k | k in ptrace :: ptrace[k] == Start(bs, k)
    ensures only.Keys == OnlySet(bs) && forall k | k in only :: only[k] == Start(bs, k)
  {
    ptrace := map[];
    var n := 0;
    while n < |bs|
      invariant n <= |bs| && RightUpTo(bs, ptrace, n)
    {
      hide *;
      var parentIn := AnyParentIn(bs[n].parents, ptrace);
      var effect := FindEffect(bs[n].insts);
      ColourNext(bs, ptrace, n);
      if parentIn {
        ptrace := ptrace[n := 0];
      } else if effect.Some? {
        ptrace := ptrace[n := effect.value];
      }
      n := n + 1;
    }
    only := GetPtraceOnlyBB(bs, ptrace);
  }

  lemma {:induction false} ColourNext(bs: Blocks, blocks: PtraceBlocks, n: nat)
    requires Ordered(bs) && n < |bs| && RightUpTo(bs, blocks, n)
    ensures var found := exists p | p in bs[n].parents :: p in blocks;
      && (found ==> RightUpTo(bs, blocks[n := 0], n + 1))
      && (!found && HasEffect(bs[n].insts) ==> RightUpTo(bs, blocks[n := FirstEffect(bs[n].insts)], n + 1))
      && (!found && !HasEffect(bs[n].insts) ==> RightUpTo(bs, blocks, n + 1))
  {
    hide HasEffect, FirstEffect;
    assert forall p | p in bs[n].parents :: p in blocks <==> Coloured(bs, p);
  }

  /** The blocks of the map in the order of its buckets, which can be any. */
  method KeysInSomeOrder(blocks: PtraceBlocks) returns (candidates: seq<nat>)
    ensures forall k :: k in candidates <==> k in blocks
  {
    candidates := [];
    var left := blocks.Keys;
    while left != {}
      invariant left <= blocks.Keys
      invariant forall k :: k in candidates <==> k in blocks && k !in left
      decreases |left|
    {
      var k :| k in left;
      candidates := candidates + [k];
      left := left - {k};
    }
  }

  /** The least fixpoint of the rule, whatever the order of the candidates. */
  method GetPtraceOnlyBB(bs: Blocks, ptrace: PtraceBlocks) returns (only: PtraceBlocks)
    requires Ordered(bs)
    requires ptrace.Keys == ColouredSet(bs)
    ensures only.Keys == OnlySet(bs) && forall k | k in only :: only[k] == ptrace[k]
  {
    hide *;
    var candidates := KeysInSomeOrder(ptrace);
    ColouredKeys(bs, ptrace);
    only := map[];
    NothingWithin(bs, ptrace);
    var changed := true;
    while changed
      invariant Within(bs, ptrace, only)
      invariant !changed ==> ClosedUnderRule(bs, only.Keys)
      decreases ptrace.Keys - only.Keys, changed
    {
      changed := false;
      ghost var before := only;
      var n := 0;
      while n < |candidates|
        invariant n <= |candidates| && Within(bs, ptrace, only) && before.Keys <= only.Keys
        invariant !changed ==> only == before && forall k | k in candidates[..n] && k < |bs| ::
          k in only || !Rule(bs, only.Keys, k)
        invariant changed ==> before.Keys < only.Keys
      {
        var bb := candidates[n];
        assert bb in candidates;
        assert candidates[..n + 1] == candidates[..n] + [bb];
        n := n + 1;
        if bb in only {
          continue;
        }
        var dominated := AllParentsIn(bs[bb].parents, only);
        if !dominated {
          if |bs[bb].parents| <= 1 {
            dominated := true;
          }
        }
        RuleIs(bs, only, bb);
        if dominated {
          JoinsOnly(bs, ptrace, only, bb);
          only := only[bb := ptrace[bb]];
          changed := true;
        }
      }
      assert candidates[..n] == candidates;
      KeysWithin(bs, ptrace, only);
      if !changed {
        PassCloses(bs, ptrace, candidates, only);
      }
    }
    OnlyIsReached(bs, ptrace, only);
  }

  lemma {:induction false} ColouredKeys(bs: Blocks, ptrace: PtraceBlocks)
    requires Ordered(bs) && ptrace.Keys == ColouredSet(bs)
    ensures forall k: nat :: k in ptrace <==> k < |bs| && Coloured(bs, k)
  {
    hide Coloured;
  }

  lemma {:induction false} NothingWithin(bs: Blocks, ptrace: PtraceBlocks)
    requires Ordered(bs)
    ensures Within(bs, ptrace, map[])
  {
  }

  lemma {:induction false} KeysWithin(bs: Blocks, ptrace: PtraceBlocks, only: PtraceBlocks)
    requires Ordered(bs) && Within(bs, ptrace, only)
    ensures only.Keys <= ptrace.Keys
  {
    hide Only;
  }

  lemma {:induction false} RuleIs(bs: Blocks, only: PtraceBlocks, k: nat)
    requires k < |bs|
    ensures Rule(bs, only.Keys, k) <==> |bs[k].parents| <= 1 || forall p | p in bs[k].parents :: p in only
  {
  }

  lemma {:induction false} JoinsOnly(bs: Blocks, ptrace: PtraceBlocks, only: PtraceBlocks, k: nat)
    requires Ordered(bs) && Within(bs, ptrace, only) && k < |bs| && Coloured(bs, k) && k in ptrace
    requires Rule(bs, only.Keys, k)
    ensures Within(bs, ptrace, only[k := ptrace[k]])
  {
    hide Coloured;
    assert Only(bs, k);
  }

  lemma {:induction false} PassCloses(bs: Blocks, ptrace: PtraceBlocks, candidates: seq<nat>, only: PtraceBlocks)
    requires Ordered(bs) && forall k: nat | k < |bs| && Coloured(bs, k) :: k in candidates
    requires forall k | k in candidates && k < |bs| :: k in only || !Rule(bs, only.Keys, k)
    ensures ClosedUnderRule(bs, only.Keys)
  {
    hide Coloured, Rule;
  }

  lemma {:induction false} OnlyIsReached(bs: Blocks, ptrace: PtraceBlocks, only: PtraceBlocks)
    requires Ordered(bs) && Within(bs, ptrace, only) && ClosedUnderRule(bs, only.Keys)
    ensures only.Keys == OnlySet(bs) && forall k | k in only :: k in ptrace && only[k] == ptrace[k]
  {
    OnlyIsLeast(bs, only.Keys);
    hide Only, ClosedUnderRule;
  }

  /** Every block in the map is one that only the tracer runs. */
  ghost predicate Within(bs: Blocks, ptrace: PtraceBlocks, only: PtraceBlocks)
    requires Ordered(bs)
  {
    forall k | k in only :: k < |bs| && Only(bs, k) && k in ptrace && only[k] == ptrace[k]
  }

  /** The first parent not in the map ends the search. */
  method AllParentsIn(parents: seq<nat>, blocks: PtraceBlocks) returns (all: bool)
    ensures all <==> forall p | p in parents :: p in blocks
  {
    var k := 0;
    while k < |parents|
      invariant k <= |parents|
      invariant forall p | p in parents[..k] :: p in blocks
    {
      if parents[k] !in blocks {
        return false;
      }
      k := k + 1;
    }
    assert parents[..k] == parents;
    return true;
  }
}
