/** Code that the passes leave as it is. */
module Idle {
  import opened Syntax
  import opened Ir
  import opened Merge
  import opened DeadCode

  /** What stands in front: nothing that matters, the end of a block, or a label. */
  datatype Place = Inside | BehindEnd | BehindMark

  function PlaceOf(i: Inst): Place {
    if i.Ends() then BehindEnd else if i.Mark? then BehindMark else Inside
  }

  /** No jumps, no adjacent labels, and behind each branch or return a label that was branched to;
      `reach` are the labels that were branched to before. */
  predicate Tidy(c: Code, at: Place, reach: set<Label>) {
    c != [] ==>
      var i := c[0];
      && !i.Jump? && (at.BehindEnd? ==> i.Mark? && i.lbl in reach) && (at.BehindMark? ==> !i.Mark?)
      && Tidy(c[1..], PlaceOf(i), reach + TargetSet(i))
  }

  // ---------- Putting tidy code together ----------

  lemma {:induction false} TidyStep(i: Inst, rest: Code, at: Place, reach: set<Label>)
    requires !i.Jump? && (at.BehindEnd? ==> i.Mark? && i.lbl in reach) && (at.BehindMark? ==> !i.Mark?)
    requires Tidy(rest, PlaceOf(i), reach + TargetSet(i))
    ensures Tidy([i] + rest, at, reach)
  {
    assert ([i] + rest)[1..] == rest;
  }

  predicate Flows(c: Code) {
    forall i | i in c :: !i.Ends() && !i.Mark?
  }

  /** Code without labels, branches and returns, in front of an instruction of the same block. */
  lemma {:induction false} TidyFlows(c: Code, rest: Code, at: Place, reach: set<Label>)
    requires Flows(c) && !at.BehindEnd? && rest != [] && !rest[0].Mark? && Tidy(rest, Inside, reach)
    ensures Tidy(c + rest, at, reach)
  {
    if c == [] {
      assert c + rest == rest;
    } else {
      var i := c[0];
      assert i in c && c + rest == [i] + (c[1..] + rest);
      TidyFlows(c[1..], rest, Inside, reach);
      assert TargetSet(i) == {};
      assert reach + TargetSet(i) == reach;
      TidyStep(i, c[1..] + rest, at, reach);
    }
  }

  // ---------- The passes ----------

  lemma {:induction false} StripIdle(c: Code, at: Place, reach: set<Label>)
    requires Tidy(c, at, reach)
    ensures Strip(c, at.BehindMark?) == c && Heads(c, None) == map[]
  {
    if c != [] {
      StripIdle(c[1..], PlaceOf(c[0]), reach + TargetSet(c[0]));
      if c[0].Mark? {
        HeadsIdle(c[1..], Some(c[0].lbl), reach + TargetSet(c[0]));
      }
    }
  }

  lemma {:induction false} HeadsIdle(c: Code, head: Option<Label>, reach: set<Label>)
    requires Tidy(c, BehindMark, reach)
    ensures Heads(c, head) == map[]
  {
    if c != [] {
      StripIdle(c[1..], PlaceOf(c[0]), reach + TargetSet(c[0]));
    }
  }

  lemma {:induction false} RetargetIdle(c: Code)
    ensures RetargetAll(map[], c) == c
  {
  }

  lemma {:induction false} SweepIdle(c: Code, prev: Option<Inst>, reach: set<Label>)
    requires Tidy(c, if prev.Some? then PlaceOf(prev.value) else Inside, reach)
    ensures Sweep(c, prev) == c
  {
    if c != [] {
      SweepIdle(c[1..], Some(c[0]), reach + TargetSet(c[0]));
    }
  }

  lemma {:induction false} PurgeIdle(c: Code, prev: Option<Inst>, reach: set<Label>)
    requires Tidy(c, if prev.Some? then PlaceOf(prev.value) else Inside, reach)
    ensures Purge(c, prev, false, reach) == c
  {
    if c != [] {
      PurgeIdle(c[1..], Some(c[0]), reach + TargetSet(c[0]));
    }
  }

  /** Merging and dead-code elimination leave tidy code as it is. */
  lemma {:induction false} PassesIdle(c: Code)
    requires Tidy(c, Inside, {})
    ensures Merged(c) == c && Live(c) == c && Live(Merged(c)) == c
  {
    hide Tidy;
    StripIdle(c, Inside, {});
    RetargetIdle(c);
    SweepIdle(c, None, {});
    PurgeIdle(c, None, {});
  }
}
