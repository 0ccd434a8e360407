/** EliminateDeadCode: what follows a return goes, every unconditional jump goes, and then
    blocks that nothing reaches go until none is left. */
module DeadCode {
  import opened Syntax
  import opened Ir
  import opened Merge

  /** The first loop.  Its second test looks at the instruction itself and not at the one
      before, so every unconditional jump but a leading one is dropped. */
  function Sweep(c: Code, prev: Option<Inst>): (r: Code)
    ensures |r| <= |c|
  {
    if c == [] then []
    else if prev.Some? && (prev.value.Return? || c[0].Jump?) && !c[0].Mark? then Sweep(c[1..], prev)
    else [c[0]] + Sweep(c[1..], Some(c[0]))
  }

  predicate AfterEnd(prev: Option<Inst>) {
    prev.Some? && prev.value.Ends()
  }

  /** Whether the instruction is dropped by a pass of the second loop. */
  predicate Dropped(i: Inst, prev: Option<Inst>, purging: bool, reach: set<Label>) {
    if i.Mark? then i.lbl !in reach && AfterEnd(prev) else purging
  }

  function TargetSet(i: Inst): set<Label> {
    set l | l in i.Targets()
  }

  /** One pass of the second loop: `reach` holds the targets of the branches kept so far. */
  function Purge(c: Code, prev: Option<Inst>, purging: bool, reach: set<Label>): (r: Code)
    ensures |r| <= |c| && (|r| == |c| ==> r == c)
  {
    if c == [] then []
    else if Dropped(c[0], prev, purging, reach) then Purge(c[1..], Some(c[0]), true, reach)
    else [c[0]] + Purge(c[1..], Some(c[0]), false, reach + TargetSet(c[0]))
  }

  /** Passes until nothing changes. */
  function Settle(c: Code): Code
    decreases |c|
  {
    var r := Purge(c, None, false, {});
    if r == c then c else Settle(r)
  }

  function Live(c: Code): Code {
    Settle(Sweep(c, None))
  }

  // ---------- The first loop ----------

  lemma {:induction false} SweepAfter(c: Code, prev: Option<Inst>, l: Label)
    ensures Mark(l) in Sweep(c, prev) <==> Mark(l) in c
    ensures Mark(l) in c ==> After(Sweep(c, prev), l) == Sweep(After(c, l), Some(Mark(l)))
  {
    if c != [] {
      var kept := !(prev.Some? && (prev.value.Return? || c[0].Jump?) && !c[0].Mark?);
      SweepAfter(c[1..], if kept then Some(c[0]) else prev, l);
    }
  }

  /** The first loop keeps every run in which unconditional jumps are not taken. */
  lemma {:induction false} SweepRun(m: Machine, c: Code, prev: Option<Inst>, env: Env, tmp: Temps)
    requires !m.jumps && (prev.Some? ==> !prev.value.Return?)
    ensures Run(m, Sweep(c, prev), env, tmp) == Run(m, c, env, tmp)
    decreases |c|
  {
    hide JumpTo, Compare;
    if c != [] {
      var i, rest := c[0], c[1..];
      if i.Jump? && prev.Some? {
        SweepRun(m, rest, prev, env, tmp);
      } else {
        var r := Sweep(rest, Some(i));
        assert Sweep(c, prev) == [i] + r && ([i] + r)[1..] == r;
        if i.Mark? {
          SweepRun(m, rest, Some(i), env, map[]);
        } else if i.Computes() {
          var v := Result(m, i, env, tmp);
          if v.Some? {
            SweepRun(m, rest, Some(i), env, tmp[i.id := v.value]);
          }
        } else if i.Store? {
          var v := Val(i.src, env, tmp);
          if v.Some? {
            SweepRun(m, rest, Some(i), env[i.dst := v.value], map[]);
          }
        } else if i.Branch? {
          SweepTarget(m, rest, Some(i), i.t, env);
          SweepTarget(m, rest, Some(i), i.f, env);
        } else if i.Jump? {
          SweepRun(m, rest, Some(i), env, tmp);
        }
      }
    }
  }

  lemma {:induction false} SweepTarget(m: Machine, c: Code, prev: Option<Inst>, l: Label, env: Env)
    requires !m.jumps
    ensures JumpTo(m, Sweep(c, prev), l, env) == JumpTo(m, c, l, env)
    decreases |c|
  {
    hide Run;
    SweepAfter(c, prev, l);
    if Mark(l) in c {
      SweepRun(m, After(c, l), Some(Mark(l)), env, map[]);
    }
  }

  // ---------- The second loop ----------

  lemma {:induction false} PurgeWithin(c: Code, prev: Option<Inst>, purging: bool, reach: set<Label>)
    ensures forall i | i in Purge(c, prev, purging, reach) :: i in c
  {
    if c != [] {
      var d := Dropped(c[0], prev, purging, reach);
      PurgeWithin(c[1..], Some(c[0]), d, if d then reach else reach + TargetSet(c[0]));
    }
  }

  /** The block of a reached label is kept. */
  lemma {:induction false} PurgeAfter(c: Code, prev: Option<Inst>, purging: bool, reach: set<Label>, l: Label)
    returns (reach': set<Label>)
    requires l in reach && Mark(l) in c
    ensures Mark(l) in Purge(c, prev, purging, reach)
    ensures After(Purge(c, prev, purging, reach), l) == Purge(After(c, l), Some(Mark(l)), false, reach')
  {
    var d := Dropped(c[0], prev, purging, reach);
    if c[0] == Mark(l) {
      reach' := reach + TargetSet(c[0]);
    } else {
      reach' := PurgeAfter(c[1..], Some(c[0]), d, if d then reach else reach + TargetSet(c[0]), l);
    }
  }

  /** A pass keeps the meaning of every run that starts where control can be, jumps taken. */
  lemma {:induction false} PurgeRun(m: Machine, c: Code, prev: Option<Inst>, reach: set<Label>, env: Env, tmp: Temps)
    requires m.jumps && !AfterEnd(prev)
    ensures Run(m, Purge(c, prev, false, reach), env, tmp) == Run(m, c, env, tmp)
    decreases |c|
  {
    hide JumpTo, After;
    if c != [] {
      var i, rest := c[0], c[1..];
      var reach' := reach + TargetSet(i);
      var r := Purge(rest, Some(i), false, reach');
      assert Purge(c, prev, false, reach) == [i] + r && ([i] + r)[1..] == r;
      if i.Mark? {
        PurgeRun(m, rest, Some(i), reach', env, map[]);
      } else if i.Computes() {
        var v := Result(m, i, env, tmp);
        if v.Some? {
          PurgeRun(m, rest, Some(i), reach', env, tmp[i.id := v.value]);
        }
      } else if i.Store? {
        var v := Val(i.src, env, tmp);
        if v.Some? {
          PurgeRun(m, rest, Some(i), reach', env[i.dst := v.value], map[]);
        }
      } else if i.Branches() {
        forall l | l in i.Targets()
          ensures JumpTo(m, r, l, env) == JumpTo(m, rest, l, env)
        {
          PurgeTarget(m, rest, Some(i), reach', l, env);
        }
      }
    }
  }

  lemma {:induction false} PurgeTarget(m: Machine, c: Code, prev: Option<Inst>, reach: set<Label>, l: Label, env: Env)
    requires m.jumps && l in reach
    ensures JumpTo(m, Purge(c, prev, false, reach), l, env) == JumpTo(m, c, l, env)
    decreases |c|
  {
    hide Run;
    PurgeWithin(c, prev, false, reach);
    if Mark(l) in c {
      var reach' := PurgeAfter(c, prev, false, reach, l);
      PurgeRun(m, After(c, l), Some(Mark(l)), reach', env, map[]);
    }
  }

  // ---------- Shape ----------

  /** Branches and returns are last in their blocks. */
  predicate EndsEndBlocks(c: Code) {
    forall k | 0 <= k < |c| - 1 :: c[k].Ends() ==> c[k + 1].Mark?
  }

  predicate NoJumps(c: Code) {
    forall i | i in c :: !i.Jump?
  }

  lemma {:induction false} TailEnds(c: Code)
    requires c != []
    ensures EndsEndBlocks(c) ==> EndsEndBlocks(c[1..])
    ensures BranchesEndBlocks(c) ==> BranchesEndBlocks(c[1..])
    ensures |c| > 1 && EndsEndBlocks(c) && c[0].Ends() ==> c[1].Mark?
    ensures |c| > 1 && BranchesEndBlocks(c) && c[0].Branches() ==> c[1].Mark?
  {
    forall k | 0 <= k < |c[1..]| - 1
      ensures EndsEndBlocks(c) && c[1..][k].Ends() ==> c[1..][k + 1].Mark?
      ensures BranchesEndBlocks(c) && c[1..][k].Branches() ==> c[1..][k + 1].Mark?
    {
      assert c[1..][k] == c[k + 1];
    }
  }

  lemma {:induction false} SweepShape(c: Code, prev: Option<Inst>)
    requires WellFormed(c)
    ensures var s := Sweep(c, prev);
      && UniqueMarks(s) && Forward(s, {}) && EndsEndBlocks(s)
      && (prev.Some? && prev.value.Return? && s != [] ==> s[0].Mark?)
      && (c != [] && c[0].Mark? ==> s != [] && s[0] == c[0])
      && (prev.Some? ==> NoJumps(s))
  {
    if c != [] {
      TailEnds(c);
      var kept := !(prev.Some? && (prev.value.Return? || c[0].Jump?) && !c[0].Mark?);
      var prev' := if kept then Some(c[0]) else prev;
      SweepShape(c[1..], prev');
      if kept {
        var s := Sweep(c[1..], prev');
        assert ([c[0]] + s)[1..] == s;
        SweepKeepsMarks(c[1..], prev', c[0]);
      }
    }
  }

  lemma {:induction false} SweepKeepsMarks(c: Code, prev: Option<Inst>, i: Inst)
    ensures i.Mark? && i !in c ==> i !in Sweep(c, prev)
    ensures forall l | l in i.Targets() && Mark(l) in c :: Mark(l) in Sweep(c, prev)
  {
    if i.Mark? {
      SweepAfter(c, prev, i.lbl);
    }
    forall l | l in i.Targets() && Mark(l) in c
      ensures Mark(l) in Sweep(c, prev)
    {
      SweepAfter(c, prev, l);
    }
  }

  lemma {:induction false} PurgeShape(c: Code, prev: Option<Inst>, purging: bool, reach: set<Label>)
    requires UniqueMarks(c) && Forward(c, {}) && EndsEndBlocks(c)
    ensures var p := Purge(c, prev, purging, reach);
      && UniqueMarks(p) && Forward(p, {}) && EndsEndBlocks(p)
      && (purging && p != [] ==> p[0].Mark?)
      && (c != [] && c[0].Mark? && p != [] ==> p[0].Mark?)
  {
    if c != [] {
      TailEnds(c);
      var d := Dropped(c[0], prev, purging, reach);
      var reach' := if d then reach else reach + TargetSet(c[0]);
      PurgeShape(c[1..], Some(c[0]), d, reach');
      if !d {
        var p := Purge(c[1..], Some(c[0]), false, reach');
        assert ([c[0]] + p)[1..] == p;
        PurgeWithin(c[1..], Some(c[0]), false, reach');
        forall l | l in c[0].Targets()
          ensures Mark(l) in p
        {
          var _ := PurgeAfter(c[1..], Some(c[0]), false, reach', l);
        }
      }
    }
  }

  // ---------- The fixpoint ----------

  /** Control can arrive at position `k`: it falls in from above, or an earlier branch goes there. */
  predicate Justified(c: Code, k: nat)
    requires k < |c|
  {
    c[k].Mark? ==> k == 0 || !c[k - 1].Ends() || exists j | 0 <= j < k :: c[k].lbl in c[j].Targets()
  }

  /** Where a pass changes nothing, every label of `c` is justified by what precedes it. */
  lemma {:induction false} UnchangedIsJustified(whole: Code, n: nat, reach: set<Label>)
    requires n <= |whole|
    requires Purge(whole[n..], if n == 0 then None else Some(whole[n - 1]), false, reach) == whole[n..]
    requires forall l | l in reach :: exists j | 0 <= j < n :: l in whole[j].Targets()
    ensures forall k | n <= k < |whole| :: Justified(whole, k)
    decreases |whole| - n
  {
    if n < |whole| {
      var prev := if n == 0 then None else Some(whole[n - 1]);
      var i := whole[n];
      assert whole[n..][0] == i && whole[n..][1..] == whole[n + 1..];
      assert !Dropped(i, prev, false, reach);
      UnchangedIsJustified(whole, n + 1, reach + TargetSet(i));
    }
  }

  /** What the second loop leaves: same meaning, same shape, and every block reachable. */
  lemma {:induction false} SettlePreserves(m: Machine, c: Code, env: Env)
    requires m.jumps && UniqueMarks(c) && Forward(c, {}) && EndsEndBlocks(c)
    ensures Run(m, Settle(c), env, map[]) == Run(m, c, env, map[])
    ensures var s := Settle(c);
      && UniqueMarks(s) && Forward(s, {}) && EndsEndBlocks(s)
      && (forall i | i in s :: i in c)
      && forall k | 0 <= k < |s| :: Justified(s, k)
    decreases |c|
  {
    hide Run, Justified;
    var r := Purge(c, None, false, {});
    if r == c {
      assert c[0..] == c;
      UnchangedIsJustified(c, 0, {});
    } else {
      PurgeRun(m, c, None, {}, env, map[]);
      PurgeShape(c, None, false, {});
      PurgeWithin(c, None, false, {});
      SettlePreserves(m, r, env);
    }
  }

  lemma {:induction false} SweepWithin(c: Code, prev: Option<Inst>)
    ensures forall i | i in Sweep(c, prev) :: i in c
  {
    if c != [] {
      var kept := !(prev.Some? && (prev.value.Return? || c[0].Jump?) && !c[0].Mark?);
      SweepWithin(c[1..], if kept then Some(c[0]) else prev);
    }
  }

  /** In code without unconditional jumps it does not matter whether they are taken. */
  lemma {:induction false} JumpFree(m: Machine, m': Machine, c: Code, env: Env, tmp: Temps)
    requires NoJumps(c) && m' == m.(jumps := m'.jumps)
    ensures Run(m', c, env, tmp) == Run(m, c, env, tmp)
    decreases |c|, 0
  {
    hide JumpTo, Compare;
    if c != [] {
      var i, rest := c[0], c[1..];
      assert NoJumps(rest) && !i.Jump? by { assert i in c; }
      if i.Mark? {
        JumpFree(m, m', rest, env, map[]);
      } else if i.Computes() {
        var v := Result(m, i, env, tmp);
        assert Result(m', i, env, tmp) == v;
        if v.Some? {
          JumpFree(m, m', rest, env, tmp[i.id := v.value]);
        }
      } else if i.Store? {
        var v := Val(i.src, env, tmp);
        if v.Some? {
          JumpFree(m, m', rest, env[i.dst := v.value], map[]);
        }
      } else if i.Branch? {
        JumpFreeTarget(m, m', rest, i.t, env);
        JumpFreeTarget(m, m', rest, i.f, env);
      }
    }
  }

  lemma {:induction false} JumpFreeTarget(m: Machine, m': Machine, c: Code, l: Label, env: Env)
    requires NoJumps(c) && m' == m.(jumps := m'.jumps)
    ensures JumpTo(m', c, l, env) == JumpTo(m, c, l, env)
    decreases |c|, 1
  {
    hide Run;
    if Mark(l) in c {
      AfterWithin(c, l);
      JumpFree(m, m', After(c, l), env, map[]);
    }
  }

  /** EliminateDeadCode keeps the meaning that the code has where unconditional jumps are not
      taken, leaves no such jump, and leaves only blocks that control can reach. */
  lemma {:induction false} LivePreserves(m: Machine, c: Code, env: Env)
    requires m.jumps && WellFormed(c) && (c != [] ==> !c[0].Jump?)
    ensures Run(m, Live(c), env, map[]) == Run(m.(jumps := false), c, env, map[])
    ensures var s := Live(c);
      && UniqueMarks(s) && Forward(s, {}) && EndsEndBlocks(s) && NoJumps(s)
      && (forall i | i in s :: i in c)
      && forall k | 0 <= k < |s| :: Justified(s, k)
  {
    hide Run, Justified, Settle;
    SweepShape(c, None);
    SweepWithin(c, None);
    var s := Sweep(c, None);
    if c != [] {
      TailEnds(c);
      SweepShape(c[1..], Some(c[0]));
    }
    SettlePreserves(m, s, env);
    JumpFree(m, m.(jumps := false), s, env, map[]);
    SweepRun(m.(jumps := false), c, None, env, map[]);
  }
}
