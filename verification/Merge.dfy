/** MergeLabels: a run of adjacent labels becomes its first label. */
module Merge {
  import opened Syntax
  import opened Ir

  /** Drops every mark that directly follows a mark. */
  function Strip(c: Code, inRun: bool): (r: Code)
    ensures |r| <= |c|
  {
    if c == [] then []
    else if c[0].Mark? && inRun then Strip(c[1..], true)
    else [c[0]] + Strip(c[1..], c[0].Mark?)
  }

  /** The renaming from dropped labels to the head of their run, the later entry winning. */
  function Heads(c: Code, head: Option<Label>): map<Label, Label> {
    if c == [] then map[]
    else if !c[0].Mark? then Heads(c[1..], None)
    else if head.None? then Heads(c[1..], Some(c[0].lbl))
    else map[c[0].lbl := head.value] + Heads(c[1..], head)
  }

  function Rename(heads: map<Label, Label>, l: Label): Label {
    if l in heads then heads[l] else l
  }

  function Retarget(heads: map<Label, Label>, i: Inst): Inst {
    if i.Branch? then i.(t := Rename(heads, i.t), f := Rename(heads, i.f))
    else if i.Jump? then i.(t := Rename(heads, i.t))
    else i
  }

  function RetargetAll(heads: map<Label, Label>, c: Code): (r: Code)
    ensures |r| == |c| && forall k :: 0 <= k < |c| ==> r[k] == Retarget(heads, c[k])
  {
    if c == [] then [] else [Retarget(heads, c[0])] + RetargetAll(heads, c[1..])
  }

  function Merged(c: Code): Code {
    RetargetAll(Heads(c, None), Strip(c, false))
  }

  // ---------- The renaming ----------

  /** The renaming sends exactly the non-heads of `c` to their heads; `head` is the head of
      the run that `c` continues, if any. */
  ghost predicate Fits(heads: map<Label, Label>, c: Code, head: Option<Label>) {
    c != [] ==>
      if !c[0].Mark? then Fits(heads, c[1..], None)
      else if head.None? then c[0].lbl !in heads && Fits(heads, c[1..], Some(c[0].lbl))
      else c[0].lbl in heads && heads[c[0].lbl] == head.value && Fits(heads, c[1..], head)
  }

  lemma {:induction false} HeadsAreMarks(c: Code, head: Option<Label>, l: Label)
    requires l in Heads(c, head)
    ensures Mark(l) in c
  {
    if !c[0].Mark? {
      HeadsAreMarks(c[1..], None, l);
    } else if head.None? {
      HeadsAreMarks(c[1..], Some(c[0].lbl), l);
    } else if c[0].lbl != l {
      HeadsAreMarks(c[1..], head, l);
    }
  }

  /** With unique labels the renaming that is built fits. */
  lemma {:induction false} HeadsFit(heads: map<Label, Label>, c: Code, head: Option<Label>)
    requires UniqueMarks(c)
    requires forall l {:trigger Mark(l)} :: Mark(l) in c ==>
      (l in heads <==> l in Heads(c, head)) && (l in heads ==> heads[l] == Heads(c, head)[l])
    ensures Fits(heads, c, head)
  {
    if c != [] {
      var head' := if !c[0].Mark? then None else if head.None? then Some(c[0].lbl) else head;
      if c[0].Mark? {
        assert Mark(c[0].lbl) in c;
        if c[0].lbl in Heads(c[1..], head') {
          HeadsAreMarks(c[1..], head', c[0].lbl);
        }
      }
      HeadsFit(heads, c[1..], head');
    }
  }

  // ---------- Jumps ----------

  lemma {:induction false} RetargetAfter(heads: map<Label, Label>, c: Code, l: Label)
    ensures Mark(l) in RetargetAll(heads, c) <==> Mark(l) in c
    ensures Mark(l) in c ==> After(RetargetAll(heads, c), l) == RetargetAll(heads, After(c, l))
  {
    if c != [] {
      RetargetAfter(heads, c[1..], l);
      assert RetargetAll(heads, c)[1..] == RetargetAll(heads, c[1..]);
    }
  }

  lemma {:induction false} StripMarks(c: Code, inRun: bool)
    ensures forall i | i in Strip(c, inRun) :: i in c
    ensures forall i | i in c && !i.Mark? :: i in Strip(c, inRun)
  {
    if c != [] {
      StripMarks(c[1..], c[0].Mark?);
    }
  }

  /** Where a renamed jump lands: behind the whole run that its label was in. */
  lemma {:induction false} StripAfter(heads: map<Label, Label>, c: Code, head: Option<Label>, l: Label)
    requires Fits(heads, c, head) && UniqueMarks(c) && Mark(l) in c
    requires head.Some? ==> Mark(head.value) !in c
    ensures var l' := Rename(heads, l);
      var s := Strip(c, head.Some?);
      && (if head == Some(l') then s == Strip(After(c, l), true)
          else Mark(l') in s && After(s, l') == Strip(After(c, l), true))
      && Fits(heads, After(c, l), Some(l'))
  {
    var x := c[0];
    if !x.Mark? {
      StripAfter(heads, c[1..], None, l);
      StripMarks(c[1..], false);
    } else if x.lbl != l {
      StripAfter(heads, c[1..], Some(if head.None? then x.lbl else head.value), l);
    }
  }

  lemma {:induction false} MergeJump(m: Machine, heads: map<Label, Label>, c: Code, l: Label, env: Env)
    requires Fits(heads, c, None) && UniqueMarks(c) && Mark(l) in c
    ensures JumpTo(m, RetargetAll(heads, Strip(c, false)), Rename(heads, l), env)
         == Run(m, RetargetAll(heads, Strip(After(c, l), true)), env, map[])
    ensures Fits(heads, After(c, l), Some(Rename(heads, l)))
  {
    hide Run;
    StripAfter(heads, c, None, l);
    RetargetAfter(heads, Strip(c, false), Rename(heads, l));
  }

  // ---------- Meaning ----------

  /** Merging preserves every run of forward-jump code with unique labels. */
  lemma {:induction false} MergeRun(m: Machine, heads: map<Label, Label>, c: Code, head: Option<Label>, env: Env,
                                    tmp: Temps)
    requires Fits(heads, c, head) && UniqueMarks(c) && Forward(c, {})
    requires head.Some? ==> tmp == map[]
    ensures Run(m, RetargetAll(heads, Strip(c, head.Some?)), env, tmp) == Run(m, c, env, tmp)
    decreases |c|, 1
  {
    if c == [] {
    } else if c[0].Mark? {
      MergeRun(m, heads, c[1..], Some(if head.None? then c[0].lbl else head.value), env, map[]);
      if head.None? {
        RunMark(m, c[0].lbl, RetargetAll(heads, Strip(c[1..], true)), env, tmp);
        assert RetargetAll(heads, Strip(c, false)) == [c[0]] + RetargetAll(heads, Strip(c[1..], true));
      }
    } else {
      var i, rest := c[0], c[1..];
      var r := RetargetAll(heads, Strip(rest, false));
      assert RetargetAll(heads, Strip(c, head.Some?)) == [Retarget(heads, i)] + r;
      MergeStep(m, heads, c, env, tmp);
    }
  }

  lemma {:induction false} MergeStep(m: Machine, heads: map<Label, Label>, c: Code, env: Env, tmp: Temps)
    requires c != [] && !c[0].Mark? && Fits(heads, c[1..], None) && UniqueMarks(c) && Forward(c, {})
    ensures Run(m, [Retarget(heads, c[0])] + RetargetAll(heads, Strip(c[1..], false)), env, tmp) == Run(m, c, env, tmp)
    decreases |c|, 0
  {
    hide RetargetAll, Strip, Fits, JumpTo;
    var i, rest := c[0], c[1..];
    var r := RetargetAll(heads, Strip(rest, false));
    assert ([Retarget(heads, i)] + r)[1..] == r;
    if i.Computes() {
      var v := Result(m, i, env, tmp);
      if v.Some? {
        MergeRun(m, heads, rest, None, env, tmp[i.id := v.value]);
      }
    } else if i.Store? {
      var v := Val(i.src, env, tmp);
      if v.Some? {
        MergeRun(m, heads, rest, None, env[i.dst := v.value], map[]);
      }
    } else if i.Branches() {
      forall l | l in i.Targets()
        ensures JumpTo(m, r, Rename(heads, l), env) == JumpTo(m, rest, l, env)
      {
        MergeTarget(m, heads, rest, l, env);
      }
      if i.Jump? {
        MergeRun(m, heads, rest, None, env, tmp);
      }
    }
  }

  lemma {:induction false} MergeTarget(m: Machine, heads: map<Label, Label>, c: Code, l: Label, env: Env)
    requires Fits(heads, c, None) && UniqueMarks(c) && Forward(c, {}) && Mark(l) in c
    ensures JumpTo(m, RetargetAll(heads, Strip(c, false)), Rename(heads, l), env) == JumpTo(m, c, l, env)
    decreases |c|
  {
    hide Run;
    MergeJump(m, heads, c, l, env);
    AfterKeeps(c, l, {});
    MergeRun(m, heads, After(c, l), Some(Rename(heads, l)), env, map[]);
  }

  // ---------- Shape ----------

  predicate NoAdjacentMarks(c: Code) {
    forall k | 0 <= k < |c| - 1 :: !(c[k].Mark? && c[k + 1].Mark?)
  }

  /** Labels defined once, jumps ahead only, branches last in their blocks. */
  predicate WellFormed(c: Code) {
    UniqueMarks(c) && Forward(c, {}) && BranchesEndBlocks(c)
  }

  lemma {:induction false} StripShape(c: Code, inRun: bool)
    requires UniqueMarks(c) && BranchesEndBlocks(c)
    ensures var s := Strip(c, inRun);
      && UniqueMarks(s) && BranchesEndBlocks(s) && NoAdjacentMarks(s)
      && (inRun && s != [] ==> !s[0].Mark?)
      && (c != [] && !(inRun && c[0].Mark?) ==> s != [] && s[0] == c[0])
  {
    if c != [] {
      assert BranchesEndBlocks(c[1..]) by {
        forall k | 0 <= k < |c[1..]| - 1 && c[1..][k].Branches()
          ensures c[1..][k + 1].Mark?
        {
          assert c[k + 1].Branches();
        }
      }
      var s := Strip(c[1..], c[0].Mark?);
      StripShape(c[1..], c[0].Mark?);
      StripMarks(c[1..], c[0].Mark?);
      if !(c[0].Mark? && inRun) {
        assert ([c[0]] + s)[1..] == s;
        if |c| > 1 && c[0].Branches() {
          assert c[1].Mark?;
        }
      }
    }
  }

  lemma {:induction false} RetargetUnique(heads: map<Label, Label>, c: Code)
    requires UniqueMarks(c)
    ensures UniqueMarks(RetargetAll(heads, c))
  {
    if c != [] {
      assert RetargetAll(heads, c)[1..] == RetargetAll(heads, c[1..]);
      RetargetUnique(heads, c[1..]);
      if c[0].Mark? {
        RetargetAfter(heads, c[1..], c[0].lbl);
      }
    }
  }

  lemma {:induction false} RetargetShape(heads: map<Label, Label>, c: Code)
    requires UniqueMarks(c) && BranchesEndBlocks(c) && NoAdjacentMarks(c)
    ensures UniqueMarks(RetargetAll(heads, c))
    ensures BranchesEndBlocks(RetargetAll(heads, c)) && NoAdjacentMarks(RetargetAll(heads, c))
  {
    RetargetUnique(heads, c);
    hide UniqueMarks;
  }

  /** Every renamed branch still finds its target ahead of it. */
  lemma {:induction false} MergeForward(heads: map<Label, Label>, c: Code, head: Option<Label>)
    requires Fits(heads, c, head) && UniqueMarks(c) && Forward(c, {})
    ensures Forward(RetargetAll(heads, Strip(c, head.Some?)), {})
  {
    if c != [] {
      var i, rest := c[0], c[1..];
      var head' := if !i.Mark? then None else if head.None? then Some(i.lbl) else head;
      MergeForward(heads, rest, head');
      var r := RetargetAll(heads, Strip(rest, head'.Some?));
      if !(i.Mark? && head.Some?) {
        assert RetargetAll(heads, Strip(c, head.Some?)) == [Retarget(heads, i)] + r;
        assert ([Retarget(heads, i)] + r)[1..] == r;
        forall l' | l' in Retarget(heads, i).Targets()
          ensures Mark(l') in r
        {
          var l :| l in i.Targets() && l' == Rename(heads, l);
          StripAfter(heads, rest, None, l);
          RetargetAfter(heads, Strip(rest, false), l');
        }
      }
    }
  }

  /** One renaming step is enough: a label that survives is never itself renamed. */
  lemma {:induction false} SurvivorsKeepTheirNames(heads: map<Label, Label>, c: Code, head: Option<Label>, l: Label)
    requires Fits(heads, c, head) && Mark(l) in Strip(c, head.Some?)
    ensures l !in heads
  {
    var i, rest := c[0], c[1..];
    if i != Mark(l) || head.Some? {
      SurvivorsKeepTheirNames(heads, rest, if !i.Mark? then None else if head.None? then Some(i.lbl) else head, l);
    }
  }

  /** MergeLabels: every run is preserved, no two labels stay adjacent, code stays
      forward-jumping with unique labels, and every branch goes to a surviving label. */
  lemma {:induction false} MergePreserves(m: Machine, c: Code, env: Env)
    requires WellFormed(c)
    ensures Run(m, Merged(c), env, map[]) == Run(m, c, env, map[])
    ensures WellFormed(Merged(c)) && NoAdjacentMarks(Merged(c))
    ensures forall i, l | i in Merged(c) && l in i.Targets() :: l !in Heads(c, None)
  {
    hide Run;
    var heads := Heads(c, None);
    HeadsFit(heads, c, None);
    MergeRun(m, heads, c, None, env, map[]);
    StripShape(c, false);
    RetargetShape(heads, Strip(c, false));
    MergeForward(heads, c, None);
    forall i, l | i in Merged(c) && l in i.Targets()
      ensures l !in heads
    {
      ForwardTargets(Merged(c), i, l);
      RetargetAfter(heads, Strip(c, false), l);
      SurvivorsKeepTheirNames(heads, c, None, l);
    }
  }

  lemma {:induction false} ForwardTargets(c: Code, i: Inst, l: Label)
    requires Forward(c, {}) && i in c && l in i.Targets()
    ensures Mark(l) in c
  {
    if c[0] != i {
      ForwardTargets(c[1..], i, l);
    }
  }
}
