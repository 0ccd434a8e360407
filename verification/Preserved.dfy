/** What the passes keep of generated code, down to the single block. */
module Preserved {
  import opened Syntax
  import opened Ir
  import opened Merge
  import opened DeadCode
  import opened Cfg
  import opened Colour
  import opened Split
  import opened BpfGen
  import opened Generated
  import opened Lifter
  import opened LifterProof

  // ---------- Discipline ----------

  lemma {:induction false} MergeKeepsDiscipline(heads: map<Label, Label>, c: Code, inRun: bool, st: seq<nat>)
    requires Disciplined(c, st)
    ensures Disciplined(RetargetAll(heads, Strip(c, inRun)), st)
  {
    if c != [] {
      var i, st' := c[0], Step(c[0], st).value;
      assert Step(Retarget(heads, i), st) == Step(i, st);
      assert i.Mark? ==> st' == st;
      MergeKeepsDiscipline(heads, c[1..], i.Mark?, st');
      hide Step;
      if !(i.Mark? && inRun) {
        var r := RetargetAll(heads, Strip(c[1..], i.Mark?));
        assert RetargetAll(heads, Strip(c, inRun)) == [Retarget(heads, i)] + r;
        assert ([Retarget(heads, i)] + r)[1..] == r;
      }
    }
  }

  predicate Dead(prev: Option<Inst>) {
    prev.Some? && prev.value.Return?
  }

  lemma {:induction false} SweepKeepsDiscipline(c: Code, prev: Option<Inst>, st: seq<nat>)
    requires Disciplined(c, st)
    ensures Disciplined(Sweep(c, prev), if Dead(prev) then [] else st)
  {
    if c != [] {
      var i, st' := c[0], Step(c[0], st).value;
      var kept := !(prev.Some? && (prev.value.Return? || i.Jump?) && !i.Mark?);
      assert i.Mark? || i.Jump? || i.Return? ==> st == [] && st' == [];
      SweepKeepsDiscipline(c[1..], if kept then Some(i) else prev, st');
      hide Step;
      if kept {
        var s := Sweep(c[1..], Some(i));
        assert ([i] + s)[1..] == s;
      }
    }
  }

  lemma {:induction false} PurgeKeepsDiscipline(c: Code, prev: Option<Inst>, purging: bool, reach: set<Label>,
      st: seq<nat>)
    requires Disciplined(c, st)
    ensures Disciplined(Purge(c, prev, purging, reach), if purging then [] else st)
  {
    if c != [] {
      var i, st' := c[0], Step(c[0], st).value;
      var d := Dropped(i, prev, purging, reach);
      var reach' := if d then reach else reach + TargetSet(i);
      assert i.Mark? ==> st == [] && st' == [];
      PurgeKeepsDiscipline(c[1..], Some(i), d, reach', st');
      hide Step;
      if !d {
        var p := Purge(c[1..], Some(i), false, reach');
        assert ([i] + p)[1..] == p;
      }
    }
  }

  lemma {:induction false} SettleKeepsDiscipline(c: Code)
    requires Disciplined(c, [])
    ensures Disciplined(Settle(c), [])
    decreases |c|
  {
    hide Disciplined;
    var r := Purge(c, None, false, {});
    if r != c {
      PurgeKeepsDiscipline(c, None, false, {}, []);
      SettleKeepsDiscipline(r);
    }
  }

  /** Merging and dead-code elimination keep the discipline. */
  lemma {:induction false} PassesKeepDiscipline(c: Code)
    requires Disciplined(c, [])
    ensures Disciplined(Live(Merged(c)), [])
  {
    hide Disciplined;
    MergeKeepsDiscipline(Heads(c, None), c, false, []);
    SweepKeepsDiscipline(Merged(c), None, []);
    SettleKeepsDiscipline(Sweep(Merged(c), None));
  }

  lemma {:induction false} DisciplineSplits(a: Code, b: Code, st: seq<nat>)
    requires Disciplined(a + b, st) && AtBoundary(b)
    ensures Disciplined(a, st) && Disciplined(b, [])
  {
    if a == [] {
      assert a + b == b;
    } else {
      assert (a + b)[0] == a[0] && (a + b)[1..] == a[1..] + b;
      DisciplineSplits(a[1..], b, Step(a[0], st).value);
    }
  }

  lemma {:induction false} DisciplineJoins(a: Code, b: Code, st: seq<nat>)
    requires Disciplined(a, st) && Disciplined(b, [])
    ensures Disciplined(a + b, st)
  {
    if a == [] {
      assert a + b == b;
    } else {
      hide Step;
      assert (a + b)[0] == a[0] && (a + b)[1..] == a[1..] + b;
      DisciplineJoins(a[1..], b, Step(a[0], st).value);
    }
  }

  predicate BlocksDisciplined(bs: Blocks) {
    forall b | b in bs :: Disciplined(b.insts, [])
  }

  lemma {:induction false} FlatBoundary(bs: Blocks)
    ensures AtBoundary(Flat(bs))
  {
  }

  lemma {:induction false} FlatDiscipline(bs: Blocks)
    requires Disciplined(Flat(bs), [])
    ensures BlocksDisciplined(bs)
  {
    if bs != [] {
      var b, rest := bs[0], Flat(bs[1..]);
      assert Flat(bs) == [Mark(b.label_)] + (b.insts + rest);
      assert ([Mark(b.label_)] + (b.insts + rest))[1..] == b.insts + rest;
      FlatBoundary(bs[1..]);
      DisciplineSplits(b.insts, rest, []);
      hide Disciplined, Step;
      FlatDiscipline(bs[1..]);
    }
  }

  lemma {:induction false} MarkedDiscipline(l: Label, c: Code)
    requires Disciplined(c, [])
    ensures Disciplined([Mark(l)] + c, [])
  {
    assert ([Mark(l)] + c)[1..] == c;
  }

  lemma {:induction false} HandOffDiscipline(l: Label, n: nat)
    ensures Disciplined([Mark(l), Return(ToPtrace(n))], [])
  {
    var c := [Mark(l), Return(ToPtrace(n))];
    assert c[1..] == [Return(ToPtrace(n))] && c[1..][1..] == [];
  }

  lemma {:induction false} BlockEmissionDiscipline(bs: Blocks, k: nat, n: nat)
    requires Ordered(bs) && k < |bs| && Disciplined(bs[k].insts, [])
    ensures Disciplined(EmitBlock(bs, k, n).code, [])
  {
    MarkedDiscipline(bs[k].label_, bs[k].insts);
    HandOffDiscipline(bs[k].label_, n);
    EmptyDiscipline();
    hide Disciplined, Only, Start, Targeted;
  }

  lemma {:induction false} EmitDiscipline(bs: Blocks, k: nat, n: nat)
    requires Ordered(bs) && k <= |bs| && BlocksDisciplined(bs)
    ensures Disciplined(Emit(bs, k, n).code, [])
    decreases |bs| - k
  {
    hide Disciplined, EmitBlock, Ordered;
    if k == |bs| {
      EmptyDiscipline();
    } else {
      var x := EmitBlock(bs, k, n);
      EmitSplit(bs, k, n);
      assert bs[k] in bs;
      hide Emit;
      EmitDiscipline(bs, k + 1, n + |x.table|);
      BlockEmissionDiscipline(bs, k, n);
      DisciplineJoins(x.code, Emit(bs, k + 1, n + |x.table|).code, []);
    }
  }

  lemma {:induction false} EmptyDiscipline()
    ensures Disciplined([], [])
  {
  }

  lemma {:induction false} BpfIrDiscipline(bs: Blocks, n: nat)
    requires Ordered(bs) && bs != [] && BlocksDisciplined(bs)
    ensures Disciplined(BpfIr(bs, n).code, [])
    ensures BpfIr(bs, n).code != [] && BpfIr(bs, n).code[0] == Mark(bs[0].label_)
    ensures Disciplined(BpfIr(bs, n).code[1..], [])
  {
    if Only(bs, 0) {
      HandOffDiscipline(bs[0].label_, n);
    } else {
      EmitDiscipline(bs, 0, n);
      EmitCopied(bs, 0, n);
    }
  }

  // ---------- Order of identities ----------

  lemma {:induction false} MergeKeepsOrder(heads: map<Label, Label>, c: Code, inRun: bool, n: nat)
    requires Ascending(c, n)
    ensures Ascending(RetargetAll(heads, Strip(c, inRun)), n)
  {
    if c != [] {
      var i := c[0];
      MergeKeepsOrder(heads, c[1..], i.Mark?, if i.Computes() then i.id + 1 else n);
      if !(i.Mark? && inRun) {
        var r := RetargetAll(heads, Strip(c[1..], i.Mark?));
        assert RetargetAll(heads, Strip(c, inRun)) == [Retarget(heads, i)] + r;
        assert ([Retarget(heads, i)] + r)[1..] == r;
      }
    }
  }

  lemma {:induction false} SweepKeepsOrder(c: Code, prev: Option<Inst>, n: nat)
    requires Ascending(c, n)
    ensures Ascending(Sweep(c, prev), n)
  {
    if c != [] {
      var i := c[0];
      var kept := !(prev.Some? && (prev.value.Return? || i.Jump?) && !i.Mark?);
      var n' := if i.Computes() then i.id + 1 else n;
      var s := Sweep(c[1..], if kept then Some(i) else prev);
      SweepKeepsOrder(c[1..], if kept then Some(i) else prev, n');
      if kept {
        assert ([i] + s)[1..] == s;
      } else {
        AscendingFrom(s, n', n);
      }
    }
  }

  lemma {:induction false} PurgeKeepsOrder(c: Code, prev: Option<Inst>, purging: bool, reach: set<Label>, n: nat)
    requires Ascending(c, n)
    ensures Ascending(Purge(c, prev, purging, reach), n)
  {
    if c != [] {
      var i := c[0];
      var d := Dropped(i, prev, purging, reach);
      var reach' := if d then reach else reach + TargetSet(i);
      var n' := if i.Computes() then i.id + 1 else n;
      var p := Purge(c[1..], Some(i), d, reach');
      PurgeKeepsOrder(c[1..], Some(i), d, reach', n');
      if d {
        AscendingFrom(p, n', n);
      } else {
        assert ([i] + p)[1..] == p;
      }
    }
  }

  lemma {:induction false} SettleKeepsOrder(c: Code, n: nat)
    requires Ascending(c, n)
    ensures Ascending(Settle(c), n)
    decreases |c|
  {
    hide Ascending;
    var r := Purge(c, None, false, {});
    if r != c {
      PurgeKeepsOrder(c, None, false, {}, n);
      SettleKeepsOrder(r, n);
    }
  }

  lemma {:induction false} PassesKeepOrder(c: Code, n: nat)
    requires Ascending(c, n)
    ensures Ascending(Live(Merged(c)), n)
  {
    hide Ascending;
    MergeKeepsOrder(Heads(c, None), c, false, n);
    SweepKeepsOrder(Merged(c), None, n);
    SettleKeepsOrder(Sweep(Merged(c), None), n);
  }

  lemma {:induction false} OrderSuffix(a: Code, b: Code, n: nat)
    requires Ascending(a + b, n)
    ensures Ascending(b, n)
  {
    if a == [] {
      assert a + b == b;
    } else {
      assert (a + b)[0] == a[0] && (a + b)[1..] == a[1..] + b;
      var n' := if a[0].Computes() then a[0].id + 1 else n;
      OrderSuffix(a[1..], b, n');
      AscendingFrom(b, n', n);
    }
  }

  /** In front of code that can be replaced, the order stays. */
  lemma {:induction false} OrderReplaces(a: Code, b: Code, b': Code, n: nat)
    requires Ascending(a + b, n) && forall n' | Ascending(b, n') :: Ascending(b', n')
    ensures Ascending(a + b', n)
  {
    if a == [] {
      assert a + b == b && a + b' == b';
    } else {
      assert (a + b)[0] == a[0] && (a + b)[1..] == a[1..] + b;
      assert (a + b')[0] == a[0] && (a + b')[1..] == a[1..] + b';
      OrderReplaces(a[1..], b, b', if a[0].Computes() then a[0].id + 1 else n);
    }
  }

  /** The filter's code has the instructions of the blocks in their order. */
  lemma {:induction false} EmitOrder(bs: Blocks, k: nat, n: nat, lo: nat)
    requires Ordered(bs) && k <= |bs| && Ascending(Flat(bs[k..]), lo)
    ensures Ascending(Emit(bs, k, n).code, lo)
    decreases |bs| - k
  {
    hide Ascending, Only, Start, Targeted, Emit;
    if k == |bs| {
      EmitEnd(bs, n);
      NothingAscends(lo);
    } else {
      var x := EmitBlock(bs, k, n);
      var c, rest, rest' := [Mark(bs[k].label_)] + bs[k].insts, Flat(bs[k + 1..]), Emit(bs, k + 1, n + |x.table|).code;
      EmitSplit(bs, k, n);
      FlatFrom(bs, k);
      assert Flat(bs[k..]) == c + rest;
      forall lo' | Ascending(rest, lo')
        ensures Ascending(rest', lo')
      {
        EmitOrder(bs, k + 1, n + |x.table|, lo');
      }
      if x.code == c {
        OrderReplaces(c, rest, rest', lo);
      } else {
        OrderSuffix(c, rest, lo);
        HandOffOrder(bs, k, n, rest', lo);
      }
    }
  }

  lemma {:induction false} NothingAscends(n: nat)
    ensures Ascending([], n)
  {
  }

  lemma {:induction false} HandOffOrder(bs: Blocks, k: nat, n: nat, rest: Code, lo: nat)
    requires Ordered(bs) && k < |bs| && Ascending(rest, lo)
    requires EmitBlock(bs, k, n).code != [Mark(bs[k].label_)] + bs[k].insts
    ensures Ascending(EmitBlock(bs, k, n).code + rest, lo)
  {
    hide Only, Start, Targeted;
    var h := HandOff(bs[k].label_, n).code;
    assert (h + rest)[1..] == [h[1]] + rest && ([h[1]] + rest)[1..] == rest && [] + rest == rest;
  }

  lemma {:induction false} BpfIrOrder(bs: Blocks, n: nat, lo: nat)
    requires Ordered(bs) && bs != [] && Ascending(Flat(bs), lo)
    ensures Ascending(BpfIr(bs, n).code, lo)
  {
    assert bs[0..] == bs;
    if Only(bs, 0) {
      var h := HandOff(bs[0].label_, n).code;
      assert h[1..] == [h[1]] && [h[1]][1..] == [];
    } else {
      EmitOrder(bs, 0, n, lo);
    }
  }

  // ---------- Identities ----------

  function DefsOf(c: Code): Defs {
    if c == [] then map[]
    else if c[0].Computes() then map[c[0].id := c[0]] + DefsOf(c[1..])
    else DefsOf(c[1..])
  }

  lemma {:induction false} DefsFromCode(c: Code, n: nat)
    requires Ascending(c, n)
    ensures forall id | id in DefsOf(c) ::
      n <= id && DefsOf(c)[id] in c && DefsOf(c)[id].Computes() && DefsOf(c)[id].id == id
    ensures DefsMatch(DefsOf(c), c)
  {
    if c != [] {
      DefsFromCode(c[1..], if c[0].Computes() then c[0].id + 1 else n);
    }
  }

  /** In disciplined code every operand refers to an older instruction of the code. */
  lemma {:induction false} OperandsAreOlder(defs: Defs, c: Code, st: seq<nat>, n: nat)
    requires Disciplined(c, st) && Ascending(c, n) && AllBelow(st, n) && DefsMatch(defs, c)
    requires forall k | k in st :: k in defs
    ensures AllKnown(defs, c)
    ensures forall i | i in c && i.Computes() :: RefersBelow(i, i.id, defs)
  {
    if c != [] {
      var i := c[0];
      assert i in c;
      OlderStep(defs, i, st, n);
      hide Step;
      OperandsAreOlder(defs, c[1..], Step(i, st).value, if i.Computes() then i.id + 1 else n);
    }
  }

  lemma {:induction false} OlderStep(defs: Defs, i: Inst, st: seq<nat>, n: nat)
    requires Step(i, st).Some? && AllBelow(st, n) && forall k | k in st :: k in defs
    requires i.Computes() ==> n <= i.id && i.id in defs
    ensures OperandsKnown(defs, i) && (i.Computes() ==> RefersBelow(i, i.id, defs))
    ensures AllBelow(Step(i, st).value, if i.Computes() then i.id + 1 else n)
    ensures forall k | k in Step(i, st).value :: k in defs
  {
    if i.Arith2? || i.Branch? {
      PopsFrom(st, i.b);
      PopsFrom(Pop1(st, i.b).value, i.a);
    } else if i.Arith1? {
      PopsFrom(st, i.a);
    } else if i.Store? {
      PopsFrom(st, i.src);
    }
  }

  lemma {:induction false} PopsFrom(st: seq<nat>, o: Operand)
    requires Pop1(st, o).Some?
    ensures o.Tmp? ==> o.id in st
    ensures forall k | k in Pop1(st, o).value :: k in st
  {
  }

  lemma {:induction false} DefsAreGrounded(c: Code, n: nat)
    requires Disciplined(c, []) && Ascending(c, n)
    ensures Grounded(DefsOf(c)) && AllKnown(DefsOf(c), c) && DefsMatch(DefsOf(c), c)
  {
    hide Disciplined, Ascending, DefsOf;
    DefsFromCode(c, n);
    OperandsAreOlder(DefsOf(c), c, [], n);
  }

  // ---------- Membership ----------

  /** Apart from its targets, every instruction that survives is one of the code's. */
  lemma {:induction false} PassesKeepInstructions(c: Code)
    ensures forall i' | i' in Live(Merged(c)) :: exists i | i in c :: i' == Retarget(Heads(c, None), i)
  {
    var heads := Heads(c, None);
    forall i' | i' in Live(Merged(c))
      ensures exists i | i in c :: i' == Retarget(heads, i)
    {
      LiveWithin(Merged(c));
      var k :| 0 <= k < |Merged(c)| && Merged(c)[k] == i';
      StripMarks(c, false);
      assert Strip(c, false)[k] in c;
    }
  }

  lemma {:induction false} LiveWithin(c: Code)
    ensures forall i | i in Live(c) :: i in c
  {
    SweepWithin(c, None);
    SettleWithin(Sweep(c, None));
  }

  lemma {:induction false} SettleWithin(c: Code)
    ensures forall i | i in Settle(c) :: i in c
    decreases |c|
  {
    var r := Purge(c, None, false, {});
    if r != c {
      PurgeWithin(c, None, false, {});
      SettleWithin(r);
    }
  }

  lemma {:induction false} BlockWithin(bs: Blocks, b: Block)
    requires b in bs
    ensures forall i | i in b.insts :: i in Flat(bs)
    ensures Mark(b.label_) in Flat(bs)
  {
    if bs[0] != b {
      BlockWithin(bs[1..], b);
    }
  }
}
