/** What a generated filter computes: it reads the code as module Reading says. */
module BpfSim {
  import opened Syntax
  import opened Ir
  import opened Bpf
  import opened BpfGen
  import opened Generated
  import opened Reading

  /** The operators that the grammar puts into instructions. */
  predicate Typed(i: Inst) {
    match i
    case Arith1(_, op, _) => op == UMINUS
    case Arith2(_, op, _, _) => IsArith(op)
    case Branch(op, _, _, _, _) => IsCompare(op)
    case _ => true
  }

  predicate Declares(idx: ArgIndex, o: Operand) {
    o.Mem? ==> o.name in idx
  }

  predicate OperandsDeclared(idx: ArgIndex, i: Inst) {
    match i
    case Arith1(_, _, a) => Declares(idx, a)
    case Arith2(_, _, a, b) => Declares(idx, a) && Declares(idx, b)
    case Branch(_, a, b, _, _) => Declares(idx, a) && Declares(idx, b)
    case _ => true
  }

  predicate Readable(idx: ArgIndex, c: Code) {
    forall i | i in c :: Typed(i) && OperandsDeclared(idx, i)
  }

  /** The arguments as the filter sees them. */
  predicate Matches(env: Env, idx: ArgIndex, data: Data) {
    forall x | x in idx :: idx[x] < |data.args| && Lookup(env, x) == data.args[idx[x]]
  }

  // ---------- Single lines ----------

  lemma {:induction false} DecodeLines()
    ensures Decode(BPF_LD | BPF_W | BPF_ABS) == LoadAbs && Decode(BPF_LD | BPF_W | BPF_K) == LoadImm
    ensures Decode(BPF_ST | BPF_W) == StoreM && Decode(BPF_LDX | BPF_MEM | BPF_W) == LoadXM
  {
  }

  lemma {:induction false} LoadLine(m: Machine, data: Data, o: Operand, idx: ArgIndex, rest: Filters, env: Env,
                                    tmp: Temps, a: Word, x: Word, mem: Word)
    requires !o.Tmp? && Declares(idx, o) && Matches(env, idx, data)
    ensures RunF(m, data, LoadArgumentOrInt(o, idx) + rest, a, x, mem) ==
      RunF(m, data, rest, Val(o, env, tmp).value, x, mem)
  {
    DecodeLines();
    hide Decode;
    assert (LoadArgumentOrInt(o, idx) + rest)[1..] == rest;
  }

  lemma {:induction false} ScratchLine(m: Machine, data: Data, rest: Filters, a: Word, x: Word, mem: Word)
    ensures RunF(m, data, [STORE_SCRATCH] + rest, a, x, mem) == RunF(m, data, rest, a, x, a)
    ensures RunF(m, data, [LOAD_SCRATCH] + rest, a, x, mem) == RunF(m, data, rest, a, mem, mem)
  {
    DecodeLines();
    hide Decode;
    assert ([STORE_SCRATCH] + rest)[1..] == rest && ([LOAD_SCRATCH] + rest)[1..] == rest;
  }

  lemma {:induction false} ZeroLine(m: Machine, data: Data, rest: Filters, a: Word, x: Word, mem: Word)
    ensures RunF(m, data, [Stmt(BPF_LD | BPF_W | BPF_K, Num(0))] + rest, a, x, mem) == RunF(m, data, rest, 0, x, mem)
  {
    DecodeLines();
    hide Decode;
    assert ([Stmt(BPF_LD | BPF_W | BPF_K, Num(0))] + rest)[1..] == rest;
  }

  /** What runs on with the value in A, or is rejected. */
  function Onto(m: Machine, data: Data, v: Option<Word>, rest: Filters, x: Word, mem: Word): Verdict {
    if v.Some? then RunF(m, data, rest, v.value, x, mem) else BadFilter
  }

  function AluX(op: OpCode): Filters {
    [Stmt(BPF_ALU | OpBits(op) | BPF_X, Num(0))]
  }

  function AluK(op: OpCode, o: Operand, idx: ArgIndex): Filters
    requires !o.Tmp?
  {
    [Stmt(BPF_ALU | OpBits(op) | AddressMode(o), KField(o, idx))]
  }

  lemma {:induction false} AluXLine(m: Machine, data: Data, op: OpCode, rest: Filters, a: Word, x: Word, mem: Word)
    requires IsArith(op)
    ensures RunF(m, data, AluX(op) + rest, a, x, mem) == Onto(m, data, ReadAlu(m, op, false, a, x), rest, x, mem)
  {
    DecodeArith(op);
    hide Decode, OpBits;
    assert (AluX(op) + rest)[1..] == rest;
  }

  lemma {:induction false} AluKLine(m: Machine, data: Data, op: OpCode, o: Operand, idx: ArgIndex, rest: Filters,
                                    a: Word, x: Word, mem: Word)
    requires IsArith(op) && !o.Tmp?
    ensures RunF(m, data, AluK(op, o, idx) + rest, a, x, mem) ==
      Onto(m, data, ReadAlu(m, op, o.Mem?, a, KValue(KField(o, idx))), rest, x, mem)
  {
    DecodeArith(op);
    hide Decode, OpBits, AbsoluteOp, KField, KValue;
    assert (AluK(op, o, idx) + rest)[1..] == rest;
  }

  function JumpX(i: Inst): Filters
    requires i.Branch?
  {
    [JumpLine(BPF_JMP | OpBits(i.op) | BPF_X, Num(0),
              At(if NeedSwapTarget(i.op) then i.f else i.t), At(if NeedSwapTarget(i.op) then i.t else i.f))]
  }

  function JumpK(i: Inst, o: Operand, idx: ArgIndex): Filters
    requires i.Branch? && !o.Tmp?
  {
    [JumpLine(BPF_JMP | OpBits(i.op) | AddressMode(o), KField(o, idx),
              At(if NeedSwapTarget(i.op) then i.f else i.t), At(if NeedSwapTarget(i.op) then i.t else i.f))]
  }

  lemma {:induction false} JumpXLine(m: Machine, data: Data, i: Inst, rest: Filters, a: Word, x: Word, mem: Word)
    requires i.Branch? && IsCompare(i.op)
    ensures RunF(m, data, JumpX(i) + rest, a, x, mem) ==
      GoTo(m, data, rest, At(if ReadTest(i.op, false, a, x) then i.t else i.f), a, x, mem)
  {
    DecodeCompare(i.op);
    hide Decode, OpBits, Compare, TableTest, NeedSwapTarget, GoTo;
    assert (JumpX(i) + rest)[1..] == rest;
  }

  lemma {:induction false} JumpKLine(m: Machine, data: Data, i: Inst, o: Operand, idx: ArgIndex, rest: Filters,
                                     a: Word, x: Word, mem: Word)
    requires i.Branch? && IsCompare(i.op) && !o.Tmp?
    ensures RunF(m, data, JumpK(i, o, idx) + rest, a, x, mem) ==
      GoTo(m, data, rest, At(if ReadTest(i.op, o.Mem?, a, KValue(KField(o, idx))) then i.t else i.f), a, x, mem)
  {
    DecodeCompare(i.op);
    hide Decode, OpBits, Compare, TableTest, AbsoluteTest, NeedSwapTarget, GoTo, KField, KValue;
    assert (JumpK(i, o, idx) + rest)[1..] == rest;
  }

  // ---------- What the generator believes ----------

  /** What is pending is in the registers as the generator believes: the youngest value in A,
      and in M[0] an older one, if the generator has noted it there. */
  predicate Agrees(st: seq<nat>, gs: GenState, tmp: Temps, a: Word, mem: Word, n: nat) {
    && AllBelow(st, n) && (forall k | k in st :: k in tmp)
    && (st != [] ==> tmp[st[|st| - 1]] == a)
    && (gs.aVal.Some? ==> gs.aVal.value < n && (gs.aVal.value in st ==> tmp[gs.aVal.value] == a))
    && (gs.m0Val.Some? ==>
       gs.m0Val.value < n && (gs.m0Val.value in st ==> tmp[gs.m0Val.value] == mem && gs.m0Val.value != st[|st| - 1]))
  }

  /** The scratch cell behind the instruction. */
  function Spilled(i: Inst, gs: GenState, a: Word, mem: Word): Word
    requires i.Arith1? || i.Arith2?
  {
    if Spills(i, gs) then a else mem
  }

  lemma {:induction false} ArithAgrees(i: Inst, st: seq<nat>, gs: GenState, idx: ArgIndex, tmp: Temps, a: Word,
                                       mem: Word, n: nat, v: Word)
    requires i.Arith1? || i.Arith2?
    requires Agrees(st, gs, tmp, a, mem, n) && Step(i, st).Some? && n <= i.id && GenInst(i, gs, idx).Some?
    ensures Agrees(Step(i, st).value, GenInst(i, gs, idx).value.1, tmp[i.id := v], v, Spilled(i, gs, a, mem), i.id + 1)
  {
    var p := ArithPops(i, st);
    ArithState(i, gs, idx);
    hide GenInst, Step;
    var st', id := p + [i.id], i.id;
    assert st'[|st'| - 1] == id;
    assert forall k | k in st' :: k in st || k == id;
    assert AllBelow(st', id + 1);
  }

  /** What an operation leaves pending: some of what was pending, and its own value. */
  lemma {:induction false} ArithPops(i: Inst, st: seq<nat>) returns (p: seq<nat>)
    requires (i.Arith1? || i.Arith2?) && Step(i, st).Some?
    ensures Step(i, st).value == p + [i.id] && forall k | k in p :: k in st
  {
    p := (if i.Arith2? then Pop2(st, i.a, i.b) else Pop1(st, i.a)).value;
  }

  /** What the generator believes behind it. */
  lemma {:induction false} ArithState(i: Inst, gs: GenState, idx: ArgIndex)
    requires (i.Arith1? || i.Arith2?) && GenInst(i, gs, idx).Some?
    ensures GenInst(i, gs, idx).value.1 ==
      GenState(Some(i.id), if IsPair(i) then None else if Spills(i, gs) then gs.aVal else gs.m0Val)
  {
    hide AluLines, UnaryLines;
  }

  lemma {:induction false} CallAgrees(i: Inst, st: seq<nat>, gs: GenState, tmp: Temps, a: Word, mem: Word, n: nat)
    requires i.Call? && Agrees(st, gs, tmp, a, mem, n) && Step(i, st).Some? && n <= i.id
    ensures Agrees(Step(i, st).value, gs, tmp[i.id := a], a, mem, i.id + 1)
  {
  }

  /** At the end of a block nothing is pending. */
  lemma {:induction false} EndAgrees(i: Inst, st: seq<nat>, gs: GenState, idx: ArgIndex, tmp: Temps, a: Word,
                                     mem: Word, n: nat)
    requires !i.Computes() && Agrees(st, gs, tmp, a, mem, n) && Step(i, st).Some? && GenInst(i, gs, idx).Some?
    ensures Step(i, st).value == []
    ensures forall a', mem' :: Agrees([], GenInst(i, gs, idx).value.1, map[], a', mem', n)
  {
    hide JumpLines;
  }

  // ---------- One operation ----------

  /** The generator and the machine in front of `i`. */
  predicate InFront(i: Inst, idx: ArgIndex, data: Data, st: seq<nat>, gs: GenState, env: Env, tmp: Temps, a: Word,
                    mem: Word, n: nat) {
    && Typed(i) && OperandsDeclared(idx, i) && Matches(env, idx, data)
    && Agrees(st, gs, tmp, a, mem, n) && Step(i, st).Some? && GenInst(i, gs, idx).Some?
  }

  /** The two operands that are pending: the younger one in A, the other in the scratch cell. */
  lemma {:induction false} PairIsHeld(i: Inst, st: seq<nat>, gs: GenState, idx: ArgIndex, env: Env, tmp: Temps,
                                      a: Word, mem: Word, n: nat)
    requires IsPair(i) && Agrees(st, gs, tmp, a, mem, n) && Step(i, st).Some? && GenInst(i, gs, idx).Some?
    ensures Val(i.b, env, tmp) == Some(a) && Val(i.a, env, tmp) == Some(mem)
    ensures i.Arith2? ==> !Spills(i, gs)
  {
    hide OpBits;
    assert st[..|st| - 1][|st| - 2] == st[|st| - 2];
  }

  /** The operand that is pending alone is in A. */
  lemma {:induction false} YoungestIsHeld(i: Inst, st: seq<nat>, gs: GenState, env: Env, tmp: Temps, a: Word,
                                          mem: Word, n: nat)
    requires Agrees(st, gs, tmp, a, mem, n) && Step(i, st).Some?
    ensures (i.Arith2? || i.Branch?) && i.a.Tmp? != i.b.Tmp? ==> Val(InA(i), env, tmp) == Some(a)
    ensures i.Arith1? && i.a.Tmp? ==> Val(i.a, env, tmp) == Some(a)
  {
  }

  /** The lines behind the spill. */
  function CoreLines(i: Inst, idx: ArgIndex): Filters
    requires i.Arith1? || i.Arith2?
  {
    if i.Arith1? then UnaryLines(i.op, i.a, idx)
    else if IsPair(i) then [LOAD_SCRATCH] + AluX(i.op)
    else (if InA(i).Tmp? then [] else LoadArgumentOrInt(i.a, idx)) + AluK(i.op, Other(i), idx)
  }

  lemma {:induction false} ArithLines(i: Inst, gs: GenState, idx: ArgIndex)
    requires (i.Arith1? || i.Arith2?) && GenInst(i, gs, idx).Some?
    ensures GenInst(i, gs, idx).value.0 == (if Spills(i, gs) then [STORE_SCRATCH] else []) + CoreLines(i, idx)
  {
    hide OpBits, AddressMode, KField, LoadArgumentOrInt, UnaryLines;
    if i.Arith2? && InA(i).Tmp? && !IsPair(i) {
      assert [] + AluK(i.op, Other(i), idx) == AluK(i.op, Other(i), idx);
    }
  }

  /** The lines of an arithmetic instruction compute its reading; the scratch cell holds what
      was in A if that was still pending. */
  lemma {:induction false} ArithReads(m: Machine, data: Data, idx: ArgIndex, i: Inst, st: seq<nat>, gs: GenState,
                                      rest: Filters, env: Env, tmp: Temps, a: Word, x: Word, mem: Word, n: nat)
    requires (i.Arith1? || i.Arith2?) && InFront(i, idx, data, st, gs, env, tmp, a, mem, n)
    ensures RunF(m, data, GenInst(i, gs, idx).value.0 + rest, a, x, mem) ==
      Onto(m, data, ReadArith(m, idx, i, env, tmp, x), rest, XAfter(i, env, tmp, x), Spilled(i, gs, a, mem))
  {
    hide RunF, Decode, OpBits, Matches, AddressMode, KField, LoadArgumentOrInt, UnaryLines, ReadAlu, KValue, GenInst,
      Step, Agrees;
    ArithLines(i, gs, idx);
    var mem' := Spilled(i, gs, a, mem);
    var core := CoreLines(i, idx) + rest;
    if Spills(i, gs) {
      assert [STORE_SCRATCH] + CoreLines(i, idx) + rest == [STORE_SCRATCH] + core;
      ScratchLine(m, data, core, a, x, mem);
    } else {
      assert [] + CoreLines(i, idx) + rest == core;
    }
    YoungestIsHeld(i, st, gs, env, tmp, a, mem, n);
    if i.Arith1? {
      NegationReads(m, data, i, idx, rest, env, tmp, a, x, mem');
    } else if IsPair(i) {
      PairIsHeld(i, st, gs, idx, env, tmp, a, mem, n);
      assert core == [LOAD_SCRATCH] + (AluX(i.op) + rest);
      ScratchLine(m, data, AluX(i.op) + rest, a, x, mem);
      AluXLine(m, data, i.op, rest, a, mem, mem);
    } else if InA(i).Tmp? {
      assert core == AluK(i.op, Other(i), idx) + rest;
      AluKLine(m, data, i.op, Other(i), idx, rest, a, x, mem');
    } else {
      assert core == LoadArgumentOrInt(i.a, idx) + (AluK(i.op, i.b, idx) + rest);
      LoadLine(m, data, i.a, idx, AluK(i.op, i.b, idx) + rest, env, tmp, a, x, mem');
      AluKLine(m, data, i.op, i.b, idx, rest, Val(i.a, env, tmp).value, x, mem');
    }
  }

  /** The lines of a negation compute zero minus X, whatever its operand is. */
  lemma {:induction false} NegationReads(m: Machine, data: Data, i: Inst, idx: ArgIndex, rest: Filters, env: Env,
                                         tmp: Temps, a: Word, x: Word, mem: Word)
    requires i.Arith1? && Typed(i) && OperandsDeclared(idx, i) && Matches(env, idx, data)
    ensures RunF(m, data, UnaryLines(UMINUS, i.a, idx) + rest, a, x, mem) ==
      RunF(m, data, rest, m.alu(MINUS, 0, x), x, mem)
  {
    var zero := Stmt(BPF_LD | BPF_W | BPF_K, Num(0));
    assert Stmt(BPF_TAX, Num(0)) == zero && BPF_ALU | BPF_SUB | BPF_X == BPF_ALU | OpBits(MINUS) | BPF_X;
    var lines := [zero] + ([zero] + (AluX(MINUS) + rest));
    hide RunF, Matches, OpBits;
    var a' := a;
    if i.a.Tmp? {
      assert UnaryLines(UMINUS, i.a, idx) + rest == lines;
    } else {
      assert UnaryLines(UMINUS, i.a, idx) + rest == LoadArgumentOrInt(i.a, idx) + lines;
      LoadLine(m, data, i.a, idx, lines, env, tmp, a, x, mem);
      a' := Val(i.a, env, tmp).value;
    }
    ZeroLine(m, data, [zero] + (AluX(MINUS) + rest), a', x, mem);
    ZeroLine(m, data, AluX(MINUS) + rest, 0, x, mem);
    AluXLine(m, data, MINUS, rest, 0, x, mem);
  }

  lemma {:induction false} BranchLines(i: Inst, gs: GenState, idx: ArgIndex)
    requires i.Branch? && GenInst(i, gs, idx).Some?
    ensures GenInst(i, gs, idx).value.0 ==
      if IsPair(i) then [LOAD_SCRATCH] + JumpX(i)
      else (if InA(i).Tmp? then [] else LoadArgumentOrInt(i.a, idx)) + JumpK(i, Other(i), idx)
  {
    hide OpBits, NeedSwapTarget, AddressMode, KField, LoadArgumentOrInt;
    if InA(i).Tmp? && !IsPair(i) {
      assert [] + JumpK(i, Other(i), idx) == JumpK(i, Other(i), idx);
    }
  }

  /** The lines of a conditional branch go where its reading goes. */
  lemma {:induction false} BranchReads(m: Machine, data: Data, idx: ArgIndex, i: Inst, st: seq<nat>, gs: GenState,
                                       rest: Filters, env: Env, tmp: Temps, a: Word, x: Word, mem: Word, n: nat)
    requires i.Branch? && InFront(i, idx, data, st, gs, env, tmp, a, mem, n)
    ensures Val(InA(i), env, tmp).Some? && Beside(idx, i, env, tmp).Some?
    ensures var u, k := Val(InA(i), env, tmp).value, Beside(idx, i, env, tmp).value;
      RunF(m, data, GenInst(i, gs, idx).value.0 + rest, a, x, mem) ==
      GoTo(m, data, rest, At(if ReadTest(i.op, Other(i).Mem?, u, k) then i.t else i.f), u, XAfter(i, env, tmp, x), mem)
  {
    hide RunF, GoTo, Decode, OpBits, ReadTest, NeedSwapTarget, Matches, KField, LoadArgumentOrInt, KValue, GenInst,
      Step, Agrees;
    BranchLines(i, gs, idx);
    YoungestIsHeld(i, st, gs, env, tmp, a, mem, n);
    var lines := GenInst(i, gs, idx).value.0 + rest;
    if IsPair(i) {
      PairIsHeld(i, st, gs, idx, env, tmp, a, mem, n);
      assert lines == [LOAD_SCRATCH] + (JumpX(i) + rest);
      ScratchLine(m, data, JumpX(i) + rest, a, x, mem);
      JumpXLine(m, data, i, rest, a, mem, mem);
    } else if InA(i).Tmp? {
      assert lines == JumpK(i, Other(i), idx) + rest;
      JumpKLine(m, data, i, Other(i), idx, rest, a, x, mem);
    } else {
      assert lines == LoadArgumentOrInt(i.a, idx) + (JumpK(i, i.b, idx) + rest);
      LoadLine(m, data, i.a, idx, JumpK(i, i.b, idx) + rest, env, tmp, a, x, mem);
      JumpKLine(m, data, i, i.b, idx, rest, Val(i.a, env, tmp).value, x, mem);
    }
  }

  // ---------- Jumps ----------

  lemma {:induction false} AfterLineConcat(a: Filters, b: Filters, l: Label)
    requires LabelLine(l) in a + b
    ensures AfterLine(a + b, l) == if LabelLine(l) in b then AfterLine(b, l) else AfterLine(a, l) + b
  {
    if a == [] {
      assert a + b == b;
    } else {
      assert (a + b)[1..] == a[1..] + b;
      if LabelLine(l) in a[1..] + b {
        AfterLineConcat(a[1..], b, l);
      }
    }
  }

  lemma {:induction false} OwnLabelOnly(i: Inst, gs: GenState, idx: ArgIndex, l: Label)
    requires GenInst(i, gs, idx).Some?
    ensures LabelLine(l) in GenInst(i, gs, idx).value.0 <==> i == Mark(l)
  {
  }

  /** The lines generated for code mark the labels of the code. */
  lemma {:induction false} GenLabels(c: Code, gs: GenState, idx: ArgIndex, l: Label)
    requires GenAll(c, gs, idx).Some?
    ensures LabelLine(l) in GenAll(c, gs, idx).value <==> Mark(l) in c
  {
    if c != [] {
      hide GenInst;
      OwnLabelOnly(c[0], gs, idx, l);
      GenLabels(c[1..], GenInst(c[0], gs, idx).value.1, idx, l);
    }
  }

  /** What the generator believes refers to what was computed before. */
  predicate Noted(gs: GenState, n: nat) {
    (gs.aVal.Some? ==> gs.aVal.value < n) && (gs.m0Val.Some? ==> gs.m0Val.value < n)
  }

  lemma {:induction false} KnownNext(i: Inst, gs: GenState, idx: ArgIndex, n: nat)
    requires Noted(gs, n) && GenInst(i, gs, idx).Some? && (i.Computes() ==> n <= i.id)
    ensures Noted(GenInst(i, gs, idx).value.1, if i.Computes() then i.id + 1 else n)
  {
    hide AluLines, UnaryLines, JumpLines;
  }

  /** No line of `rest` repeats a label of the code. */
  predicate Apart(c: Code, rest: Filters) {
    forall i | i in c && i.Mark? :: LabelLine(i.lbl) !in rest
  }

  /** The filter's code behind a label is the code generated for what follows its mark. */
  lemma {:induction false} GenAfter(c: Code, st: seq<nat>, gs: GenState, idx: ArgIndex, rest: Filters, l: Label, n: nat)
    returns (gs': GenState, n': nat)
    requires Disciplined(c, st) && Ascending(c, n) && UniqueMarks(c) && Noted(gs, n)
    requires Mark(l) in c && Apart(c, rest) && GenAll(c, gs, idx).Some?
    ensures Disciplined(After(c, l), []) && Ascending(After(c, l), n') && Noted(gs', n')
    ensures GenAll(After(c, l), gs', idx).Some?
    ensures LabelLine(l) in GenAll(c, gs, idx).value + rest
    ensures AfterLine(GenAll(c, gs, idx).value + rest, l) == GenAll(After(c, l), gs', idx).value + rest
  {
    var i := c[0];
    var lines, gs1 := GenInst(i, gs, idx).value.0, GenInst(i, gs, idx).value.1;
    var n1 := if i.Computes() then i.id + 1 else n;
    var tail := GenAll(c[1..], gs1, idx).value + rest;
    assert GenAll(c, gs, idx).value + rest == lines + tail;
    GenLabels(c[1..], gs1, idx, l);
    if i == Mark(l) {
      gs', n' := gs1, n1;
      assert lines == [LabelLine(l)] && ([LabelLine(l)] + tail)[1..] == tail;
    } else {
      KnownNext(i, gs, idx, n);
      hide GenInst, Step;
      gs', n' := GenAfter(c[1..], Step(i, st).value, gs1, idx, rest, l, n1);
      AfterLineConcat(lines, tail, l);
    }
  }

  // ---------- Simulation ----------

  /** Everything about the generator and the pending temporaries that a run relies on. */
  predicate InStep(c: Code, idx: ArgIndex, st: seq<nat>, gs: GenState, tmp: Temps, a: Word, mem: Word, n: nat) {
    && Readable(idx, c) && Disciplined(c, st) && Ascending(c, n) && UniqueMarks(c)
    && GenAll(c, gs, idx).Some? && Agrees(st, gs, tmp, a, mem, n)
  }

  /** What the filter does when its code reads so; `rest` are the lines behind it. */
  predicate Does(m: Machine, data: Data, reading: Reading, rest: Filters, mem: Word, v: Verdict) {
    match reading
    case Settled(val) => v == Verdict(ReturnAction(val))
    case RunsOn(r) => v == RunF(m, data, rest, r.a, r.x, mem)
    case Rejected => v == BadFilter
    case Lost => true
  }

  lemma {:induction false} StepsOn(c: Code, idx: ArgIndex, st: seq<nat>, gs: GenState, tmp: Temps, a: Word, mem: Word,
                                   n: nat, rest: Filters)
    requires c != [] && InStep(c, idx, st, gs, tmp, a, mem, n) && Apart(c, rest)
    ensures Typed(c[0]) && OperandsDeclared(idx, c[0]) && Step(c[0], st).Some? && (c[0].Computes() ==> n <= c[0].id)
    ensures GenInst(c[0], gs, idx).Some? && Apart(c[1..], rest)
    ensures var (lines, gs') := GenInst(c[0], gs, idx).value;
      && GenAll(c[1..], gs', idx).Some?
      && GenAll(c, gs, idx).value + rest == lines + (GenAll(c[1..], gs', idx).value + rest)
      && Readable(idx, c[1..]) && Disciplined(c[1..], Step(c[0], st).value) && UniqueMarks(c[1..])
      && Ascending(c[1..], if c[0].Computes() then c[0].id + 1 else n)
  {
    assert c[0] in c;
    hide GenInst, Step, Typed, OperandsDeclared;
  }

  /** Accumulator simulation: whatever lines follow, the filter does what the reading of its
      code says. */
  lemma {:induction false} FilterReads(m: Machine, data: Data, idx: ArgIndex, c: Code, st: seq<nat>, gs: GenState,
                                       rest: Filters, env: Env, tmp: Temps, r: Regs, mem: Word,
                                       n: nat) returns (mem': Word)
    requires InStep(c, idx, st, gs, tmp, r.a, mem, n) && Matches(env, idx, data) && Apart(c, rest)
    ensures Does(m, data, Read(m, idx, c, env, tmp, r), rest, mem',
      RunF(m, data, GenAll(c, gs, idx).value + rest, r.a, r.x, mem))
    decreases |c|, 1
  {
    hide *;
    if c == [] {
      NothingReads(m, data, idx, gs, rest, env, tmp, r, mem);
      mem' := mem;
    } else if c[0].Arith1? || c[0].Arith2? {
      mem' := ArithStep(m, data, idx, c, st, gs, rest, env, tmp, r, mem, n);
    } else if c[0].Branch? {
      mem' := BranchStep(m, data, idx, c, st, gs, rest, env, tmp, r, mem, n);
    } else if c[0].Return? {
      Generates(c, idx, st, gs, tmp, r.a, mem, n);
      ReturnReads(m, data, idx, c, gs, rest, env, tmp, r, mem);
      mem' := mem;
    } else {
      StepsOn(c, idx, st, gs, tmp, r.a, mem, n, rest);
      var st', gs', tmp', n' := PlainStep(m, data, idx, c, st, gs, rest, env, tmp, r, mem, n);
      mem' := FilterReads(m, data, idx, c[1..], st', gs', rest, env, tmp', r, mem, n');
    }
  }

  lemma {:induction false} Generates(c: Code, idx: ArgIndex, st: seq<nat>, gs: GenState, tmp: Temps, a: Word,
                                     mem: Word, n: nat)
    requires InStep(c, idx, st, gs, tmp, a, mem, n)
    ensures GenAll(c, gs, idx).Some?
  {
    hide GenAll, Readable, Disciplined, Ascending, UniqueMarks, Agrees;
  }

  lemma {:induction false} NothingReads(m: Machine, data: Data, idx: ArgIndex, gs: GenState, rest: Filters, env: Env,
                                        tmp: Temps, r: Regs, mem: Word)
    ensures GenAll([], gs, idx).Some?
    ensures Does(m, data, Read(m, idx, [], env, tmp, r), rest, mem,
      RunF(m, data, GenAll([], gs, idx).value + rest, r.a, r.x, mem))
  {
    hide RunF;
    assert [] + rest == rest;
  }

  lemma {:induction false} ReturnReads(m: Machine, data: Data, idx: ArgIndex, c: Code, gs: GenState, rest: Filters,
                                       env: Env, tmp: Temps, r: Regs, mem: Word)
    requires c != [] && c[0].Return? && GenAll(c, gs, idx).Some?
    ensures Does(m, data, Read(m, idx, c, env, tmp, r), rest, mem,
      RunF(m, data, GenAll(c, gs, idx).value + rest, r.a, r.x, mem))
  {
    hide ReturnAction;
    var i := c[0];
    var tail := GenAll(c[1..], gs, idx).value + rest;
    assert GenAll(c, gs, idx).value + rest == [Ret(ReturnAction(i.val))] + tail;
    hide GenAll;
    assert ([Ret(ReturnAction(i.val))] + tail)[0] == Ret(ReturnAction(i.val));
  }

  /** Calls, stores, jumps and labels: the filter and the reading go on behind them. */
  lemma {:induction false} PlainStep(m: Machine, data: Data, idx: ArgIndex, c: Code, st: seq<nat>, gs: GenState,
                                     rest: Filters, env: Env, tmp: Temps, r: Regs, mem: Word, n: nat)
    returns (st': seq<nat>, gs': GenState, tmp': Temps, n': nat)
    requires c != [] && (c[0].Call? || c[0].Store? || c[0].Jump? || c[0].Mark?)
    requires InStep(c, idx, st, gs, tmp, r.a, mem, n) && Apart(c, rest)
    ensures InStep(c[1..], idx, st', gs', tmp', r.a, mem, n') && GenAll(c, gs, idx).Some?
    ensures Read(m, idx, c, env, tmp, r) == Read(m, idx, c[1..], env, tmp', r)
    ensures RunF(m, data, GenAll(c, gs, idx).value + rest, r.a, r.x, mem) ==
      RunF(m, data, GenAll(c[1..], gs', idx).value + rest, r.a, r.x, mem)
  {
    StepsOn(c, idx, st, gs, tmp, r.a, mem, n, rest);
    var i := c[0];
    gs' := GenInst(i, gs, idx).value.1;
    var tail := GenAll(c[1..], gs', idx).value + rest;
    PlainLine(m, data, i, gs, idx, tail, r, mem);
    hide GenAll, RunF, Readable, Disciplined, Ascending, UniqueMarks, Typed, OperandsDeclared, Apart;
    if i.Call? {
      hide Agrees;
      CallAgrees(i, st, gs, tmp, r.a, mem, n);
      st', tmp', n' := Step(i, st).value, tmp[i.id := r.a], i.id + 1;
    } else {
      hide Agrees;
      EndAgrees(i, st, gs, idx, tmp, r.a, mem, n);
      st', tmp', n' := [], map[], n;
    }
  }

  lemma {:induction false} PlainLine(m: Machine, data: Data, i: Inst, gs: GenState, idx: ArgIndex, tail: Filters,
                                     r: Regs, mem: Word)
    requires i.Call? || i.Store? || i.Jump? || i.Mark?
    ensures GenInst(i, gs, idx).Some?
    ensures RunF(m, data, GenInst(i, gs, idx).value.0 + tail, r.a, r.x, mem) == RunF(m, data, tail, r.a, r.x, mem)
  {
    if i.Mark? {
      assert ([LabelLine(i.lbl)] + tail)[1..] == tail;
    } else {
      assert [] + tail == tail;
    }
  }

  lemma {:induction false} ArithStep(m: Machine, data: Data, idx: ArgIndex, c: Code, st: seq<nat>, gs: GenState,
                                     rest: Filters, env: Env, tmp: Temps, r: Regs, mem: Word,
                                     n: nat) returns (mem': Word)
    requires c != [] && (c[0].Arith1? || c[0].Arith2?)
    requires InStep(c, idx, st, gs, tmp, r.a, mem, n) && Matches(env, idx, data) && Apart(c, rest)
    ensures Does(m, data, Read(m, idx, c, env, tmp, r), rest, mem',
      RunF(m, data, GenAll(c, gs, idx).value + rest, r.a, r.x, mem))
    decreases |c|, 0
  {
    StepsOn(c, idx, st, gs, tmp, r.a, mem, n, rest);
    var i := c[0];
    var gs' := GenInst(i, gs, idx).value.1;
    var tail := GenAll(c[1..], gs', idx).value + rest;
    hide GenInst, GenAll, Step, RunF, Matches, ReturnAction, Agrees, Readable, Disciplined, Ascending, UniqueMarks,
      ReadArith, XAfter, Spilled, Does, Typed, OperandsDeclared, Apart;
    ArithReads(m, data, idx, i, st, gs, tail, env, tmp, r.a, r.x, mem, n);
    var v := ReadArith(m, idx, i, env, tmp, r.x);
    mem' := Spilled(i, gs, r.a, mem);
    if v.Some? {
      ArithAgrees(i, st, gs, idx, tmp, r.a, mem, n, v.value);
      mem' := FilterReads(m, data, idx, c[1..], Step(i, st).value, gs', rest, env, tmp[i.id := v.value],
        Regs(v.value, XAfter(i, env, tmp, r.x)), mem', i.id + 1);
    } else {
      RejectedDoes(m, data, rest, mem');
    }
  }

  lemma {:induction false} RejectedDoes(m: Machine, data: Data, rest: Filters, mem: Word)
    ensures Does(m, data, Rejected, rest, mem, BadFilter) && forall v :: Does(m, data, Lost, rest, mem, v)
  {
  }

  lemma {:induction false} BranchStep(m: Machine, data: Data, idx: ArgIndex, c: Code, st: seq<nat>, gs: GenState,
                                      rest: Filters, env: Env, tmp: Temps, r: Regs, mem: Word,
                                      n: nat) returns (mem': Word)
    requires c != [] && c[0].Branch?
    requires InStep(c, idx, st, gs, tmp, r.a, mem, n) && Matches(env, idx, data) && Apart(c, rest)
    ensures Does(m, data, Read(m, idx, c, env, tmp, r), rest, mem',
      RunF(m, data, GenAll(c, gs, idx).value + rest, r.a, r.x, mem))
    decreases |c|, 0
  {
    StepsOn(c, idx, st, gs, tmp, r.a, mem, n, rest);
    var i := c[0];
    var gs' := GenInst(i, gs, idx).value.1;
    var tail := GenAll(c[1..], gs', idx).value + rest;
    hide GenInst, GenAll, Step, RunF, GoTo, Matches, ReturnAction, Readable, Disciplined, Ascending, UniqueMarks,
      ReadTest, ReadJump, XAfter, Does, Typed, OperandsDeclared, Apart;
    BranchReads(m, data, idx, i, st, gs, tail, env, tmp, r.a, r.x, mem, n);
    assert Noted(gs, n);
    hide Agrees;
    EndAgrees(i, st, gs, idx, tmp, r.a, mem, n);
    assert Noted(gs', n) by { KnownNext(i, gs, idx, n); }
    var u, k := Val(InA(i), env, tmp).value, Beside(idx, i, env, tmp).value;
    var to := if ReadTest(i.op, Other(i).Mem?, u, k) then i.t else i.f;
    mem' := JumpReads(m, data, idx, c[1..], gs', rest, to, env, Regs(u, XAfter(i, env, tmp, r.x)), mem, n);
  }

  lemma {:induction false} JumpReads(m: Machine, data: Data, idx: ArgIndex, c: Code, gs: GenState, rest: Filters,
                                     l: Label, env: Env, r: Regs, mem: Word, n: nat) returns (mem': Word)
    requires Readable(idx, c) && Disciplined(c, []) && Ascending(c, n) && UniqueMarks(c) && GenAll(c, gs, idx).Some?
    requires Noted(gs, n)
    requires Matches(env, idx, data) && Apart(c, rest)
    ensures Does(m, data, ReadJump(m, idx, c, l, env, r), rest, mem',
      GoTo(m, data, GenAll(c, gs, idx).value + rest, At(l), r.a, r.x, mem))
    decreases |c|, 0
  {
    hide RunF, Read, Matches;
    mem' := mem;
    if Mark(l) in c {
      var gs', n' := GenAfter(c, [], gs, idx, rest, l, n);
      AfterKeeps(c, l, {});
      AfterWithin(c, l);
      assert Agrees([], gs', map[], r.a, mem, n');
      assert Readable(idx, After(c, l)) && Apart(After(c, l), rest);
      hide Does, Agrees, Disciplined, Ascending, UniqueMarks;
      mem' := FilterReads(m, data, idx, After(c, l), [], gs', rest, env, map[], r, mem, n');
    } else {
      RejectedDoes(m, data, rest, mem);
    }
  }
}
