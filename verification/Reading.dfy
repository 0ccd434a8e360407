/** How the filter reads code: what its accumulator machine makes of each instruction, whether
    that is what was meant or not, and exactly when it is. */
module Reading {
  import opened Syntax
  import opened Ir
  import opened Bpf
  import opened BpfGen

  // ---------- What becomes of an operator ----------

  /** The comparison that the table makes of an operator; for `!=`, `<` and `<=` the targets are
      exchanged. */
  function TableTest(op: OpCode): OpCode {
    if op == NE then EQ else if op == LT then GT else if op == LE then GE else op
  }

  /** An argument in the K field is encoded with the absolute mode, whose bit is part of the
      operation. */
  function AbsoluteTest(op: OpCode): OpCode {
    if TableTest(op) == EQ then GE else TableTest(op)
  }

  /** The same of an arithmetic operation; what becomes of `%` is no operation at all. */
  function AbsoluteOp(op: OpCode): Option<OpCode> {
    match op
    case PLUS => Some(MULT)
    case MINUS => Some(DIV)
    case BITOR => Some(SHL)
    case BITAND => Some(SHR)
    case MOD => None
    case _ => Some(op)
  }

  lemma {:induction false} DecodeCompare(op: OpCode)
    requires IsCompare(op)
    ensures Decode(BPF_JMP | OpBits(op) | BPF_K) == Comparison(TableTest(op), false)
    ensures Decode(BPF_JMP | OpBits(op) | BPF_X) == Comparison(TableTest(op), true)
    ensures Decode(BPF_JMP | OpBits(op) | BPF_ABS) == Comparison(AbsoluteTest(op), false)
  {
  }

  lemma {:induction false} DecodeArith(op: OpCode)
    requires IsArith(op)
    ensures Decode(BPF_ALU | OpBits(op) | BPF_K) == Alu(op, false)
    ensures Decode(BPF_ALU | OpBits(op) | BPF_X) == Alu(op, true)
    ensures Decode(BPF_ALU | OpBits(op) | BPF_ABS) ==
      if AbsoluteOp(op).Some? then Alu(AbsoluteOp(op).value, false) else Illegal
  {
  }

  // ---------- The reading of one instruction ----------

  /** The registers A and X. */
  datatype Regs = Regs(a: Word, x: Word)

  /** The operand that is in A: a computed second operand takes the place of the first. */
  function InA(i: Inst): Operand
    requires i.Arith2? || i.Branch?
  {
    if i.b.Tmp? then i.b else i.a
  }

  function Other(i: Inst): Operand
    requires i.Arith2? || i.Branch?
  {
    if i.b.Tmp? then i.a else i.b
  }

  /** Both operands are computed: the first waits in the scratch cell and goes through X. */
  predicate IsPair(i: Inst) {
    (i.Arith2? || i.Branch?) && i.a.Tmp? && i.b.Tmp?
  }

  /** What the operation finds beside A: in X the first operand, or in the K field a literal or
      the offset of an argument. */
  function Beside(idx: ArgIndex, i: Inst, env: Env, tmp: Temps): Option<Word>
    requires i.Arith2? || i.Branch?
  {
    var o := Other(i);
    if o.Tmp? then Val(o, env, tmp) else Some(KValue(KField(o, idx)))
  }

  function ReadAlu(m: Machine, op: OpCode, absolute: bool, u: Word, k: Word): Option<Word> {
    var o := if absolute then AbsoluteOp(op) else Some(op);
    if o.Some? && !Faults(o.value, k) then Some(m.alu(o.value, u, k)) else None
  }

  predicate ReadTest(op: OpCode, absolute: bool, u: Word, k: Word) {
    Compare(if absolute then AbsoluteTest(op) else TableTest(op), u, k) != NeedSwapTarget(op)
  }

  /** What an arithmetic instruction leaves in A.  A negation is zero minus whatever X holds,
      because `BPF_TAX` without its class is a load. */
  function ReadArith(m: Machine, idx: ArgIndex, i: Inst, env: Env, tmp: Temps, x: Word): Option<Word>
    requires i.Arith1? || i.Arith2?
  {
    if i.Arith1? then Some(m.alu(MINUS, 0, x))
    else
      var u, k := Val(InA(i), env, tmp), Beside(idx, i, env, tmp);
      if u.Some? && k.Some? then ReadAlu(m, i.op, Other(i).Mem?, u.value, k.value) else None
  }

  /** X holds the first operand of the last operation on two computed operands. */
  function XAfter(i: Inst, env: Env, tmp: Temps, x: Word): Word {
    if IsPair(i) && Val(i.a, env, tmp).Some? then Val(i.a, env, tmp).value else x
  }

  // ---------- The reading of code ----------

  /** A filter returns, or runs on into the lines behind it, or is rejected, or jumps to a label
      that it does not have. */
  datatype Reading = Settled(val: RetVal) | RunsOn(regs: Regs) | Rejected | Lost

  /** Calls, stores and unconditional jumps have no lines: a call's result is what A holds. */
  function Read(m: Machine, idx: ArgIndex, c: Code, env: Env, tmp: Temps, r: Regs): Reading
    decreases |c|
  {
    if c == [] then RunsOn(r)
    else
      var i, rest := c[0], c[1..];
      match i
      case Mark(_) => Read(m, idx, rest, env, map[], r)
      case Return(val) => Settled(val)
      case Call(id, _, _) => Read(m, idx, rest, env, tmp[id := r.a], r)
      case Store(_, _) => Read(m, idx, rest, env, map[], r)
      case Jump(_) => Read(m, idx, rest, env, map[], r)
      case Branch(op, _, _, t, f) =>
        var u, k := Val(InA(i), env, tmp), Beside(idx, i, env, tmp);
        if u.Some? && k.Some? then
          ReadJump(m, idx, rest, if ReadTest(op, Other(i).Mem?, u.value, k.value) then t else f, env,
            Regs(u.value, XAfter(i, env, tmp, r.x)))
        else Lost
      case _ =>
        var v := ReadArith(m, idx, i, env, tmp, r.x);
        if v.Some? then Read(m, idx, rest, env, tmp[i.id := v.value], Regs(v.value, XAfter(i, env, tmp, r.x)))
        else Rejected
  }

  function ReadJump(m: Machine, idx: ArgIndex, rest: Code, l: Label, env: Env, r: Regs): Reading
    decreases |rest|
  {
    if Mark(l) in rest then Read(m, idx, After(rest, l), env, map[], r) else Lost
  }

  // ---------- When the reading is what was meant ----------

  /** The branch goes where it is meant to go. */
  predicate RightTest(idx: ArgIndex, i: Inst, env: Env, tmp: Temps)
    requires i.Branch? && Val(i.a, env, tmp).Some? && Val(i.b, env, tmp).Some?
  {
    ReadTest(i.op, Other(i).Mem?, Val(InA(i), env, tmp).value, Beside(idx, i, env, tmp).value)
    == Compare(i.op, Val(i.a, env, tmp).value, Val(i.b, env, tmp).value)
  }

  /** On these arguments every instruction that is performed is read as it is meant.  Of a call
      or a store that is never said. */
  predicate ReadsRight(m: Machine, idx: ArgIndex, c: Code, env: Env, tmp: Temps, r: Regs)
    decreases |c|
  {
    if c == [] then true
    else
      var i, rest := c[0], c[1..];
      match i
      case Mark(_) => ReadsRight(m, idx, rest, env, map[], r)
      case Return(_) => true
      case Call(_, _, _) => false
      case Store(_, _) => false
      case Jump(_) => false
      case Branch(op, a, b, t, f) =>
        var va, vb := Val(a, env, tmp), Val(b, env, tmp);
        va.Some? && vb.Some? ==>
          && RightTest(idx, i, env, tmp)
          && JumpsRight(m, idx, rest, if Compare(op, va.value, vb.value) then t else f, env,
               Regs(Val(InA(i), env, tmp).value, XAfter(i, env, tmp, r.x)))
      case _ =>
        var v := Result(m, i, env, tmp);
        v.Some? ==>
          && ReadArith(m, idx, i, env, tmp, r.x) == v
          && ReadsRight(m, idx, rest, env, tmp[i.id := v.value], Regs(v.value, XAfter(i, env, tmp, r.x)))
  }

  predicate JumpsRight(m: Machine, idx: ArgIndex, rest: Code, l: Label, env: Env, r: Regs)
    decreases |rest|
  {
    Mark(l) in rest ==> ReadsRight(m, idx, After(rest, l), env, map[], r)
  }

  /** Code that is read right returns what it means. */
  lemma {:induction false} RightReads(m: Machine, idx: ArgIndex, c: Code, env: Env, tmp: Temps, r: Regs)
    requires ReadsRight(m, idx, c, env, tmp, r) && Run(m, c, env, tmp).Returned?
    ensures Read(m, idx, c, env, tmp, r) == Settled(Run(m, c, env, tmp).val)
    decreases |c|
  {
    hide ReadTest, Compare, ReadArith, Result, XAfter;
    var i, rest := c[0], c[1..];
    if i.Mark? {
      RightReads(m, idx, rest, env, map[], r);
    } else if i.Branch? {
      var va, vb := Val(i.a, env, tmp).value, Val(i.b, env, tmp).value;
      var to := if Compare(i.op, va, vb) then i.t else i.f;
      RightReads(m, idx, After(rest, to), env, map[], Regs(Val(InA(i), env, tmp).value, XAfter(i, env, tmp, r.x)));
    } else if i.Computes() {
      var v := Result(m, i, env, tmp).value;
      RightReads(m, idx, rest, env, tmp[i.id := v], Regs(v, XAfter(i, env, tmp, r.x)));
    }
  }

  // ---------- Code that is always read right ----------

  /** Instructions that the filter reads as they are meant, whatever the arguments are. */
  predicate Meant(i: Inst) {
    match i
    case Arith1(_, _, _) => false
    case Arith2(_, op, a, b) =>
      if b.Tmp? then IsCommutative(op) && !a.Mem? else IsArith(op) && b.Imm? && !Faults(op, b.n)
    case Branch(op, a, b, _, _) =>
      if b.Tmp? then op in {EQ, NE} && !a.Mem? else op in {EQ, NE, GT, GE} && b.Imm?
    case Return(_) => true
    case Mark(_) => true
    case _ => false
  }

  /** `<` or `<=` with a literal on its right. */
  predicate Less(i: Inst) {
    i.Branch? && i.op in {LT, LE} && i.b.Imm?
  }

  /** No `<` or `<=` that is performed compares equal operands. */
  predicate Untied(m: Machine, c: Code, env: Env, tmp: Temps)
    decreases |c|
  {
    if c == [] then true
    else
      var i, rest := c[0], c[1..];
      match i
      case Mark(_) => Untied(m, rest, env, map[])
      case Branch(op, a, b, t, f) =>
        var va, vb := Val(a, env, tmp), Val(b, env, tmp);
        va.Some? && vb.Some? ==>
          && (op in {LT, LE} ==> va != vb)
          && var to := if Compare(op, va.value, vb.value) then t else f;
             (Mark(to) in rest ==> Untied(m, After(rest, to), env, map[]))
      case Arith2(_, _, _, _) =>
        var v := Result(m, i, env, tmp);
        v.Some? ==> Untied(m, rest, env, tmp[i.id := v.value])
      case _ => true
  }

  lemma {:induction false} MeantArith(m: Machine, idx: ArgIndex, i: Inst, env: Env, tmp: Temps, x: Word)
    requires i.Arith2? && Meant(i) && Commutes(m) && Result(m, i, env, tmp).Some?
    ensures ReadArith(m, idx, i, env, tmp, x) == Result(m, i, env, tmp)
  {
  }

  lemma {:induction false} MeantTest(idx: ArgIndex, i: Inst, env: Env, tmp: Temps)
    requires i.Branch? && (Meant(i) || Less(i)) && Val(i.a, env, tmp).Some? && Val(i.b, env, tmp).Some?
    ensures RightTest(idx, i, env, tmp) <==> i.op !in {LT, LE} || Val(i.a, env, tmp) != Val(i.b, env, tmp)
  {
  }

  /** Code of instructions that are meant, and of `<` and `<=` with a literal on the right, is
      read right exactly when none of the latter compares equal operands. */
  lemma {:induction false} RightIffUntied(m: Machine, idx: ArgIndex, c: Code, env: Env, tmp: Temps, r: Regs)
    requires (forall i | i in c :: Meant(i) || Less(i)) && Commutes(m)
    ensures ReadsRight(m, idx, c, env, tmp, r) <==> Untied(m, c, env, tmp)
    decreases |c|
  {
    hide ReadTest, Compare, ReadArith, Result, XAfter, RightTest, Meant, Commutes;
    if c != [] {
      var i, rest := c[0], c[1..];
      assert i in c && forall i' | i' in rest :: i' in c;
      if Meant(i) {
        MeantKinds(i);
      }
      if i.Mark? {
        RightIffUntied(m, idx, rest, env, map[], r);
      } else if i.Branch? {
        if Val(i.a, env, tmp).Some? && Val(i.b, env, tmp).Some? {
          MeantTest(idx, i, env, tmp);
          var to := if Compare(i.op, Val(i.a, env, tmp).value, Val(i.b, env, tmp).value) then i.t else i.f;
          if Mark(to) in rest {
            AfterWithin(rest, to);
            RightIffUntied(m, idx, After(rest, to), env, map[],
              Regs(Val(InA(i), env, tmp).value, XAfter(i, env, tmp, r.x)));
          }
        }
      } else if i.Arith2? && Result(m, i, env, tmp).Some? {
        MeantArith(m, idx, i, env, tmp, r.x);
        var v := Result(m, i, env, tmp).value;
        RightIffUntied(m, idx, rest, env, tmp[i.id := v], Regs(v, XAfter(i, env, tmp, r.x)));
      }
    }
  }

  lemma {:induction false} MeantKinds(i: Inst)
    requires Meant(i)
    ensures !i.Call? && !i.Store? && !i.Jump? && !i.Arith1?
    ensures i.Branch? ==> i.op !in {LT, LE}
  {
  }

  lemma {:induction false} MeantIsUntied(m: Machine, c: Code, env: Env, tmp: Temps)
    requires forall i | i in c :: Meant(i)
    ensures Untied(m, c, env, tmp)
    decreases |c|
  {
    hide Compare, Result, Meant;
    if c != [] {
      var i, rest := c[0], c[1..];
      assert i in c && forall i' | i' in rest :: i' in c;
      MeantKinds(i);
      if i.Mark? {
        MeantIsUntied(m, rest, env, map[]);
      } else if i.Branch? {
        if Val(i.a, env, tmp).Some? && Val(i.b, env, tmp).Some? {
          var to := if Compare(i.op, Val(i.a, env, tmp).value, Val(i.b, env, tmp).value) then i.t else i.f;
          if Mark(to) in rest {
            AfterWithin(rest, to);
            MeantIsUntied(m, After(rest, to), env, map[]);
          }
        }
      } else if i.Arith2? && Result(m, i, env, tmp).Some? {
        MeantIsUntied(m, rest, env, tmp[i.id := Result(m, i, env, tmp).value]);
      }
    }
  }
}
