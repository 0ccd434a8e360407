/** Code generation for the filter: an accumulator machine with one scratch cell. */
module BpfGen {
  import opened Syntax
  import opened Ir
  import opened Bpf

  type ArgIndex = map<string, nat>

  /** The `bpf_opcodes` table. */
  function OpBits(op: OpCode): bv8 {
    match op
    case PLUS => BPF_ADD
    case MINUS => BPF_SUB
    case MULT => BPF_MUL
    case DIV => BPF_DIV
    case MOD => BPF_MOD
    case EQ => BPF_JEQ
    case NE => BPF_JEQ
    case GT => BPF_JGT
    case LT => BPF_JGT
    case GE => BPF_JGE
    case LE => BPF_JGE
    case BITNOT => BPF_NEG
    case BITAND => BPF_AND
    case BITOR => BPF_OR
    case BITXOR => BPF_XOR
    case SHL => BPF_LSH
    case SHR => BPF_RSH
    case _ => BPF_ERROR
  }

  predicate NeedSwapTarget(op: OpCode) {
    op == LE || op == LT || op == NE
  }

  function IndexOf(idx: ArgIndex, x: string): nat {
    if x in idx then idx[x] else 0
  }

  function KField(o: Operand, idx: ArgIndex): K
    requires !o.Tmp?
  {
    match o
    case Imm(n) => Num(n)
    case Mem(x) => ArgField(IndexOf(idx, x))
  }

  function AddressMode(o: Operand): bv8
    requires !o.Tmp?
  {
    if o.Mem? then BPF_ABS else BPF_K
  }

  function LoadArgumentOrInt(o: Operand, idx: ArgIndex): Filters
    requires !o.Tmp?
  {
    match o
    case Mem(x) => [Stmt(BPF_LD | BPF_W | BPF_ABS, ArgField(IndexOf(idx, x)))]
    case Imm(n) => [Stmt(BPF_LD | BPF_W | BPF_K, Num(n))]
  }

  /** Which temporaries the generator believes to be in A and in M[0]. */
  datatype GenState = GenState(aVal: Option<nat>, m0Val: Option<nat>)

  const EMPTY_STATE: GenState := GenState(None, None)

  /** `A_val` is set and is neither operand. */
  predicate Spills(i: Inst, st: GenState)
    requires i.Arith1? || i.Arith2?
  {
    st.aVal.Some? && i.a != Tmp(st.aVal.value) && (i.Arith2? ==> i.b != Tmp(st.aVal.value))
  }

  /** The assertion in front of a two-temporary operation. */
  predicate InScratch(a: Operand, b: Operand, st: GenState) {
    st.m0Val.Some? && (a == Tmp(st.m0Val.value) || b == Tmp(st.m0Val.value))
  }

  const STORE_SCRATCH: Filter := Stmt(BPF_ST | BPF_W, Num(0))
  const LOAD_SCRATCH: Filter := Stmt(BPF_LDX | BPF_MEM | BPF_W, Num(0))

  /** Filters for an operation on two operands whose code bits so far are `bits`; `None`
      when the assertion fails. */
  function AluLines(op: OpCode, a: Operand, b: Operand, st: GenState, idx: ArgIndex): Option<Filters> {
    var bits := BPF_ALU | OpBits(op);
    if a.Tmp? && b.Tmp? then
      if InScratch(a, b, st) then Some([LOAD_SCRATCH, Stmt(bits | BPF_X, Num(0))]) else None
    else if b.Tmp? then Some([Stmt(bits | AddressMode(a), KField(a, idx))])
    else if a.Tmp? then Some([Stmt(bits | AddressMode(b), KField(b, idx))])
    else Some(LoadArgumentOrInt(a, idx) + [Stmt(bits | AddressMode(b), KField(b, idx))])
  }

  function JumpLines(i: Inst, st: GenState, idx: ArgIndex): Option<Filters>
    requires i.Branch?
  {
    var bits := BPF_JMP | OpBits(i.op);
    var jt := At(if NeedSwapTarget(i.op) then i.f else i.t);
    var jf := At(if NeedSwapTarget(i.op) then i.t else i.f);
    if i.a.Tmp? && i.b.Tmp? then
      if InScratch(i.a, i.b, st) then Some([LOAD_SCRATCH, JumpLine(bits | BPF_X, Num(0), jt, jf)]) else None
    else if i.b.Tmp? then Some([JumpLine(bits | AddressMode(i.a), KField(i.a, idx), jt, jf)])
    else if i.a.Tmp? then Some([JumpLine(bits | AddressMode(i.b), KField(i.b, idx), jt, jf)])
    else Some(LoadArgumentOrInt(i.a, idx) + [JumpLine(bits | AddressMode(i.b), KField(i.b, idx), jt, jf)])
  }

  /** Unary operations.  `BPF_TAX` comes without its class, so it is the encoding of a load
      of the literal 0. */
  function UnaryLines(op: OpCode, a: Operand, idx: ArgIndex): Filters {
    (if a.Tmp? then [] else LoadArgumentOrInt(a, idx)) +
    (if op == UMINUS then
       [Stmt(BPF_TAX, Num(0)), Stmt(BPF_LD | BPF_W | BPF_K, Num(0)), Stmt(BPF_ALU | BPF_SUB | BPF_X, Num(0))]
     else [Stmt(BPF_ALU | OpBits(op), Num(0))])
  }

  function ReturnAction(val: RetVal): Action {
    match val
    case Decision(Allow) => RetAllow
    case Decision(Deny) => RetKill
    case ToPtrace(n) => RetTrace(n % 0x1_0000)
  }

  /** The lines of one instruction and the generator's state behind it; `None` when an
      assertion fails. */
  function GenInst(i: Inst, st: GenState, idx: ArgIndex): Option<(Filters, GenState)> {
    if i.Arith1? || i.Arith2? then
      var spill := if Spills(i, st) then [STORE_SCRATCH] else [];
      var st' := if Spills(i, st) then GenState(None, st.aVal) else st;
      var lines := if i.Arith2? then AluLines(i.op, i.a, i.b, st', idx) else Some(UnaryLines(i.op, i.a, idx));
      if lines.None? then None
      else
        var m0 := if i.Arith2? && i.a.Tmp? && i.b.Tmp? then None else st'.m0Val;
        Some((spill + lines.value, GenState(Some(i.id), m0)))
    else if i.Branch? then
      var lines := JumpLines(i, st, idx);
      if lines.None? then None
      else Some((lines.value, GenState(None, if i.a.Tmp? && i.b.Tmp? then None else st.m0Val)))
    else if i.Jump? then Some(([], GenState(None, st.m0Val)))
    else if i.Return? then Some(([Ret(ReturnAction(i.val))], st))
    else if i.Mark? then Some(([LabelLine(i.lbl)], st))
    else Some(([], st))
  }

  function GenAll(c: Code, st: GenState, idx: ArgIndex): Option<Filters> {
    if c == [] then Some([])
    else
      var x := GenInst(c[0], st, idx);
      if x.None? then None
      else
        var y := GenAll(c[1..], x.value.1, idx);
        if y.None? then None else Some(x.value.0 + y.value)
  }

  /** BPFCodeGen: the first instruction, the start label, is skipped. */
  function BpfCode(c: Code, idx: ArgIndex): Option<Filters> {
    if c == [] then Some([]) else GenAll(c[1..], EMPTY_STATE, idx)
  }

  // ---------- Pending temporaries ----------

  /** The temporaries that are computed and not yet used, oldest first, as an instruction
      changes them; `None` if it does not use the youngest ones, in order. */
  function Step(i: Inst, st: seq<nat>): Option<seq<nat>> {
    var n := |st|;
    if i.Arith1? || i.Arith2? then
      var st' := if i.Arith2? then Pop2(st, i.a, i.b) else Pop1(st, i.a);
      if st'.Some? && i.id !in st then Some(st'.value + [i.id]) else None
    else if i.Call? then if i.id !in st then Some(st + [i.id]) else None
    else
      var st' := if i.Branch? then Pop2(st, i.a, i.b) else if i.Store? then Pop1(st, i.src) else Some(st);
      if st' == Some([]) then Some([]) else None
  }

  function Pop1(st: seq<nat>, o: Operand): Option<seq<nat>> {
    if !o.Tmp? then Some(st)
    else if st != [] && st[|st| - 1] == o.id then Some(st[..|st| - 1])
    else None
  }

  function Pop2(st: seq<nat>, a: Operand, b: Operand): Option<seq<nat>> {
    var st' := Pop1(st, b);
    if st'.Some? then Pop1(st'.value, a) else None
  }

  /** Code whose every block uses each temporary once, in last-in first-out order. */
  predicate Disciplined(c: Code, st: seq<nat>) {
    if c == [] then st == []
    else Step(c[0], st).Some? && Disciplined(c[1..], Step(c[0], st).value)
  }

  /** Never more than two temporaries are pending. */
  predicate Shallow(c: Code, st: seq<nat>) {
    |st| <= 2 && (c != [] && Step(c[0], st).Some? ==> Shallow(c[1..], Step(c[0], st).value))
  }

  /** The generator's state as it follows from the pending temporaries. */
  predicate Tracks(st: seq<nat>, gs: GenState) {
    && |st| <= 2
    && gs.aVal == (if st == [] then None else Some(st[|st| - 1]))
    && gs.m0Val == (if |st| == 2 then Some(st[0]) else None)
    && (|st| == 2 ==> st[0] != st[1])
  }

  predicate NoEffects(c: Code) {
    forall i | i in c :: !i.Effect()
  }

  lemma {:induction false} StepTracks(i: Inst, st: seq<nat>, gs: GenState, idx: ArgIndex)
    requires Tracks(st, gs) && Step(i, st).Some? && |Step(i, st).value| <= 2 && !i.Effect()
    ensures GenInst(i, gs, idx).Some? && Tracks(Step(i, st).value, GenInst(i, gs, idx).value.1)
  {
  }

  // ---------- When the assertions hold ----------

  predicate Distinct(st: seq<nat>) {
    forall i, j | 0 <= i < j < |st| :: st[i] != st[j]
  }

  /** The generator's state for any number of pending temporaries: only the youngest can be
      in A, and only the one below it in the scratch cell. */
  predicate Follows(st: seq<nat>, gs: GenState) {
    && Distinct(st)
    && gs.aVal == (if st == [] then None else Some(st[|st| - 1]))
    && (gs.m0Val.Some? ==> |st| >= 2 && gs.m0Val.value == st[|st| - 2])
  }

  /** A pending temporary has been overwritten in the scratch cell. */
  predicate Lost(st: seq<nat>, gs: GenState) {
    |st| >= 3 || (|st| == 2 && gs.m0Val.None?)
  }

  lemma {:induction false} StepFollows(i: Inst, st: seq<nat>, gs: GenState, idx: ArgIndex)
    requires Follows(st, gs) && Step(i, st).Some? && !i.Effect() && GenInst(i, gs, idx).Some?
    ensures Follows(Step(i, st).value, GenInst(i, gs, idx).value.1)
    ensures Lost(st, gs) ==> Lost(Step(i, st).value, GenInst(i, gs, idx).value.1)
  {
  }

  lemma {:induction false} LostFails(c: Code, st: seq<nat>, gs: GenState, idx: ArgIndex)
    requires Disciplined(c, st) && NoEffects(c) && Follows(st, gs) && Lost(st, gs)
    ensures GenAll(c, gs, idx).None?
  {
    hide GenInst, Step;
    assert c[0] in c;
    if GenInst(c[0], gs, idx).Some? {
      StepFollows(c[0], st, gs, idx);
      LostFails(c[1..], Step(c[0], st).value, GenInst(c[0], gs, idx).value.1, idx);
    }
  }

  /** One scratch cell is enough, and no assertion of the generator fails, exactly when no
      more than two temporaries are ever pending. */
  lemma {:induction false} AssertionsHoldIffShallow(c: Code, st: seq<nat>, gs: GenState, idx: ArgIndex)
    requires Disciplined(c, st) && NoEffects(c) && Tracks(st, gs)
    ensures GenAll(c, gs, idx).Some? <==> Shallow(c, st)
  {
    hide GenInst, Step;
    if c != [] {
      assert c[0] in c;
      var st' := Step(c[0], st).value;
      if |st'| <= 2 {
        StepTracks(c[0], st, gs, idx);
        AssertionsHoldIffShallow(c[1..], st', GenInst(c[0], gs, idx).value.1, idx);
      } else if GenInst(c[0], gs, idx).Some? {
        StepFollows(c[0], st, gs, idx);
        LostFails(c[1..], st', GenInst(c[0], gs, idx).value.1, idx);
      }
    }
  }
}
