/** The classic BPF machine, as far as the generated filters use it: accumulator A, index
    register X, scratch cell M[0], and jumps that only go ahead. */
module Bpf {
  import opened Syntax
  import opened Ir

  // Instruction classes, sizes, modes and operations of the BPF instruction encoding.
  const BPF_LD: bv8 := 0x00
  const BPF_LDX: bv8 := 0x01
  const BPF_ST: bv8 := 0x02
  const BPF_ALU: bv8 := 0x04
  const BPF_JMP: bv8 := 0x05
  const BPF_W: bv8 := 0x00
  const BPF_ABS: bv8 := 0x20
  const BPF_MEM: bv8 := 0x60
  const BPF_K: bv8 := 0x00
  const BPF_X: bv8 := 0x08
  const BPF_ADD: bv8 := 0x00
  const BPF_SUB: bv8 := 0x10
  const BPF_MUL: bv8 := 0x20
  const BPF_DIV: bv8 := 0x30
  const BPF_OR: bv8 := 0x40
  const BPF_AND: bv8 := 0x50
  const BPF_LSH: bv8 := 0x60
  const BPF_RSH: bv8 := 0x70
  const BPF_NEG: bv8 := 0x80
  const BPF_MOD: bv8 := 0x90
  const BPF_XOR: bv8 := 0xa0
  const BPF_JEQ: bv8 := 0x10
  const BPF_JGT: bv8 := 0x20
  const BPF_JGE: bv8 := 0x30
  const BPF_TAX: bv8 := 0x00
  /** Stands for the table entries that name no operation. */
  const BPF_ERROR: bv8 := 0xf0

  /** The K field: a number, or the offset of a field of `struct seccomp_data`. */
  datatype K = Num(n: Word) | ArgField(i: nat) | NrField | ArchField

  /** A jump target: still a label, or an offset from the next instruction. */
  datatype Target = At(lbl: Label) | Off(n: nat)

  datatype Action = RetAllow | RetKill | RetTrace(data: nat)

  datatype Filter =
    | LabelLine(lbl: Label)
    | Stmt(code: bv8, k: K)
    | JumpLine(code: bv8, k: K, jt: Target, jf: Target)
    | Ret(action: Action)

  type Filters = seq<Filter>

  /** `struct seccomp_data`: for each argument, the low word that the filter loads. */
  datatype Data = Data(nr: Word, arch: Word, args: seq<Word>)

  datatype Verdict = Verdict(action: Action) | RanOff | BadFilter

  // ---------- Decoding ----------

  datatype Op =
    | LoadAbs | LoadImm | StoreM | LoadXM | Illegal
    | Alu(op: OpCode, x: bool) | Comparison(op: OpCode, x: bool)

  function DecodeAlu(bits: bv8): Option<OpCode> {
    if bits == BPF_ADD then Some(PLUS)
    else if bits == BPF_SUB then Some(MINUS)
    else if bits == BPF_MUL then Some(MULT)
    else if bits == BPF_DIV then Some(DIV)
    else if bits == BPF_MOD then Some(MOD)
    else if bits == BPF_AND then Some(BITAND)
    else if bits == BPF_OR then Some(BITOR)
    else if bits == BPF_XOR then Some(BITXOR)
    else if bits == BPF_LSH then Some(SHL)
    else if bits == BPF_RSH then Some(SHR)
    else None
  }

  function DecodeTest(bits: bv8): Option<OpCode> {
    if bits == BPF_JEQ then Some(EQ)
    else if bits == BPF_JGT then Some(GT)
    else if bits == BPF_JGE then Some(GE)
    else None
  }

  function Decode(code: bv8): Op {
    if code == BPF_LD | BPF_W | BPF_ABS then LoadAbs
    else if code == BPF_LD | BPF_W | BPF_K then LoadImm
    else if code == BPF_ST then StoreM
    else if code == BPF_LDX | BPF_MEM | BPF_W then LoadXM
    else if code & 0x07 == BPF_ALU && DecodeAlu(code & 0xf0).Some? then
      Alu(DecodeAlu(code & 0xf0).value, code & BPF_X != 0)
    else if code & 0x07 == BPF_JMP && DecodeTest(code & 0xf0).Some? then
      Comparison(DecodeTest(code & 0xf0).value, code & BPF_X != 0)
    else Illegal
  }

  // ---------- Running ----------

  function Load(k: K, data: Data): Option<Word> {
    match k
    case ArgField(i) => if i < |data.args| then Some(data.args[i]) else None
    case NrField => Some(data.nr)
    case ArchField => Some(data.arch)
    case Num(_) => None
  }

  /** The K field as a plain number: a field name is its offset. */
  function KValue(k: K): Word {
    match k
    case Num(n) => n
    case NrField => 0
    case ArchField => 4
    case ArgField(i) => [16, 24, 32, 40, 48, 56, 0][if i < 6 then i else 6]
  }

  /** Division by zero, and shifts by 32 or more, are rejected or stop the filter. */
  predicate Faults(op: OpCode, v: Word) {
    || ((op == DIV || op == MOD) && v == 0)
    || ((op == SHL || op == SHR) && v >= 32)
  }

  /** The code after the last line of the label: of equal labels the table of BPFTransformLabels
      keeps the last one. */
  function AfterLine(fs: Filters, l: Label): (rest: Filters)
    requires LabelLine(l) in fs
    ensures |rest| < |fs|
  {
    if LabelLine(l) in fs[1..] then AfterLine(fs[1..], l) else fs[1..]
  }

  function RunF(m: Machine, data: Data, fs: Filters, a: Word, x: Word, mem: Word): Verdict
    decreases |fs|, 0
  {
    if fs == [] then RanOff
    else
      var f, rest := fs[0], fs[1..];
      match f
      case LabelLine(_) => RunF(m, data, rest, a, x, mem)
      case Ret(action) => Verdict(action)
      case Stmt(code, k) => (
        match Decode(code)
        case LoadAbs =>
          var v := Load(k, data);
          if v.Some? then RunF(m, data, rest, v.value, x, mem) else BadFilter
        case LoadImm => RunF(m, data, rest, KValue(k), x, mem)
        case StoreM => RunF(m, data, rest, a, x, a)
        case LoadXM => RunF(m, data, rest, a, mem, mem)
        case Alu(op, useX) =>
          var v := if useX then x else KValue(k);
          if Faults(op, v) then BadFilter else RunF(m, data, rest, m.alu(op, a, v), x, mem)
        case _ => BadFilter)
      case JumpLine(code, k, jt, jf) =>
        var d := Decode(code);
        if d.Comparison? then
          GoTo(m, data, rest, if Compare(d.op, a, if d.x then x else KValue(k)) then jt else jf, a, x, mem)
        else BadFilter
  }

  function GoTo(m: Machine, data: Data, rest: Filters, target: Target, a: Word, x: Word, mem: Word): Verdict
    decreases |rest|, 1
  {
    match target
    case At(l) => if LabelLine(l) in rest then RunF(m, data, AfterLine(rest, l), a, x, mem) else BadFilter
    case Off(n) => if n <= |rest| then RunF(m, data, rest[n..], a, x, mem) else BadFilter
  }
}
