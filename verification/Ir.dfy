/** The linear intermediate representation and its machine.

    The machine is strict about temporaries: a temporary lives only until the next store,
    branch or label.  A read of a dead temporary leaves the machine stuck, so every theorem
    that a run ends in a decision also says that no temporary crossed one of those points.
    Jumps look for their label in the code that is still ahead; a backward jump is stuck. */
module Ir {
  import opened Syntax

  /** `NewLabel` numbers its labels; syscall names and the two default labels are `Named`. */
  datatype Label = Fresh(n: nat) | Named(name: string)

  /** An operand: an argument, a literal, or the result of the instruction with this identity. */
  datatype Operand = Mem(name: string) | Imm(n: Word) | Tmp(id: nat)

  /** What a return carries: a decision, or the number that asks for the tracer. */
  datatype RetVal = Decision(perm: Perm) | ToPtrace(data: nat)

  datatype Inst =
    | Arith1(id: nat, op: OpCode, a: Operand)
    | Arith2(id: nat, op: OpCode, a: Operand, b: Operand)
    | Call(id: nat, callee: string, params: seq<string>)
    | Store(src: Operand, dst: string)
    | Branch(op: OpCode, a: Operand, b: Operand, t: Label, f: Label)
    | Jump(t: Label)
    | Return(val: RetVal)
    | Mark(lbl: Label)
  {
    predicate Computes() { Arith1? || Arith2? || Call? }
    predicate Effect() { Call? || Store? }
    predicate Branches() { Branch? || Jump? }
    predicate Ends() { Branches() || Return? }

    /** The labels this instruction may jump to. */
    function Targets(): seq<Label> {
      if Branch? then [t, f] else if Jump? then [t] else []
    }
  }

  type Code = seq<Inst>
  type Temps = map<nat, Word>

  datatype Outcome = Returned(val: RetVal, env: Env) | FellOff(env: Env) | Stuck

  function Val(o: Operand, env: Env, tmp: Temps): Option<Word> {
    match o
    case Mem(x) => Some(Lookup(env, x))
    case Imm(n) => Some(n)
    case Tmp(id) => if id in tmp then Some(tmp[id]) else None
  }

  /** The value an arithmetic or call instruction leaves in its temporary. */
  function Result(m: Machine, i: Inst, env: Env, tmp: Temps): Option<Word>
    requires i.Computes()
  {
    match i
    case Arith1(_, op, a) =>
      var va := Val(a, env, tmp);
      if va.Some? then Some(m.alu(op, va.value, 0)) else None
    case Arith2(_, op, a, b) =>
      var va, vb := Val(a, env, tmp), Val(b, env, tmp);
      if va.Some? && vb.Some? then Some(m.alu(op, va.value, vb.value)) else None
    case Call(_, f, params) => Some(m.helper(f, ParamValues(params, env)))
  }

  /** The code after the first mark of `l`. */
  function After(c: Code, l: Label): (rest: Code)
    requires Mark(l) in c
    ensures |rest| < |c|
  {
    if c[0] == Mark(l) then c[1..] else After(c[1..], l)
  }

  function Run(m: Machine, c: Code, env: Env, tmp: Temps): Outcome
    decreases |c|
  {
    if c == [] then FellOff(env)
    else
      var i, rest := c[0], c[1..];
      match i
      case Mark(_) => Run(m, rest, env, map[])
      case Store(src, x) =>
        var v := Val(src, env, tmp);
        if v.Some? then Run(m, rest, env[x := v.value], map[]) else Stuck
      case Branch(op, a, b, t, f) =>
        var va, vb := Val(a, env, tmp), Val(b, env, tmp);
        if va.Some? && vb.Some? then
          JumpTo(m, rest, if Compare(op, va.value, vb.value) then t else f, env)
        else Stuck
      case Jump(t) => if m.jumps then JumpTo(m, rest, t, env) else Run(m, rest, env, tmp)
      case Return(val) => Returned(val, env)
      case _ =>
        var v := Result(m, i, env, tmp);
        if v.Some? then Run(m, rest, env, tmp[i.id := v.value]) else Stuck
  }

  function JumpTo(m: Machine, rest: Code, l: Label, env: Env): Outcome
    decreases |rest|
  {
    if Mark(l) in rest then Run(m, After(rest, l), env, map[]) else Stuck
  }

  // ---------- One step ----------

  lemma {:induction false} RunMark(m: Machine, l: Label, rest: Code, env: Env, tmp: Temps)
    ensures Run(m, [Mark(l)] + rest, env, tmp) == Run(m, rest, env, map[])
  {
    assert ([Mark(l)] + rest)[1..] == rest;
  }

  lemma {:induction false} RunCompute(m: Machine, i: Inst, rest: Code, env: Env, tmp: Temps)
    requires i.Computes() && Result(m, i, env, tmp).Some?
    ensures Run(m, [i] + rest, env, tmp) == Run(m, rest, env, tmp[i.id := Result(m, i, env, tmp).value])
  {
    assert ([i] + rest)[1..] == rest;
  }

  lemma {:induction false} RunStore(m: Machine, src: Operand, x: string, rest: Code, env: Env, tmp: Temps)
    requires Val(src, env, tmp).Some?
    ensures Run(m, [Store(src, x)] + rest, env, tmp) == Run(m, rest, env[x := Val(src, env, tmp).value], map[])
  {
    assert ([Store(src, x)] + rest)[1..] == rest;
  }

  lemma {:induction false} RunBranch(m: Machine, i: Inst, rest: Code, env: Env, tmp: Temps)
    requires i.Branch? && Val(i.a, env, tmp).Some? && Val(i.b, env, tmp).Some?
    ensures Run(m, [i] + rest, env, tmp) ==
      JumpTo(m, rest, if Compare(i.op, Val(i.a, env, tmp).value, Val(i.b, env, tmp).value) then i.t else i.f, env)
  {
    assert ([i] + rest)[1..] == rest;
  }

  lemma {:induction false} RunJump(m: Machine, l: Label, rest: Code, env: Env, tmp: Temps)
    ensures Run(m, [Jump(l)] + rest, env, tmp) == if m.jumps then JumpTo(m, rest, l, env) else Run(m, rest, env, tmp)
  {
    assert ([Jump(l)] + rest)[1..] == rest;
  }

  // ---------- Jumps and concatenation ----------

  lemma {:induction false} AfterConcat(a: Code, b: Code, l: Label)
    requires Mark(l) in a + b
    ensures After(a + b, l) == if Mark(l) in a then After(a, l) + b else After(b, l)
  {
    if a == [] {
      assert a + b == b;
    } else {
      assert (a + b)[1..] == a[1..] + b;
      if a[0] != Mark(l) {
        AfterConcat(a[1..], b, l);
      }
    }
  }

  lemma {:induction false} AfterWithin(c: Code, l: Label)
    requires Mark(l) in c
    ensures forall i | i in After(c, l) :: i in c
  {
    if c[0] != Mark(l) {
      AfterWithin(c[1..], l);
    }
  }

  /** A jump skips code that does not mark its label. */
  lemma {:induction false} JumpSkips(m: Machine, a: Code, b: Code, l: Label, env: Env)
    requires Mark(l) !in a
    ensures JumpTo(m, a + b, l, env) == JumpTo(m, b, l, env)
  {
    if Mark(l) in b {
      AfterConcat(a, b, l);
    }
  }

  lemma {:induction false} JumpLands(m: Machine, a: Code, b: Code, l: Label, env: Env)
    requires Mark(l) !in a
    ensures JumpTo(m, a + [Mark(l)] + b, l, env) == Run(m, b, env, map[])
  {
    var whole := a + [Mark(l)] + b;
    assert whole == a + ([Mark(l)] + b);
    assert whole[|a|] == Mark(l);
    AfterConcat(a, [Mark(l)] + b, l);
    assert ([Mark(l)] + b)[1..] == b;
  }

  // ---------- Well-formed code ----------

  predicate NoMarks(c: Code) {
    forall i | i in c :: !i.Mark?
  }

  /** Every label is defined once. */
  predicate UniqueMarks(c: Code) {
    c == [] || ((c[0].Mark? ==> c[0] !in c[1..]) && UniqueMarks(c[1..]))
  }

  /** Every branch precedes the definition of its targets, except for targets in `ext`. */
  predicate Forward(c: Code, ext: set<Label>) {
    c != [] ==>
      && (forall l | l in c[0].Targets() :: Mark(l) in c[1..] || l in ext)
      && Forward(c[1..], ext)
  }

  /** Every branch is the last instruction of its block. */
  predicate BranchesEndBlocks(c: Code) {
    forall k | 0 <= k < |c| - 1 :: c[k].Branches() ==> c[k + 1].Mark?
  }

  lemma {:induction false} UniqueConcat(a: Code, b: Code)
    ensures UniqueMarks(a + b) <==>
      UniqueMarks(a) && UniqueMarks(b) && forall l {:trigger Mark(l)} :: !(Mark(l) in a && Mark(l) in b)
  {
    if a == [] {
      assert a + b == b;
    } else {
      assert (a + b)[1..] == a[1..] + b;
      UniqueConcat(a[1..], b);
      if a[0].Mark? {
        assert a[0] == Mark(a[0].lbl);
      }
      forall l | Mark(l) in a && Mark(l) in b
        ensures !UniqueMarks(a + b)
      {
        if Mark(l) == a[0] {
          assert a[0] in a[1..] + b;
        }
      }
    }
  }

  lemma {:induction false} ForwardConcat(a: Code, b: Code, mid: set<Label>, ext: set<Label>)
    requires Forward(a, mid) && Forward(b, ext)
    requires forall l | l in mid :: Mark(l) in b || l in ext
    ensures Forward(a + b, ext)
  {
    if a == [] {
      assert a + b == b;
    } else {
      assert (a + b)[1..] == a[1..] + b;
      ForwardConcat(a[1..], b, mid, ext);
    }
  }

  lemma {:induction false} ForwardWiden(c: Code, ext: set<Label>, wider: set<Label>)
    requires Forward(c, ext) && ext <= wider
    ensures Forward(c, wider)
  {
    if c != [] {
      ForwardWiden(c[1..], ext, wider);
    }
  }

  /** Once jumps land ahead, the first mark found is the only one. */
  lemma {:induction false} AfterKeeps(c: Code, l: Label, ext: set<Label>)
    requires Mark(l) in c
    ensures UniqueMarks(c) ==> UniqueMarks(After(c, l))
    ensures Forward(c, ext) ==> Forward(After(c, l), ext)
  {
    if c[0] != Mark(l) {
      AfterKeeps(c[1..], l, ext);
    }
  }
}
