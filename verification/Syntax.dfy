/** The policy language: operators, expressions, statements and their meaning.

    One word semantics is used throughout: 32-bit unsigned.  Helper functions are
    uninterpreted, deterministic functions of their argument values. */
module Syntax {
  const MODULUS: int := 0x1_0000_0000
  type Word = n: int | 0 <= n < MODULUS
  type Env = map<string, Word>

  datatype Option<+T> = None | Some(value: T)

  /** The operator codes of `OpNode::OpCode`, without `INVALID`: the unconditional branch
      that `INVALID` stands for is an instruction of its own (see module Ir). */
  datatype OpCode =
    | UMINUS | PLUS | MINUS | MULT | DIV | MOD
    | EQ | NE | GT | LT | GE | LE
    | AND | OR | NOT
    | BITNOT | BITAND | BITOR | BITXOR
    | SHL | SHR

  datatype Expr =
    | Ref(name: string)
    | Value(n: Word)
    | Invoke(callee: string, params: seq<string>)
    | Unary(op: OpCode, arg: Expr)
    | Binary(op: OpCode, left: Expr, right: Expr)

  datatype Perm = Allow | Deny

  datatype Stmt =
    | Empty
    | Permit(perm: Perm)
    | Assign(expr: Expr, arg: string)
    | If(cond: Expr, thn: Stmt, els: Option<Stmt>)
    | Compound(stmts: seq<Stmt>)

  function Size(e: Expr): (n: nat)
    ensures n > 0
  {
    match e
    case Unary(_, arg) => 1 + Size(arg)
    case Binary(_, left, right) => 1 + Size(left) + Size(right)
    case _ => 1
  }

  // ---------- Operators ----------

  predicate IsCompare(op: OpCode) {
    op in {EQ, NE, GT, LT, GE, LE}
  }

  /** The binary operators over integers.  Binary `~` is not one of them: its table entry
      says arity one, and neither target can express it. */
  predicate IsArith(op: OpCode) {
    op in {PLUS, MINUS, MULT, DIV, MOD, BITAND, BITOR, BITXOR, SHL, SHR}
  }

  predicate IsCommutative(op: OpCode) {
    op in {PLUS, MULT, BITAND, BITOR, BITXOR}
  }

  predicate Compare(op: OpCode, x: Word, y: Word) {
    match op
    case EQ => x == y
    case NE => x != y
    case GT => x > y
    case LT => x < y
    case GE => x >= y
    case LE => x <= y
    case _ => false
  }

  /** What every stage is run against: an interpretation of the helpers and of the
      arithmetic operators, and whether unconditional jumps are taken.  Where they are not,
      control runs on, as it does in code from which they were deleted. */
  datatype Machine = Machine(
    helper: (string, seq<Word>) -> Word,
    alu: (OpCode, Word, Word) -> Word,
    jumps: bool)

  ghost predicate Commutes(m: Machine) {
    forall op, x, y :: IsCommutative(op) ==> m.alu(op, x, y) == m.alu(op, y, x)
  }

  function Bits(x: Word): bv32 {
    x as bv32
  }

  function FromBits(b: bv32): Word {
    b as int
  }

  lemma {:induction false} AtLeast(q: nat, y: nat)
    requires y >= 1
    ensures q * y >= q
  {
  }

  lemma {:induction false} QuotientBound(x: nat, y: nat)
    requires y > 0
    ensures 0 <= x / y <= x
  {
    var q, r := x / y, x % y;
    assert x == q * y + r;
    AtLeast(q, y);
  }

  function Quotient(x: Word, y: Word): Word
    requires y != 0
  {
    QuotientBound(x, y);
    x / y
  }

  /** The 32-bit unsigned operators.  Division by zero and shifts by 32 or more are outside
      what either target defines; they get 0 here and are excluded where it matters. */
  function Alu32(op: OpCode, x: Word, y: Word): Word {
    match op
    case UMINUS => (0 - x) % MODULUS
    case PLUS => (x + y) % MODULUS
    case MINUS => (x - y) % MODULUS
    case MULT => (x * y) % MODULUS
    case DIV => if y == 0 then 0 else Quotient(x, y)
    case MOD => if y == 0 then 0 else x % y
    case BITAND => FromBits(Bits(x) & Bits(y))
    case BITOR => FromBits(Bits(x) | Bits(y))
    case BITXOR => FromBits(Bits(x) ^ Bits(y))
    case SHL => if y < 32 then FromBits(Bits(x) << y) else 0
    case SHR => if y < 32 then FromBits(Bits(x) >> y) else 0
    case _ => 0
  }

  lemma {:induction false} Alu32Swaps(op: OpCode, x: Word, y: Word)
    requires IsCommutative(op)
    ensures Alu32(op, x, y) == Alu32(op, y, x)
  {
    match op
    case PLUS =>
    case MULT => assert x * y == y * x;
    case BITAND => assert Bits(x) & Bits(y) == Bits(y) & Bits(x);
    case BITOR => assert Bits(x) | Bits(y) == Bits(y) | Bits(x);
    case BITXOR => assert Bits(x) ^ Bits(y) == Bits(y) ^ Bits(x);
  }

  lemma {:induction false} Alu32Commutes(m: Machine)
    requires m.alu == Alu32
    ensures Commutes(m)
  {
    forall op, x, y | IsCommutative(op)
      ensures m.alu(op, x, y) == m.alu(op, y, x)
    {
      Alu32Swaps(op, x, y);
    }
  }

  // ---------- Typing ----------

  /** Integer-valued expressions: no comparison or boolean operator under arithmetic. */
  predicate IntExpr(e: Expr) {
    match e
    case Ref(_) => true
    case Value(_) => true
    case Invoke(_, _) => true
    case Unary(op, arg) => op == UMINUS && IntExpr(arg)
    case Binary(op, left, right) => IsArith(op) && IntExpr(left) && IntExpr(right)
  }

  /** Conditions: `&&`, `||`, `!` and comparisons over integers, or a bare integer. */
  predicate CondExpr(e: Expr) {
    match e
    case Unary(op, arg) => if op == NOT then CondExpr(arg) else IntExpr(e)
    case Binary(op, left, right) =>
      if op == AND || op == OR then CondExpr(left) && CondExpr(right)
      else if IsCompare(op) then IntExpr(left) && IntExpr(right)
      else IntExpr(e)
    case _ => true
  }

  predicate WellTyped(s: Stmt) {
    match s
    case Empty => true
    case Permit(_) => true
    case Assign(expr, _) => IntExpr(expr)
    case If(cond, thn, els) =>
      CondExpr(cond) && WellTyped(thn) && (els.Some? ==> WellTyped(els.value))
    case Compound(stmts) => forall s' | s' in stmts :: WellTyped(s')
  }

  // ---------- Meaning ----------

  function Lookup(env: Env, x: string): Word {
    if x in env then env[x] else 0
  }

  function ParamValues(params: seq<string>, env: Env): (vs: seq<Word>)
    ensures |vs| == |params|
    ensures forall i :: 0 <= i < |vs| ==> vs[i] == Lookup(env, params[i])
  {
    seq(|params|, i requires 0 <= i < |params| => Lookup(env, params[i]))
  }

  function Eval(m: Machine, e: Expr, env: Env): Word {
    match e
    case Ref(x) => Lookup(env, x)
    case Value(n) => n
    case Invoke(f, params) => m.helper(f, ParamValues(params, env))
    case Unary(op, arg) => m.alu(op, Eval(m, arg, env), 0)
    case Binary(op, left, right) => m.alu(op, Eval(m, left, env), Eval(m, right, env))
  }

  predicate Holds(m: Machine, e: Expr, env: Env) {
    match e
    case Unary(op, arg) => if op == NOT then !Holds(m, arg, env) else Eval(m, e, env) != 0
    case Binary(op, left, right) =>
      if op == AND then Holds(m, left, env) && Holds(m, right, env)
      else if op == OR then Holds(m, left, env) || Holds(m, right, env)
      else if IsCompare(op) then Compare(op, Eval(m, left, env), Eval(m, right, env))
      else Eval(m, e, env) != 0
    case _ => Eval(m, e, env) != 0
  }

  /** How a statement ends: control flows on, or a decision was made. */
  datatype Flow = Next(env: Env) | Stop(perm: Perm, env: Env)

  function Exec(m: Machine, s: Stmt, env: Env): Flow
    decreases s, 0
  {
    match s
    case Empty => Next(env)
    case Permit(p) => Stop(p, env)
    case Assign(expr, x) => Next(env[x := Eval(m, expr, env)])
    case If(cond, thn, els) =>
      if Holds(m, cond, env) then Exec(m, thn, env)
      else if els.Some? then Exec(m, els.value, env)
      else Next(env)
    case Compound(stmts) => ExecAll(m, stmts, env)
  }

  function ExecAll(m: Machine, ss: seq<Stmt>, env: Env): Flow
    decreases ss, 0
  {
    if ss == [] then Next(env)
    else
      match Exec(m, ss[0], env)
      case Next(env') => ExecAll(m, ss[1..], env')
      case Stop(p, env') => Stop(p, env')
  }

  /** What the code of a statement performs: as the statement says where unconditional jumps
      are taken; where they are not, a `then` that does not decide runs on into its `else`. */
  function Performed(m: Machine, s: Stmt, env: Env): Flow
    decreases s, 0
  {
    match s
    case If(cond, thn, els) =>
      if Holds(m, cond, env) then
        var flow := Performed(m, thn, env);
        if flow.Next? && els.Some? && !m.jumps then Performed(m, els.value, flow.env) else flow
      else if els.Some? then Performed(m, els.value, env)
      else Next(env)
    case Compound(stmts) => PerformedAll(m, stmts, env)
    case _ => Exec(m, s, env)
  }

  function PerformedAll(m: Machine, ss: seq<Stmt>, env: Env): Flow
    decreases ss, 0
  {
    if ss == [] then Next(env)
    else
      match Performed(m, ss[0], env)
      case Next(env') => PerformedAll(m, ss[1..], env')
      case Stop(p, env') => Stop(p, env')
  }

  // ---------- Deciding ----------

  /** The statement reaches `allow` or `deny` on every path, whatever its conditions say. */
  predicate Decides(s: Stmt)
  {
    match s
    case Permit(_) => true
    case If(_, thn, els) => Decides(thn) && els.Some? && Decides(els.value)
    case Compound(stmts) => exists s' | s' in stmts :: Decides(s')
    case _ => false
  }

  /** Every `then` that has an `else` decides, so that the jump around the `else` is dead. */
  predicate ThenBranchesDecide(s: Stmt) {
    match s
    case If(_, thn, els) =>
      && ThenBranchesDecide(thn)
      && (els.Some? ==> Decides(thn) && ThenBranchesDecide(els.value))
    case Compound(stmts) => forall s' | s' in stmts :: ThenBranchesDecide(s')
    case _ => true
  }

  lemma {:induction false} DecidesStops(m: Machine, s: Stmt, env: Env)
    requires Decides(s)
    ensures Exec(m, s, env).Stop?
    decreases s, 0
  {
    match s {
      case Permit(_) =>
      case If(cond, thn, els) =>
        DecidesStops(m, thn, env);
        DecidesStops(m, els.value, env);
      case Compound(stmts) => DecidesStopsAll(m, stmts, env);
    }
  }

  lemma {:induction false} DecidesStopsAll(m: Machine, ss: seq<Stmt>, env: Env)
    requires exists s | s in ss :: Decides(s)
    ensures ExecAll(m, ss, env).Stop?
    decreases ss, 0
  {
    if Decides(ss[0]) {
      DecidesStops(m, ss[0], env);
    } else {
      var flow := Exec(m, ss[0], env);
      if flow.Next? {
        DecidesStopsAll(m, ss[1..], flow.env);
      }
    }
  }

  // ---------- When the code performs what the statement says ----------

  /** On these arguments no deleted jump is missed: an executed `then` that does not decide, and
      so runs on into its `else`, finds one that does nothing. */
  predicate JumpsHarmless(m: Machine, s: Stmt, env: Env)
    decreases s, 0
  {
    match s
    case If(cond, thn, els) =>
      if Holds(m, cond, env) then
        && JumpsHarmless(m, thn, env)
        && var flow := Exec(m, thn, env);
           (flow.Next? && els.Some? && !m.jumps ==> Performed(m, els.value, flow.env) == flow)
      else els.Some? ==> JumpsHarmless(m, els.value, env)
    case Compound(stmts) => JumpsHarmlessAll(m, stmts, env)
    case _ => true
  }

  predicate JumpsHarmlessAll(m: Machine, ss: seq<Stmt>, env: Env)
    decreases ss, 0
  {
    ss != [] ==>
      && JumpsHarmless(m, ss[0], env)
      && var flow := Exec(m, ss[0], env);
         (flow.Next? ==> JumpsHarmlessAll(m, ss[1..], flow.env))
  }

  /** Then the code performs what the statement says. */
  lemma {:induction false} HarmlessIsExec(m: Machine, s: Stmt, env: Env)
    requires JumpsHarmless(m, s, env)
    ensures Performed(m, s, env) == Exec(m, s, env)
    decreases s, 0
  {
    hide Holds;
    match s {
      case If(cond, thn, els) =>
        if Holds(m, cond, env) {
          HarmlessIsExec(m, thn, env);
        } else if els.Some? {
          HarmlessIsExec(m, els.value, env);
        }
      case Compound(stmts) => HarmlessIsExecAll(m, stmts, env);
      case _ =>
    }
  }

  lemma {:induction false} HarmlessIsExecAll(m: Machine, ss: seq<Stmt>, env: Env)
    requires JumpsHarmlessAll(m, ss, env)
    ensures PerformedAll(m, ss, env) == ExecAll(m, ss, env)
    decreases ss, 0
  {
    if ss != [] {
      HarmlessIsExec(m, ss[0], env);
      var flow := Exec(m, ss[0], env);
      if flow.Next? {
        HarmlessIsExecAll(m, ss[1..], flow.env);
      }
    }
  }

  /** The same told by what the statement says alone: the `else` that is run on into is one that,
      executed there, does nothing, and misses no jump either. */
  predicate JumpsIdle(m: Machine, s: Stmt, env: Env)
    decreases s, 0
  {
    match s
    case If(cond, thn, els) =>
      if Holds(m, cond, env) then
        && JumpsIdle(m, thn, env)
        && var flow := Exec(m, thn, env);
           (flow.Next? && els.Some? && !m.jumps ==>
              Exec(m, els.value, flow.env) == flow && JumpsIdle(m, els.value, flow.env))
      else els.Some? ==> JumpsIdle(m, els.value, env)
    case Compound(stmts) => JumpsIdleAll(m, stmts, env)
    case _ => true
  }

  predicate JumpsIdleAll(m: Machine, ss: seq<Stmt>, env: Env)
    decreases ss, 0
  {
    ss != [] ==>
      && JumpsIdle(m, ss[0], env)
      && var flow := Exec(m, ss[0], env);
         (flow.Next? ==> JumpsIdleAll(m, ss[1..], flow.env))
  }

  lemma {:induction false} IdleIsHarmless(m: Machine, s: Stmt, env: Env)
    requires JumpsIdle(m, s, env)
    ensures JumpsHarmless(m, s, env) && Performed(m, s, env) == Exec(m, s, env)
    decreases s, 0
  {
    hide Holds;
    match s {
      case If(cond, thn, els) =>
        if Holds(m, cond, env) {
          IdleIsHarmless(m, thn, env);
          var flow := Exec(m, thn, env);
          if flow.Next? && els.Some? && !m.jumps {
            IdleIsHarmless(m, els.value, flow.env);
          }
        } else if els.Some? {
          IdleIsHarmless(m, els.value, env);
        }
      case Compound(stmts) => IdleIsHarmlessAll(m, stmts, env);
      case _ =>
    }
    HarmlessIsExec(m, s, env);
  }

  lemma {:induction false} IdleIsHarmlessAll(m: Machine, ss: seq<Stmt>, env: Env)
    requires JumpsIdleAll(m, ss, env)
    ensures JumpsHarmlessAll(m, ss, env)
    decreases ss, 0
  {
    if ss != [] {
      IdleIsHarmless(m, ss[0], env);
      var flow := Exec(m, ss[0], env);
      if flow.Next? {
        IdleIsHarmlessAll(m, ss[1..], flow.env);
      }
    }
  }

  /** A `then` that flows on into the `else` behind it, where neither misses a jump of its own: the
      code performs what the `if` says exactly when the `else`, executed there, does nothing. */
  lemma {:induction false} RunningOnIff(m: Machine, s: Stmt, env: Env)
    requires s.If? && s.els.Some? && Holds(m, s.cond, env) && !m.jumps
    requires JumpsIdle(m, s.thn, env) && Exec(m, s.thn, env).Next?
    requires JumpsIdle(m, s.els.value, Exec(m, s.thn, env).env)
    ensures Performed(m, s, env) == Exec(m, s, env) <==>
      Exec(m, s.els.value, Exec(m, s.thn, env).env) == Exec(m, s.thn, env)
  {
    var env' := Exec(m, s.thn, env).env;
    IdleIsHarmless(m, s.thn, env);
    IdleIsHarmless(m, s.els.value, env');
    hide Holds;
  }

  /** For an `if` whose executed part is harmless it is exact: the code performs what the `if`
      says exactly when its own jump is harmless too. */
  lemma {:induction false} PerformedIsExecIff(m: Machine, s: Stmt, env: Env)
    requires s.If?
    requires if Holds(m, s.cond, env) then JumpsHarmless(m, s.thn, env) else s.els.Some? ==>
      JumpsHarmless(m, s.els.value, env)
    ensures Performed(m, s, env) == Exec(m, s, env) <==> JumpsHarmless(m, s, env)
  {
    if Holds(m, s.cond, env) {
      HarmlessIsExec(m, s.thn, env);
    } else if s.els.Some? {
      HarmlessIsExec(m, s.els.value, env);
    }
    hide Holds;
  }

  /** Jumps are harmless where they are taken, and where every `then` that has an `else` decides. */
  lemma {:induction false} DecidingIsHarmless(m: Machine, s: Stmt, env: Env)
    requires m.jumps || ThenBranchesDecide(s)
    ensures JumpsHarmless(m, s, env)
    decreases s, 0
  {
    match s {
      case If(cond, thn, els) =>
        DecidingIsHarmless(m, thn, env);
        if els.Some? {
          DecidingIsHarmless(m, els.value, env);
          if !m.jumps {
            DecidesStops(m, thn, env);
          }
        }
      case Compound(stmts) => DecidingIsHarmlessAll(m, stmts, env);
      case _ =>
    }
  }

  lemma {:induction false} DecidingIsHarmlessAll(m: Machine, ss: seq<Stmt>, env: Env)
    requires m.jumps || forall s | s in ss :: ThenBranchesDecide(s)
    ensures JumpsHarmlessAll(m, ss, env)
    decreases ss, 0
  {
    if ss != [] {
      DecidingIsHarmless(m, ss[0], env);
      var flow := Exec(m, ss[0], env);
      if flow.Next? {
        DecidingIsHarmlessAll(m, ss[1..], flow.env);
      }
    }
  }
}
