/** Exactly when the filter reads an instruction as it is meant, operator by operator, and what
    register X holds when a negation reads it. */
module Misread {
  import opened Syntax
  import opened Ir
  import opened BpfGen
  import opened Bpf
  import opened Reading

  // ---------- Comparisons ----------

  /** With the first operand in A and a literal beside it, `<` and `<=` go wrong on equal
      operands, and nothing else does. */
  lemma {:induction false} LiteralTestIff(op: OpCode, x: Word, y: Word)
    requires IsCompare(op)
    ensures ReadTest(op, false, x, y) == Compare(op, x, y) <==> op !in {LT, LE} || x != y
  {
  }

  /** With the second operand in A the comparison is the other way round: `==` and `!=` are
      right, `>` and `>=` are on equal operands, and `<` and `<=` never are. */
  lemma {:induction false} SwappedTestIff(op: OpCode, x: Word, y: Word)
    requires IsCompare(op)
    ensures ReadTest(op, false, y, x) == Compare(op, x, y) <==> op in {EQ, NE} || (op in {GT, GE} && x == y)
  {
  }

  /** An argument `y` on the right is read as its offset `k`: the comparison is right exactly
      when `x` does not lie between the two. */
  lemma {:induction false} ArgumentTestIff(op: OpCode, x: Word, y: Word, k: Word)
    requires IsCompare(op)
    ensures ReadTest(op, true, x, k) == Compare(op, x, y) <==>
      match op
      case GT => !(y < x <= k) && !(k < x <= y)
      case GE => !(y <= x < k) && !(k <= x < y)
      case LT => !(y <= x <= k) && !(k < x < y)
      case LE => !(y < x < k) && !(k <= x <= y)
      case _ => if x == y then k <= x else x < k
  {
  }

  /** An argument `x` on the left of a computed operand is read as its offset, and on the
      right. */
  lemma {:induction false} SwappedArgumentTestIff(op: OpCode, x: Word, y: Word, k: Word)
    requires IsCompare(op)
    ensures ReadTest(op, true, y, k) == Compare(op, x, y) <==>
      match op
      case GT => if y > k then x > y else x <= y
      case GE => if y >= k then x >= y else x < y
      case LT => if y <= k then x < y else x >= y
      case LE => if y < k then x <= y else x > y
      case _ => if x == y then k <= y else y < k
  {
  }

  // ---------- Arithmetic ----------

  lemma {:induction false} SameRemainder(a: int, b: int, n: int)
    requires n > 0
    ensures a % n == b % n <==> (a - b) % n == 0
  {
    var p, q := a / n, b / n;
    assert a == p * n + a % n && b == q * n + b % n;
    assert a - b == (p - q) * n + (a % n - b % n);
    var r := (a - b) / n;
    assert a - b == r * n + (a - b) % n;
    if (a - b) % n == 0 {
      var d := a % n - b % n;
      assert d == (r - p + q) * n;
      Multiple(d, r - p + q, n);
    }
    if a % n == b % n {
      var d := (a - b) % n;
      assert d == (p - q - r) * n;
      Multiple(d, p - q - r, n);
    }
  }

  lemma {:induction false} Multiple(d: int, q: int, n: int)
    requires n > 0 && d == q * n && -n < d < n
    ensures d == 0
  {
    assert q >= 1 ==> q * n >= n;
    assert q <= -1 ==> q * n <= -n;
  }

  lemma {:induction false} FromBitsInjective(x: bv32, y: bv32)
    ensures FromBits(x) == FromBits(y) <==> x == y
  {
    assert (x as int) as bv32 == x && (y as int) as bv32 == y;
  }

  lemma {:induction false} XorInjective(x: bv32, k: bv32, y: bv32)
    ensures x ^ k == x ^ y <==> k == y
  {
  }

  /** An argument `y` on the right is read as its offset `k`: `+` becomes `*`, `-` becomes `/`,
      `%` becomes nothing at all.  Exactly when the value is the one that is meant. */
  lemma {:induction false} ArgumentValueIff(m: Machine, op: OpCode, x: Word, y: Word, k: Word)
    requires m.alu == Alu32 && op in {PLUS, MINUS, MULT, DIV, MOD}
    ensures ReadAlu(m, op, true, x, k) == Some(m.alu(op, x, y)) <==>
      match op
      case PLUS => (x * k - (x + y)) % MODULUS == 0
      case MINUS => k != 0 && x / k == (x - y) % MODULUS
      case MULT => (x * k - x * y) % MODULUS == 0
      case DIV => k != 0 && x / k == (if y == 0 then 0 else x / y)
      case _ => false
  {
    hide Bits, FromBits;
    match op
    case PLUS => SameRemainder(x * k, x + y, MODULUS);
    case MULT => SameRemainder(x * k, x * y, MODULUS);
    case _ =>
  }

  /** The same of the bit operators: `&` becomes `>>` and `|` becomes `<<`; an offset of 32 or
      more is rejected as a shift count. */
  lemma {:induction false} ArgumentBitsIff(m: Machine, op: OpCode, x: Word, y: Word, k: Word)
    requires m.alu == Alu32 && op in {BITAND, BITOR, BITXOR, SHL, SHR}
    ensures ReadAlu(m, op, true, x, k) == Some(m.alu(op, x, y)) <==>
      match op
      case BITAND => k < 32 && Alu32(SHR, x, k) == Alu32(BITAND, x, y)
      case BITOR => k < 32 && Alu32(SHL, x, k) == Alu32(BITOR, x, y)
      case BITXOR => Bits(k) == Bits(y)
      case SHL => k < 32 && Alu32(SHL, x, k) == Alu32(SHL, x, y)
      case _ => k < 32 && Alu32(SHR, x, k) == Alu32(SHR, x, y)
  {
    if op == BITXOR {
      XorIsRightIff(x, y, k);
    }
    hide Alu32;
  }

  /** For the arguments that there are: `|` is right on two zeros only, and a shift if the count
      happens to be the offset or both results are zero; and only for the first two arguments. */
  lemma {:induction false} ArgumentOffsetIff(m: Machine, op: OpCode, x: Word, y: Word, i: nat)
    requires m.alu == Alu32 && op in {BITOR, SHL, SHR} && i < 6
    ensures var k := KValue(ArgField(i));
      && k == 16 + 8 * i
      && (ReadAlu(m, op, true, x, k) == Some(m.alu(op, x, y)) <==>
            i < 2 && if op == BITOR then Bits(x) == 0 && Bits(y) == 0
                     else y == k || (Alu32(op, x, k) == 0 && Alu32(op, x, y) == 0))
  {
    var k := KValue(ArgField(i));
    ArgumentBitsIff(m, op, x, y, k);
    hide Alu32;
    if i < 2 {
      if op == BITOR {
        OrIsZero(x, y, k);
      } else {
        ShiftsDiffer(op, x, y, k);
      }
    }
  }

  function Left(b: bv32, k: nat): bv32
    requires k < 32
  {
    b << k
  }

  function Right(b: bv32, k: nat): bv32
    requires k < 32
  {
    b >> k
  }

  function Either(b: bv32, c: bv32): bv32 {
    b | c
  }

  lemma {:induction false} ShiftIs(x: Word, k: Word)
    ensures Alu32(SHL, x, k) == if k < 32 then FromBits(Left(Bits(x), k)) else 0
    ensures Alu32(SHR, x, k) == if k < 32 then FromBits(Right(Bits(x), k)) else 0
  {
    hide Bits, FromBits;
  }

  lemma {:induction false} OrIs(x: Word, y: Word)
    ensures Alu32(BITOR, x, y) == FromBits(Either(Bits(x), Bits(y)))
  {
    hide Bits, FromBits;
  }

  lemma {:induction false} OrIsZero(x: Word, y: Word, k: Word)
    requires k == 16 || k == 24
    ensures Alu32(SHL, x, k) == Alu32(BITOR, x, y) <==> Bits(x) == 0 && Bits(y) == 0
  {
    hide *;
    ShiftIs(x, k);
    OrIs(x, y);
    var b, c := Bits(x), Bits(y);
    OrIsShifted(b, c, k);
    FromBitsInjective(Left(b, k), Either(b, c));
  }

  lemma {:induction false} OrIsShifted(b: bv32, c: bv32, k: nat)
    requires k == 16 || k == 24
    ensures Left(b, k) == Either(b, c) <==> b == 0 && c == 0
  {
    if k == 16 {
      assert b << 16 == b | c <==> b == 0 && c == 0;
    } else {
      assert b << 24 == b | c <==> b == 0 && c == 0;
    }
  }

  lemma {:induction false} ShiftsDiffer(op: OpCode, x: Word, y: Word, k: Word)
    requires (op == SHL || op == SHR) && (k == 16 || k == 24)
    ensures Alu32(op, x, k) == Alu32(op, x, y) <==> y == k || (Alu32(op, x, k) == 0 && Alu32(op, x, y) == 0)
  {
    hide *;
    ShiftIs(x, k);
    ShiftIs(x, y);
    ZeroFromBits();
    var b := Bits(x);
    if y < 32 {
      LeftDiffers(b, k, y);
      RightDiffers(b, k, y);
      FromBitsInjective(Left(b, k), Left(b, y));
      FromBitsInjective(Right(b, k), Right(b, y));
    }
  }

  lemma {:induction false} ZeroFromBits()
    ensures FromBits(0) == 0
  {
  }

  lemma {:induction false} LeftDiffers(b: bv32, k: nat, y: nat)
    requires (k == 16 || k == 24) && y < 32
    ensures Left(b, k) == Left(b, y) ==> y == k || Left(b, k) == 0
  {
    if k == 16 {
      assert b << 16 == b << y ==> y == 16 || b << 16 == 0;
    } else {
      assert b << 24 == b << y ==> y == 24 || b << 24 == 0;
    }
  }

  lemma {:induction false} RightDiffers(b: bv32, k: nat, y: nat)
    requires (k == 16 || k == 24) && y < 32
    ensures Right(b, k) == Right(b, y) ==> y == k || Right(b, k) == 0
  {
    if k == 16 {
      assert b >> 16 == b >> y ==> y == 16 || b >> 16 == 0;
    } else {
      assert b >> 24 == b >> y ==> y == 24 || b >> 24 == 0;
    }
  }

  lemma {:induction false} XorIsRightIff(x: Word, y: Word, k: Word)
    ensures Alu32(BITXOR, x, k) == Alu32(BITXOR, x, y) <==> Bits(k) == Bits(y)
  {
    hide Bits, FromBits;
    var b, p, q := Bits(x), Bits(k), Bits(y);
    assert Alu32(BITXOR, x, k) == FromBits(b ^ p) && Alu32(BITXOR, x, y) == FromBits(b ^ q);
    FromBitsInjective(b ^ p, b ^ q);
    XorInjective(b, p, q);
  }

  // ---------- Negations ----------

  /** What a run of the filter does with X: an operation on two computed operands loads it with
      the first of them, and a negation reads it. */
  datatype Event = Paired(left: Word) | Negated(x: Word, operand: Word)

  function EventOf(i: Inst, env: Env, tmp: Temps, x: Word): seq<Event> {
    if IsPair(i) && Val(i.a, env, tmp).Some? then [Paired(Val(i.a, env, tmp).value)]
    else if i.Arith1? && Val(i.a, env, tmp).Some? then [Negated(x, Val(i.a, env, tmp).value)]
    else []
  }

  /** These events, in the order in which the run of the reading meets them. */
  function Events(m: Machine, idx: ArgIndex, c: Code, env: Env, tmp: Temps, r: Regs): seq<Event>
    decreases |c|
  {
    if c == [] then []
    else
      var i, rest := c[0], c[1..];
      match i
      case Mark(_) => Events(m, idx, rest, env, map[], r)
      case Return(_) => []
      case Call(id, _, _) => Events(m, idx, rest, env, tmp[id := r.a], r)
      case Store(_, _) => Events(m, idx, rest, env, map[], r)
      case Jump(_) => Events(m, idx, rest, env, map[], r)
      case Branch(op, _, _, t, f) =>
        var u, k := Val(InA(i), env, tmp), Beside(idx, i, env, tmp);
        EventOf(i, env, tmp, r.x) +
        if u.Some? && k.Some? then
          var to := if ReadTest(op, Other(i).Mem?, u.value, k.value) then t else f;
          if Mark(to) in rest then Events(m, idx, After(rest, to), env, map[],
            Regs(u.value, XAfter(i, env, tmp, r.x))) else []
        else []
      case _ =>
        var v := ReadArith(m, idx, i, env, tmp, r.x);
        EventOf(i, env, tmp, r.x) +
        if v.Some? then Events(m, idx, rest, env, tmp[i.id := v.value], Regs(v.value, XAfter(i, env, tmp, r.x))) else []
  }

  /** The operand that was last loaded into X, which held `x` before. */
  function LastLeft(es: seq<Event>, x: Word): Word {
    if es == [] then x
    else
      var n := |es| - 1;
      if es[n].Paired? then es[n].left else LastLeft(es[..n], x)
  }

  /** Every negation reads what was loaded last before it. */
  predicate ReadsLastLeft(es: seq<Event>, x: Word) {
    forall k | 0 <= k < |es| && es[k].Negated? :: es[k].x == LastLeft(es[..k], x)
  }

  lemma {:induction false} LastLeftConcat(a: seq<Event>, b: seq<Event>, x: Word)
    ensures LastLeft(a + b, x) == LastLeft(b, LastLeft(a, x))
  {
    if b == [] {
      assert a + b == a;
    } else {
      var n := |b| - 1;
      assert (a + b)[|a + b| - 1] == b[n] && (a + b)[..|a + b| - 1] == a + b[..n];
      LastLeftConcat(a, b[..n], x);
    }
  }

  /** The events of one instruction, and the ones behind it. */
  lemma {:induction false} EventsJoin(i: Inst, env: Env, tmp: Temps, x: Word, more: seq<Event>)
    requires ReadsLastLeft(more, XAfter(i, env, tmp, x))
    ensures ReadsLastLeft(EventOf(i, env, tmp, x) + more, x)
  {
    var e := EventOf(i, env, tmp, x);
    var es := e + more;
    assert LastLeft(e, x) == XAfter(i, env, tmp, x) by {
      if e != [] {
        assert e[..0] == [];
      }
    }
    forall k | 0 <= k < |es| && es[k].Negated?
      ensures es[k].x == LastLeft(es[..k], x)
    {
      if k >= |e| {
        assert es[..k] == e + more[..k - |e|];
        LastLeftConcat(e, more[..k - |e|], x);
      } else {
        assert es[..k] == [];
      }
    }
  }

  lemma {:induction false} NothingRead(x: Word)
    ensures ReadsLastLeft([], x)
  {
  }

  /** Over every run: a negation reads in X the first operand of the last operation on two
      computed operands before it, or what X held at the start. */
  lemma {:induction false} NegationReadsLastLeft(m: Machine, idx: ArgIndex, c: Code, env: Env, tmp: Temps, r: Regs)
    ensures ReadsLastLeft(Events(m, idx, c, env, tmp, r), r.x)
    decreases |c|
  {
    hide ReadTest, ReadArith, ReadsLastLeft, XAfter, EventOf;
    if c == [] {
      assert ReadsLastLeft([], r.x) by { NothingRead(r.x); }
    } else {
      var i, rest := c[0], c[1..];
      match i {
        case Return(_) => NothingRead(r.x);
        case Call(id, _, _) => NegationReadsLastLeft(m, idx, rest, env, tmp[id := r.a], r);
        case Branch(op, _, _, t, f) =>
          var u, k := Val(InA(i), env, tmp), Beside(idx, i, env, tmp);
          var more := [];
          NothingRead(XAfter(i, env, tmp, r.x));
          if u.Some? && k.Some? {
            var to := if ReadTest(op, Other(i).Mem?, u.value, k.value) then t else f;
            if Mark(to) in rest {
              var r' := Regs(u.value, XAfter(i, env, tmp, r.x));
              more := Events(m, idx, After(rest, to), env, map[], r');
              NegationReadsLastLeft(m, idx, After(rest, to), env, map[], r');
            }
          }
          EventsJoin(i, env, tmp, r.x, more);
        case Arith1(_, _, _) => NegationInArith(m, idx, c, env, tmp, r);
        case Arith2(_, _, _, _) => NegationInArith(m, idx, c, env, tmp, r);
        case _ => NegationReadsLastLeft(m, idx, rest, env, map[], r);
      }
    }
  }

  lemma {:induction false} NegationInArith(m: Machine, idx: ArgIndex, c: Code, env: Env, tmp: Temps, r: Regs)
    requires c != [] && (c[0].Arith1? || c[0].Arith2?)
    ensures ReadsLastLeft(Events(m, idx, c, env, tmp, r), r.x)
    decreases |c|, 0
  {
    hide ReadArith, ReadsLastLeft, XAfter, EventOf;
    var i, v := c[0], ReadArith(m, idx, c[0], env, tmp, r.x);
    var more := [];
    NothingRead(XAfter(i, env, tmp, r.x));
    if v.Some? {
      var r' := Regs(v.value, XAfter(i, env, tmp, r.x));
      more := Events(m, idx, c[1..], env, tmp[i.id := v.value], r');
      NegationReadsLastLeft(m, idx, c[1..], env, tmp[i.id := v.value], r');
    }
    EventsJoin(i, env, tmp, r.x, more);
  }

  lemma {:induction false} NothingPaired(m: Machine, idx: ArgIndex, c: Code, env: Env, tmp: Temps, r: Regs)
    requires forall i | i in c :: !IsPair(i)
    ensures forall e | e in Events(m, idx, c, env, tmp, r) :: e.Negated?
    decreases |c|
  {
    hide ReadTest, ReadArith, XAfter;
    if c != [] {
      var i, rest := c[0], c[1..];
      assert i in c && forall i' | i' in rest :: i' in c;
      match i {
        case Return(_) =>
        case Call(id, _, _) => NothingPaired(m, idx, rest, env, tmp[id := r.a], r);
        case Branch(op, _, _, t, f) =>
          var u, k := Val(InA(i), env, tmp), Beside(idx, i, env, tmp);
          if u.Some? && k.Some? {
            var to := if ReadTest(op, Other(i).Mem?, u.value, k.value) then t else f;
            if Mark(to) in rest {
              AfterWithin(rest, to);
              NothingPaired(m, idx, After(rest, to), env, map[], Regs(u.value, XAfter(i, env, tmp, r.x)));
            }
          }
        case Mark(_) => NothingPaired(m, idx, rest, env, map[], r);
        case Store(_, _) => NothingPaired(m, idx, rest, env, map[], r);
        case Jump(_) => NothingPaired(m, idx, rest, env, map[], r);
        case _ =>
          var v := ReadArith(m, idx, i, env, tmp, r.x);
          if v.Some? {
            NothingPaired(m, idx, rest, env, tmp[i.id := v.value], Regs(v.value, XAfter(i, env, tmp, r.x)));
          }
      }
    }
  }

  lemma {:induction false} NothingLoaded(es: seq<Event>, x: Word)
    requires forall e | e in es :: e.Negated?
    ensures LastLeft(es, x) == x
  {
    if es != [] {
      assert es[|es| - 1] in es;
      NothingLoaded(es[..|es| - 1], x);
    }
  }

  /** In a filter without operations on two computed operands, entered with 0 in X, every
      negation yields 0, and is right exactly when its operand is 0. */
  lemma {:induction false} NegationReadsZero(m: Machine, idx: ArgIndex, c: Code, env: Env, tmp: Temps, r: Regs,
                                             e: Event)
    requires (forall i | i in c :: !IsPair(i)) && r.x == 0 && m.alu == Alu32 && e in Events(m, idx, c, env, tmp, r)
    ensures e.Negated? && m.alu(MINUS, 0, e.x) == 0
    ensures m.alu(MINUS, 0, e.x) == m.alu(UMINUS, e.operand, 0) <==> e.operand == 0
  {
    hide Events;
    var es := Events(m, idx, c, env, tmp, r);
    NegationReadsLastLeft(m, idx, c, env, tmp, r);
    NothingPaired(m, idx, c, env, tmp, r);
    var k :| 0 <= k < |es| && es[k] == e;
    assert forall e' | e' in es[..k] :: e' in es;
    NothingLoaded(es[..k], r.x);
    assert e.x == 0;
  }
}
