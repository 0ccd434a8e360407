/** Label resolution: BPFTransformLabels. */
module Resolve {
  import opened Syntax
  import opened Ir
  import opened Bpf

  /** How many lines that are not labels precede the last line of the label. */
  function Distance(fs: Filters, l: Label): nat
    requires LabelLine(l) in fs
  {
    if LabelLine(l) in fs[1..] then (if fs[0].LabelLine? then 0 else 1) + Distance(fs[1..], l) else 0
  }

  function ResolveTarget(rest: Filters, t: Target): Target {
    if t.At? && LabelLine(t.lbl) in rest then Off(Distance(rest, t.lbl)) else t
  }

  function ResolveLine(f: Filter, rest: Filters): Filter {
    if f.JumpLine? then f.(jt := ResolveTarget(rest, f.jt), jf := ResolveTarget(rest, f.jf)) else f
  }

  /** The program without labels, each target an offset from the next line. */
  function Resolved(fs: Filters): (r: Filters)
    ensures |r| <= |fs|
  {
    if fs == [] then []
    else if fs[0].LabelLine? then Resolved(fs[1..])
    else [ResolveLine(fs[0], fs[1..])] + Resolved(fs[1..])
  }

  /** Before resolution an offset can only be the literal 0 of the dispatch chain. */
  predicate ZeroOffsets(fs: Filters) {
    forall f | f in fs && f.JumpLine? :: (f.jt.Off? ==> f.jt.n == 0) && (f.jf.Off? ==> f.jf.n == 0)
  }

  lemma {:induction false} ResolvedHasNoLabels(fs: Filters)
    ensures forall f | f in Resolved(fs) :: !f.LabelLine?
  {
    if fs != [] {
      ResolvedHasNoLabels(fs[1..]);
    }
  }

  /** A resolved offset points at what follows the label, also behind a run of labels. */
  lemma {:induction false} ResolvedAfter(fs: Filters, l: Label)
    requires LabelLine(l) in fs
    ensures Distance(fs, l) <= |Resolved(fs)|
    ensures Resolved(fs)[Distance(fs, l)..] == Resolved(AfterLine(fs, l))
  {
    if LabelLine(l) in fs[1..] {
      ResolvedAfter(fs[1..], l);
    }
  }

  /** Running the resolved program is running the labelled one. */
  lemma {:induction false} ResolvePreserves(m: Machine, data: Data, fs: Filters, a: Word, x: Word, mem: Word)
    requires ZeroOffsets(fs)
    ensures RunF(m, data, Resolved(fs), a, x, mem) == RunF(m, data, fs, a, x, mem)
    decreases |fs|, 0
  {
    if fs != [] {
      hide Decode, GoTo, Faults, Compare;
      var f, rest := fs[0], fs[1..];
      assert f in fs && ZeroOffsets(rest);
      if f.LabelLine? {
        ResolvePreserves(m, data, rest, a, x, mem);
      } else {
        var r := Resolved(rest);
        assert Resolved(fs)[0] == ResolveLine(f, rest) && Resolved(fs)[1..] == r;
        if f.JumpLine? {
          hide RunF;
          forall t | t == f.jt || t == f.jf
            ensures GoTo(m, data, r, ResolveTarget(rest, t), a, x, mem) == GoTo(m, data, rest, t, a, x, mem)
          {
            ResolveGoTo(m, data, rest, t, a, x, mem);
          }
          JumpLineRun(m, data, f, rest, a, x, mem);
          JumpLineRun(m, data, ResolveLine(f, rest), r, a, x, mem);
          assert fs == [f] + rest && Resolved(fs) == [ResolveLine(f, rest)] + r;
        } else if f.Stmt? {
          var d := Decode(f.code);
          match d {
            case LoadAbs =>
              var v := Load(f.k, data);
              if v.Some? {
                ResolvePreserves(m, data, rest, v.value, x, mem);
              }
            case LoadImm => ResolvePreserves(m, data, rest, KValue(f.k), x, mem);
            case StoreM => ResolvePreserves(m, data, rest, a, x, a);
            case LoadXM => ResolvePreserves(m, data, rest, a, mem, mem);
            case Alu(op, useX) =>
              ResolvePreserves(m, data, rest, m.alu(op, a, if useX then x else KValue(f.k)), x, mem);
            case _ =>
          }
        }
      }
    }
  }

  lemma {:induction false} JumpLineRun(m: Machine, data: Data, f: Filter, rest: Filters, a: Word, x: Word, mem: Word)
    requires f.JumpLine?
    ensures RunF(m, data, [f] + rest, a, x, mem) ==
      var d := Decode(f.code);
      if d.Comparison? then
        GoTo(m, data, rest, if Compare(d.op, a, if d.x then x else KValue(f.k)) then f.jt else f.jf, a, x, mem)
      else BadFilter
  {
    hide Decode, GoTo, Compare;
    assert ([f] + rest)[1..] == rest;
  }

  lemma {:induction false} ResolveGoTo(m: Machine, data: Data, rest: Filters, t: Target, a: Word, x: Word, mem: Word)
    requires ZeroOffsets(rest) && (t.Off? ==> t.n == 0)
    ensures GoTo(m, data, Resolved(rest), ResolveTarget(rest, t), a, x, mem) == GoTo(m, data, rest, t, a, x, mem)
    decreases |rest|, 1
  {
    hide RunF;
    if t.Off? {
      assert rest[0..] == rest && Resolved(rest)[0..] == Resolved(rest);
      ResolvePreserves(m, data, rest, a, x, mem);
    } else if LabelLine(t.lbl) in rest {
      ResolvedAfter(rest, t.lbl);
      AfterLineWithin(rest, t.lbl);
      ResolvePreserves(m, data, AfterLine(rest, t.lbl), a, x, mem);
    } else {
      ResolvedHasNoLabels(rest);
    }
  }

  lemma {:induction false} AfterLineWithin(fs: Filters, l: Label)
    requires LabelLine(l) in fs
    ensures forall f | f in AfterLine(fs, l) :: f in fs
  {
    if LabelLine(l) in fs[1..] {
      AfterLineWithin(fs[1..], l);
    }
  }

  // ---------- The width of an offset ----------

  /** The jump fields of `struct sock_filter` are eight bits wide. */
  function NarrowTarget(t: Target): Target {
    if t.Off? then Off(t.n % 256) else t
  }

  function NarrowLine(f: Filter): Filter {
    if f.JumpLine? then f.(jt := NarrowTarget(f.jt), jf := NarrowTarget(f.jf)) else f
  }

  /** The program as the kernel receives it. */
  function Assembled(fs: Filters): (r: Filters)
    ensures |r| == |fs| && forall k :: 0 <= k < |fs| ==> r[k] == NarrowLine(fs[k])
  {
    if fs == [] then [] else [NarrowLine(fs[0])] + Assembled(fs[1..])
  }

  predicate NarrowOffsets(fs: Filters) {
    forall f | f in fs && f.JumpLine? :: (f.jt.Off? ==> f.jt.n < 256) && (f.jf.Off? ==> f.jf.n < 256)
  }

  /** Assembly keeps the program exactly when no offset exceeds 255. */
  lemma {:induction false} AssembledIsSameIff(fs: Filters)
    ensures Assembled(fs) == fs <==> NarrowOffsets(fs)
  {
    if NarrowOffsets(fs) {
      forall k | 0 <= k < |fs|
        ensures Assembled(fs)[k] == fs[k]
      {
        assert fs[k] in fs;
      }
    } else {
      var f :| f in fs && f.JumpLine? && !((f.jt.Off? ==> f.jt.n < 256) && (f.jf.Off? ==> f.jf.n < 256));
      var k :| 0 <= k < |fs| && fs[k] == f;
      assert Assembled(fs)[k] != fs[k];
    }
  }

  /** A program of at most 256 lines has only narrow offsets. */
  lemma {:induction false} ShortIsNarrow(fs: Filters)
    requires ZeroOffsets(fs) && |Resolved(fs)| <= 256
    ensures NarrowOffsets(Resolved(fs))
  {
    if fs != [] {
      var f, rest := fs[0], fs[1..];
      assert f in fs && ZeroOffsets(rest);
      ShortIsNarrow(rest);
      if f.JumpLine? {
        forall t | (t == f.jt || t == f.jf) && t.At? && LabelLine(t.lbl) in rest
          ensures Distance(rest, t.lbl) < 256
        {
          ResolvedAfter(rest, t.lbl);
        }
      }
    }
  }

  /** A jump over `n` lines goes over `n % 256` lines once its offset is cut to eight bits,
      whichever arm it takes. */
  lemma {:induction false} LongJumpWraps(m: Machine, data: Data, f: Filter, rest: Filters, a: Word, x: Word, mem: Word)
    requires f.JumpLine? && Decode(f.code).Comparison?
    ensures var d := Decode(f.code);
      var t := if Compare(d.op, a, if d.x then x else KValue(f.k)) then f.jt else f.jf;
      t.Off? ==>
        RunF(m, data, [NarrowLine(f)] + rest, a, x, mem) ==
        (if t.n % 256 <= |rest| then RunF(m, data, rest[t.n % 256..], a, x, mem) else BadFilter)
  {
    hide Decode, Compare;
    JumpLineRun(m, data, NarrowLine(f), rest, a, x, mem);
  }
}
