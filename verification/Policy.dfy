/** A whole policy: one filter for all its checks, one text for the tracer, and the tables
    between them. */
module Policy {
  import opened Syntax
  import opened Ir
  import opened IrGen
  import opened Cfg
  import opened Colour
  import opened Bpf
  import opened Resolve
  import opened Dispatch
  import opened Lifter
  import opened Check
  import opened CheckRun

  /** A check with what was built for it: where its labels and identities start, its blocks,
      and the number of its first hand-off. */
  datatype Built = Built(ck: Check, at: Base, bs: Blocks, n: nat)

  type Builts = seq<Built>

  // ---------- Building in sequence ----------

  function BaseAfter(b: Built): Base {
    var g := StmtCode(b.ck.body, b.at.labels, b.at.ids);
    Base(g.labels, g.ids)
  }

  ghost predicate WellBuilt(b: Built) {
    Compiled(b.ck, b.at, b.bs, b.n)
  }

  /** The labels at which the filter of the check hands off, in order. */
  ghost function Table(b: Built): seq<Label> {
    if b.bs != [] && Ordered(b.bs) then TableOf(b.bs, b.n) else []
  }

  /** The checks share one label counter and one hand-off counter, `ret_data`. */
  ghost predicate InSequence(ps: Builts, at: Base, n: nat) {
    ps != [] ==>
      && WellBuilt(ps[0]) && ps[0].at == at && ps[0].n == n
      && InSequence(ps[1..], BaseAfter(ps[0]), n + |Table(ps[0])|)
  }

  // ---------- The filter ----------

  /** The numbers of syscalls, from the table of names. */
  type Numbers = map<string, Word>

  function NumberOf(nrs: Numbers, name: string): Word {
    if name in nrs then nrs[name] else 0
  }

  ghost function EntryOf(b: Built, nrs: Numbers): Entry {
    Entry(b.ck.name, NumberOf(nrs, b.ck.name),
      if b.bs != [] && Ordered(b.bs) && FilterOf(b.ck, b.bs, b.n).Some? then FilterOf(b.ck, b.bs, b.n).value else [])
  }

  ghost function Entries(ps: Builts, nrs: Numbers): (es: seq<Entry>)
    ensures |es| == |ps| && forall k :: 0 <= k < |ps| ==> es[k] == EntryOf(ps[k], nrs)
  {
    if ps == [] then [] else [EntryOf(ps[0], nrs)] + Entries(ps[1..], nrs)
  }

  /** The filter with its offsets resolved, before they are cut to eight bits. */
  ghost function ResolvedFilter(ps: Builts, nrs: Numbers, defaultDeny: bool): Filters
    requires ps != []
  {
    Resolved(Program(Entries(ps, nrs), defaultDeny))
  }

  // ---------- The tables and the tracer's text ----------

  /** `ret_data_to_label`, and so `jmp_table`. */
  ghost function JmpTable(ps: Builts): seq<Label> {
    if ps == [] then [] else Table(ps[0]) + JmpTable(ps[1..])
  }

  /** The label of some block of the check that needs the tracer. */
  ghost predicate HasTracerBlock(b: Built, l: Label) {
    Ordered(b.bs) && exists k: nat | k < |b.bs| && Coloured(b.bs, k) :: b.bs[k].label_ == l
  }

  /** `label_2_check`: the last check with a tracer block of that label. */
  ghost function OwnerOf(ps: Builts, l: Label): (r: Option<nat>)
    ensures r.Some? ==> r.value < |ps| && HasTracerBlock(ps[r.value], l)
    ensures r.Some? ==> forall k | r.value < k < |ps| :: !HasTracerBlock(ps[k], l)
    ensures r.None? ==> forall k | 0 <= k < |ps| :: !HasTracerBlock(ps[k], l)
  {
    if ps == [] then None
    else
      var n := |ps| - 1;
      if HasTracerBlock(ps[n], l) then Some(n) else OwnerOf(ps[..n], l)
  }

  /** The text of a check in front of whose hand-offs `before` is in the table: all labels of the
      table that are labels of its tracer blocks can be gone to. */
  ghost function TextAfter(b: Built, before: seq<Label>): Lines {
    if b.bs != [] && Ordered(b.bs) then TextOf(JobOf(b.ck, b.at, b.bs, b.n).(iface := PointsOf(b, before))) else []
  }

  ghost function PointsOf(b: Built, before: seq<Label>): set<Label> {
    set l | l in before + Table(b) && HasTracerBlock(b, l)
  }

  /** The text of a check by itself. */
  ghost function Text(b: Built): Lines {
    if b.bs != [] && Ordered(b.bs) then TextOf(JobOf(b.ck, b.at, b.bs, b.n)) else []
  }

  /** The code of the checks, one after the other, with `before` in the table from the start. */
  ghost function TextsAfter(ps: Builts, before: seq<Label>): Lines {
    if ps == [] then [] else TextAfter(ps[0], before) + TextsAfter(ps[1..], before + Table(ps[0]))
  }

  /** The code of all checks. */
  ghost function TracerText(ps: Builts): Lines {
    TextsAfter(ps, [])
  }

  // ---------- Arguments ----------

  /** The parameters of a check as the names of the arguments. */
  function EnvOf(params: seq<string>, args: seq<Word>): Env
    requires |params| <= |args|
  {
    var idx := ArgIndexOf(params);
    map x | x in params :: args[idx[x]]
  }

  /** The argument registers when the parameters have the values of `env`. */
  function Registers(params: seq<string>, args: seq<Word>, env: Env): (r: seq<Word>)
    ensures |r| == |args|
    ensures forall k :: 0 <= k < |args| ==> r[k] == Register(params, args[k], env, k)
  {
    seq(|args|, k requires 0 <= k < |args| => Register(params, args[k], env, k))
  }

  function Register(params: seq<string>, arg: Word, env: Env, k: nat): Word {
    if k < |params| && ArgIndexOf(params)[params[k]] == k then Lookup(env, params[k]) else arg
  }

  // ---------- What is observed, and what was meant ----------

  /** What happens to a syscall: whether it goes ahead, and with which arguments. */
  datatype Ruling = Ruling(perm: Perm, args: seq<Word>)

  /** The tracer: `start_table` leads to the parameters of the check that owns the label,
      `jmp_table` to the label itself. */
  ghost function Traced(m: Machine, ps: Builts, d: nat, args: seq<Word>): Option<Ruling> {
    if d >= |JmpTable(ps)| then None
    else
      var l := JmpTable(ps)[d];
      var owner := OwnerOf(ps, l);
      if owner.None? || LabelC(l) !in TracerText(ps) || |ps[owner.value].ck.params| > |args| then None
      else
        var params := ps[owner.value].ck.params;
        var env := EnvOf(params, args);
        match RunC(m, AfterLabel(TracerText(ps), l), env, env)
        case Done(p, regs) => Some(Ruling(p, Registers(params, args, regs)))
        case _ => None
  }

  /** The kernel runs the assembled filter; the tracer runs when it asks for it. */
  ghost function Observed(m: Machine, ps: Builts, nrs: Numbers, defaultDeny: bool, data: Data): Option<Ruling>
    requires ps != []
  {
    match RunF(m, data, Assembled(ResolvedFilter(ps, nrs, defaultDeny)), 0, 0, 0)
    case Verdict(RetAllow) => Some(Ruling(Allow, data.args))
    case Verdict(RetKill) => Some(Ruling(Deny, data.args))
    case Verdict(RetTrace(d)) => Traced(m, ps, d, data.args)
    case _ => None
  }

  /** The first check for the number. */
  function CheckFor(cks: seq<Check>, nrs: Numbers, nr: Word): (r: Option<Check>)
    ensures r.Some? ==> r.value in cks && NumberOf(nrs, r.value.name) == nr
    ensures r.None? ==> forall ck | ck in cks :: NumberOf(nrs, ck.name) != nr
  {
    if cks == [] then None
    else if NumberOf(nrs, cks[0].name) == nr then Some(cks[0])
    else CheckFor(cks[1..], nrs, nr)
  }

  /** What a check says, or where there is none, or it makes no decision, the default. */
  function RulingOf(m: Machine, ck: Option<Check>, defaultDeny: bool, args: seq<Word>): Ruling
    requires ck.Some? ==> |ck.value.params| <= |args|
  {
    var dflt := if defaultDeny then Deny else Allow;
    match ck
    case None => Ruling(dflt, args)
    case Some(ck) =>
      match Exec(m, ck.body, EnvOf(ck.params, args))
      case Stop(p, env) => Ruling(p, Registers(ck.params, args, env))
      case Next(env) => Ruling(dflt, Registers(ck.params, args, env))
  }

  /** What the policy says: a foreign architecture is denied, the check of the syscall is
      evaluated, and a syscall that no check decides gets the default. */
  function Intended(m: Machine, cks: seq<Check>, nrs: Numbers, defaultDeny: bool, data: Data): Ruling
    requires forall ck | ck in cks :: |ck.params| <= |data.args|
  {
    if data.arch != T_ARCH then Ruling(Deny, data.args)
    else RulingOf(m, CheckFor(cks, nrs, SyscallNr(m, data)), defaultDeny, data.args)
  }

  function Checks(ps: Builts): (cks: seq<Check>)
    ensures |cks| == |ps| && forall k :: 0 <= k < |ps| ==> cks[k] == ps[k].ck
  {
    if ps == [] then [] else [ps[0].ck] + Checks(ps[1..])
  }
}
