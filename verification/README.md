# A verified model of the syscall-policy compiler

The compiler turns a policy (`def open(a, b, c): if (...) allow; else deny;`) into two
programs that work together: a classic BPF filter for seccomp, and C code for a ptrace
tracer that the filter hands over to by a number in its return value. This project models
the way from the syntax tree to both programs in Dafny. It proves when the two rule on a
syscall as the policy says, with the same decision and the same final arguments, and what
exactly they do when they do not.

`dafny verify dfyconfig.toml` checks all of it.

## The main theorems

- `PolicyRun.PolicyRules`: for every compiled policy, every interpretation of the helper
  functions and every syscall on which nothing that is performed has become something else
  (`PolicyRun.PolicyAsMeant`), the assembled filter, with eight-bit offsets, and on hand-off
  the lifted text entered through the tracer's tables, give the ruling of the policy. The
  condition is on the run and not on the code: the number leads to the check that is looked up
  (`PolicyRun.LookedUp`, always so if no name is repeated), the body decides and misses no
  deleted jump (`Syntax.JumpsHarmless`), the filter reads each instruction that it performs
  right (`Reading.ReadsRight`; for `<` and `<=` with a literal that is exactly that the operands
  differ, `CheckRun.MeantIffUntied`), and the tracer's text is right from where it is entered
  (`LiftedRun.TextRight`). Names may be repeated; only where two checks have a tracer block of
  one label, their common name, does the theorem say nothing (`PolicyRun.TracersApart`).
- `PolicyRun.PolicyReads` and `LiftedStart.TextReadsFrom`: what the filter and the text do
  whatever their instructions have become, whatever the checks are called, and also where a
  body runs off its end. `PolicyRun.PolicyReadsAll` leaves nothing out where the tracer enters
  every block at its first instruction; elsewhere the filter can jump to a label that no line
  has, and the source then writes the label's name where a number belongs.
- `GuardedPolicy.CompileGuards`: for policies of guard clauses the same from the text alone.
  If the text passes `GuardPolicy` (well typed, declared, one scratch cell, literals or
  commutative operators on the right, assignments that survive their write-back, a first call
  that comes first, short) the compiler produces its output, and the output rules as the policy
  says on every syscall. `GuardedPolicy.CompileExample` is the example of the repository's
  README together with a check that the filter and the tracer share.
  `GuardedPolicy.CompilePlain` covers bodies without calls and assignments of any shape too.
- `Compile.CompilePolicy`: the imperative passes together; it yields nothing exactly when a
  check is undeclared, unnamed or fails an assertion of the filter's generator, and otherwise
  exactly the filter, text and tables that the theorems are about.

## How the parts fit

| stage | specification | meaning kept | as the source does it |
|---|---|---|---|
| syntax tree, typing, evaluation | `Syntax`, `Declared` | `Syntax` | |
| linear code and its machine | `Ir` | | |
| IR generation | `IrGen`, `Generated` | `Lowering` | `AstGen` |
| label merging, dead code | `Merge`, `DeadCode`, `Preserved`, `Idle` | same modules, `FrontEnd` | `Passes` |
| basic blocks | `Cfg`, `BlockFacts`, `Check` | `Cfg` | `BuildCfg` |
| colouring | `Colour` | | `Colouring` |
| split at hand-off points | `Split` | `Split`, `EmitShape` | `BpfIrGen` |
| classic BPF and its machine | `Bpf`, `BpfGen`, `Scratch` | `Reading`, `Misread`, `BpfSim` | `FilterGen` |
| label resolution, dispatch | `Resolve`, `Dispatch`, `Short` | same modules, `FilterShape` | `FilterGen` |
| lifting to C | `Lifter`, `LifterGen`, `Layout`, `Relift` | `LifterProof`, `LiftedRun`, `LiftedStart` | `LifterClass` |
| one check, all checks | `Check`, `Policy` | `CheckRun`, `PolicyRun` | `PolicyGen`, `Compile` |
| policies judged by their text | `GuardCode`, `Guarded`, `FilterOnly`, `Simple` | `GuardedPolicy` | `GuardedPolicy`, `Simple` |
| one guard: exactly when it is ruled right | `Limits`, `LimitsElse`, `LimitsEntry`, `LimitsTracer`, `LimitsText`, `LimitsAssign` | same modules | same modules |
| several checks: exactly when | `Repeated`, `Undecided`, `FirstExample`, `LongFilter` | same modules | same modules |
| string transfer | `Strings` | `Strings` | `Strings` |

Every stage has a small interpreter. Linear code runs on the code that is still ahead, so a
backward jump is stuck. Its machine is strict about temporaries: one lives only until the
next store, branch or label, so a theorem that a run ends in a decision also says that no
temporary crossed one of those points. The filter's machine follows the Linux documentation
`Documentation/networking/filter.rst`, section "BPF engine and instruction set", down to the
bits of the opcodes, and the eight-bit jump fields of `struct sock_filter`. Loops and objects
of the source are methods and classes; each is proved equal to a function of its input or of
the old state, and the theorems are about those functions.

The filter is read before it is judged: `Reading.Read` says what the accumulator machine makes
of each instruction, right or wrong, `BpfSim.FilterReads` proves that the generated lines do
just that, and `Misread` compares the reading with the meaning, operator by operator. The
tracer's text is treated alike, with `LiftedRun.ReadText`.

## Where the generated code does not do what was meant

These are facts about the code as it stands: the exact condition under which it does what was
meant, and a policy for which it does not. Every such policy is compiled by the modelled
compiler (the `Compile` methods beside it), and ruled.

- IR_gen.cpp:123 looks at the instruction itself where the one before it is meant, so every
  unconditional jump is deleted (`DeadCode.SweepRun`, `FrontEnd.FrontRuns`). A `then` that
  does not decide runs on into its `else`, which is harmless exactly if that does nothing there
  (`Syntax.RunningOnIff`, `Syntax.PerformedIsExecIff`, `Syntax.HarmlessIsExec`). Policy
  `if (x op n) ; else p; q;`: `LimitsElse.DeletedJumpIff`, `LimitsElse.OneIsDenied`.
- `<` and `<=` are encoded as the exchanged `>` and `>=`: wrong exactly on equal operands
  (`Misread.LiteralTestIff`, `Reading.RightIffUntied`, `Limits.LiteralGuardIff`). A second
  operand in A exchanges the operands (`Misread.SwappedTestIff`). Policy
  `if (a < 5) deny; allow;`: `Limits.FiveDenied`.
- An argument as right operand sets a bit of the operation and is read as its offset:
  `Misread.ArgumentTestIff`, `Misread.SwappedArgumentTestIff`, `Misread.ArgumentValueIff`,
  `Misread.ArgumentBitsIff`, `Misread.ArgumentOffsetIff`, and for whole policies
  `Limits.ArgumentGuardIff`. Policy `if (a == b) deny; allow;`: `Limits.SameArgumentsAllowed`.
- A negation computes zero minus X, because `BPF_TAX` without its class is a load. X holds the
  left operand of the last operation on two computed operands, or zero:
  `Misread.NegationReadsLastLeft`, `Misread.NegationReadsZero`, `Limits.NegatedGuardIff`. Policy
  `if (fd == -1) deny; allow;`: `Limits.MinusOneAllowed`.
- One scratch cell is too few for some expressions: `Scratch.AssertionsHoldIffOneCell`, and a
  guard compiles exactly if one is enough, `Limits.CompileOneGuard`. Policy
  `if (a + 1 == (b + 1) * (c + 1)) deny; allow;`: `Limits.CompileTwoCells`.
- A block with a call or a store loses it in the filter exactly when blocks with two parents
  lead to it from one that needs no tracer: `LimitsTracer.EffectsDroppedIff`,
  `Split.FilterIsEffectFree`. What is left of a call is what A held. Policy
  `if (a == 3 || (a == 1 || a == 2) && f(a)) deny; allow;`: `LimitsTracer.DroppedCallDecides`.
- A hand-off into the middle of a block goes to a label that the text does not have, because the
  lifter leaves such blocks out. A guard with a call is decided, and then rightly, exactly if
  its condition begins with the call: `LimitsEntry.TracedGuardIff`, and for any guards
  `LimitsEntry.AsksLateUndecided`. Policy `if (a + 1 == f(b)) deny; allow;`:
  `LimitsEntry.CompileAsksLate`.
- A lifted block that neither branches nor returns goes on at whatever line stands behind it
  (`LiftedRun.RunsOut`), which is the next block of the text at the top level, and the next
  block of the program exactly as `Layout.RunsOnIff` says. Policy
  `if (f(p)) { p = g(p); } allow;`: `LimitsText.RunsOnUndecided`.
- `SET_ARG` evaluates the assigned expression after the assignment. `x = e; p;` is ruled as it
  says exactly if to evaluate `e` once more gives the same value: `LimitsAssign.AssignIff`,
  `LifterProof.WriteBackIsRightIff`, `LimitsText.IncrementAddsTwo`. Policy `n = f(n) + 1; allow;`:
  `LimitsAssign.AddsOneTwice`.
- A body that does not decide runs on into the tests of the checks behind it, with whatever it
  left in A in place of the number: `Undecided.RunsInto`. One guard in front of any checks is
  ruled as it says exactly if it decides, or the argument is the number of no check behind it,
  or the check with that number says what the default says: `Undecided.UndecidedGuardIff`.
  Policies: `FirstExample.OpenIsClosed`, where an `open` is denied by the check of `close`, and
  `FirstExample.ZeroIsRead`, where the `open` of the repository's README, in front of a `read`,
  is allowed by the check of `read`. The first policy of that README itself is ruled as it says:
  `FirstExample.FirstExampleRules`.
- A jump to a name leads to the last check of that name. Dispatch is a lookup for every number
  exactly if no name is repeated: `Dispatch.DispatchIsLookupIff`, `Repeated.LookedUpIff`. A check
  between two of the first name is never asked, and its syscall is ruled as the policy says
  exactly if the check says what the default says: `Repeated.BetweenIsRuledIff`. Policy
  `socket`, `connect`, `socket`, as in tests/chat/client/rules:3-37: `Repeated.ConnectIsAllowed`.
- Offsets over 255 and hand-off numbers over 65535 are cut: `Resolve.AssembledIsSameIff`,
  `Resolve.LongJumpWraps`, `Limits.NumberSurvivesIff`. The jump of the architecture test spans
  the whole filter: a wrong architecture lands on the denial exactly as `LongFilter.ForeignLands`
  says, and in a filter of 259 lines on the first line of the program proper. Policy of 126
  decisions: `LongFilter.ForeignIsAllowed`.

## Model

| member | source | states |
|---|---|---|
| `AstGen.CodeGenMgr.NewLabel` | IR_gen.h:19 | every label is new: the counter goes up by one and the label carries it |
| `AstGen.CodeGenMgr.SaveBranchTarget` | IR_gen.h:21 | pushes the two current targets |
| `AstGen.CodeGenMgr.RestoreBranchTarget` | IR_gen.h:22-26 | pops what was pushed last and makes it current |
| `AstGen.GenBranchCode` | ast.cpp:176-190 | appends exactly the jumping code of the condition (`CondCode`), leaves the save stack balanced, and leaves the two targets exchanged exactly when `LeavesSwapped` says so |
| `AstGen.OpIRGen` | ast.cpp:230-302 | a condition appends its jumping code and yields no value; any other operator appends three-address code and yields the operand that names its value |
| `AstGen.AndIRGen` | ast.cpp:236-247 | AND: left operand to a fresh true target, restore, label, right operand |
| `AstGen.OrIRGen` | ast.cpp:249-260 | OR: left operand to a fresh false target, restore, label, right operand |
| `AstGen.NotIRGen` | ast.cpp:261-268 | NOT exchanges the targets in place and does not put them back |
| `AstGen.CompareIRGen` | ast.cpp:269-277 | a comparison becomes one branch to the current targets, behind the code of its operands |
| `AstGen.BinaryIRGen` | ast.cpp:291-298 | operands left to right, then the operation, whose identity is the value |
| `AstGen.UnaryIRGen` | ast.cpp:279-285 | operand, then the operation, whose identity is the value |
| `AstGen.ExprIRGen` | ast.cpp:319-331 | references, literals and calls: no code, no code, one call |
| `AstGen.StmtIRGen` | ast.cpp:304-317 | appends exactly the statement's code and moves the counters with it; the save stack is as before |
| `AstGen.IfIRGen` | ast.cpp:192-218 | the layout of an `if`, label by label, with the jump around the `else` |
| `AstGen.CompoundIRGen` | ast.cpp:220-226 | the statements' code, one after the other |
| `IrGen.CondCodeShape` | ast.cpp:230-277 | the labels of jumping code are fresh and defined once, every branch goes ahead or to the two targets, and branches end their blocks |
| `IrGen.StmtCodeShape` | ast.cpp:192-302 | after IRGen every label is fresh and defined once, and every branch precedes its targets |
| `Lowering.ExprRun` | ast.cpp:279-331 | three-address code leaves the value of the expression in the operand that names it and keeps older temporaries, whatever code follows |
| `Lowering.CondRun` | ast.cpp:230-277 | jumping code reaches the true target exactly when the condition holds, for every well-typed condition and whatever code follows |
| `Lowering.StmtRun` | ast.cpp:192-317 | statement code does what the statement does, for every well-typed statement, every helper interpretation and whatever code follows |
| `Syntax.HarmlessIsExec` | IR_gen.cpp:116-130 | with its jumps deleted, code does what the statement says on all arguments on which no executed `then` that runs on into its `else` finds anything to do there |
| `Syntax.DecidingIsHarmless` | IR_gen.cpp:116-130 | that is so on all arguments if every `then` that has an `else` decides |
| `Syntax.PerformedIsExecIff` | IR_gen.cpp:116-130 | for an `if` whose executed part is harmless, nested statements included: the code does what the `if` says exactly when its own deleted jump is harmless |
| `Syntax.RunningOnIff` | IR_gen.cpp:116-130 | for a `then` that flows on into its `else`, judged by what the statements say alone: the code does what the `if` says exactly when the `else`, executed there, does nothing |
| `Generated.StmtSound` | ast.cpp:279-331 | every temporary is used once, last in first out, inside the block that computes it |
| `Passes.CheckVariableUse` | IR_gen.cpp:203-232 | accepts exactly the code whose every variable is a parameter |
| `Passes.MergeLabels` | IR_gen.cpp:12-68 | edits the list in place to `Merged` of what it was |
| `Passes.DropMerged` | IR_gen.cpp:29-45 | the first loop: what stays, and the renaming it records |
| `Passes.RetargetBranches` | IR_gen.cpp:47-66 | the second loop: every branch gets the replacement of its targets |
| `Merge.MergeRun` | IR_gen.cpp:12-68 | merging preserves every run of forward-jump code with unique labels |
| `Merge.SurvivorsKeepTheirNames` | IR_gen.cpp:27-61 | one renaming step is enough: a label that stays is never itself renamed |
| `Merge.MergePreserves` | IR_gen.cpp:12-68 | same run from the entry, no two adjacent labels, forward jumps and unique labels kept, every branch goes to a label that stayed |
| `Passes.EliminateDeadCode` | IR_gen.cpp:116-136 | edits the list in place to `Live` of what it was; the outer loop ends because each changing pass shortens the list |
| `Passes.DropAfterEnds` | IR_gen.cpp:118-130 | the first loop, with its test of the instruction itself: every unconditional jump but a leading one goes |
| `Passes.EliminateDeadCodeImpl` | IR_gen.cpp:78-114 | one pass of the second loop, and whether it changed anything |
| `DeadCode.SweepRun` | IR_gen.cpp:118-130 | the first loop keeps every run in which unconditional jumps are not taken |
| `DeadCode.PurgeRun` | IR_gen.cpp:78-114 | a pass of the second loop keeps every run that starts where control can be |
| `DeadCode.SettlePreserves` | IR_gen.cpp:132-134 | the fixpoint keeps the run and the shape, and every label left is reached from above or by an earlier branch |
| `DeadCode.LivePreserves` | IR_gen.cpp:116-136 | the whole pass means what the code meant with its jumps not taken, and leaves no unconditional jump |
| `BuildCfg.BlockJoins` | IR_gen.cpp:151-166 | at a label: the new block, its fall-through edge and its noted branches keep the graph exact |
| `BuildCfg.InstJoins` | IR_gen.cpp:182-184 | any other instruction joins the current block and keeps the graph exact |
| `BuildCfg.BuildCFG` | IR_gen.cpp:139-188 | the blocks, laid end to end, are the list; children and parents are exactly fall-through plus branch targets, with multiplicity, seen from both ends |
| `Cfg.EdgesGoForward` | IR_gen.cpp:139-188 | every edge goes to a later block, and parents and children are each other's inverse |
| `Cfg.StepBlock` | IR_gen.cpp:139-188 | a run from a block is the run of that block and then of the block it exits to |
| `Cfg.ExitIsChild` | IR_gen.cpp:155-174 | a block never exits to a block that is not its child |
| `BlockFacts.AllReachable` | IR_gen.cpp:78-136 | after dead-code elimination every block is reached from the entry along edges |
| `FrontEnd.FrontShapeHolds` | policy.cpp:54-61 | what IRGen and the passes leave: unique labels, forward jumps, blocks that end once, no unconditional jump, last-in-first-out temporaries |
| `FrontEnd.FrontRuns` | policy.cpp:54-61 | exactly what the front end's code does for every well-typed body, deleted jumps included |
| `FrontEnd.FrontPreserves` | policy.cpp:54-61 | on arguments on which deleted jumps are harmless, the code's run ends as the body does |
| `Check.BlocksAreGood` | policy.cpp:54-61 | every accepted check's blocks have distinct labels, forward edges and only declared, decision-returning, jump-free instructions |
| `Colouring.ColorCode` | code_gen.cpp:60-84 | one pass in program order maps exactly the blocks that need the tracer, each to where the tracer starts in it |
| `Colouring.GetPtraceOnlyBB` | code_gen.cpp:25-58 | yields the least fixpoint of the rule, whatever order the candidates come in, and ends |
| `Colouring.FindEffect` | code_gen.cpp:76-81 | the first call or store of a block |
| `Colour.ColouredIffReached` | code_gen.cpp:60-84 | a block is coloured exactly when some block with a call or a store reaches it |
| `Colour.OnlyIsLeast` | code_gen.cpp:25-58 | the tracer-only blocks are closed under the rule and contained in every set that is |
| `BpfIrGen.HandOffs.Next` | code_gen.cpp:127-130 | a hand-off gets the length of the table as its number, and the table its label |
| `BpfIrGen.GenBPFIR` | code_gen.cpp:90-144 | appends exactly `BpfIr` to the list and its labels to the table, numbers continuing |
| `Split.SplitRun` | code_gen.cpp:102-143 | from any filter block, on arguments on which the filter performs no call and no store: run the filter until it decides or hands off, then the blocks from the named label on the original arguments, and it is one run of all blocks |
| `Split.SplitPreserves` | code_gen.cpp:90-144 | the same for a whole check, the entry block that only the tracer runs included |
| `Split.FilterIsEffectFree` | code_gen.cpp:90-144 | the filter's code has no call or store exactly when the tracer runs the entry block or every block with one |
| `Split.EffectFreeIsQuiet` | code_gen.cpp:90-144 | and then no call or store is performed, whatever the arguments |
| `Split.NumbersInStep` | code_gen.cpp:86-133 | each hand-off's number is within its check's part of the table and indexes its own block's label |
| `EmitShape.TargetEmitted` | code_gen.cpp:102-143 | every branch target of a filter block is a filter block or a hand-off |
| `EmitShape.FilterIrShape` | code_gen.cpp:102-143 | in the filter's code each label stands once and every branch goes ahead, or to the label of a tracer block that starts in its middle |
| `BpfGen.AssertionsHoldIffShallow` | code_gen.cpp:331-408 | no assertion of the generator fails exactly when never more than two temporaries are pending |
| `Scratch.AssertionsHoldIffOneCell` | code_gen.cpp:331-408 | the same seen from the condition as written: no node with two computed operands lies in the right operand of another |
| `FilterGen.GenArithmetic` | code_gen.cpp:331-384 | spill, operation and register tracking of one arithmetic instruction, and when its assertion fails |
| `FilterGen.GenConditional` | code_gen.cpp:386-430 | the lines of one conditional branch, with exchanged targets for `!=`, `<` and `<=` |
| `FilterGen.BPFCodeGen` | code_gen.cpp:317-466 | the loop over the instructions yields exactly `BpfCode`, or nothing when an assertion fails |
| `Reading.DecodeCompare` | code_gen.cpp:267-310 | what the opcode of every comparison decodes to with a literal, with X, and with the bit of the absolute mode in it |
| `Reading.DecodeArith` | code_gen.cpp:267-310 | the same of every arithmetic operator; with an argument `+` becomes `*`, `-` becomes `/`, bitwise and/or become shifts, `%` becomes nothing |
| `BpfSim.ArithReads` | code_gen.cpp:331-384 | the lines of an arithmetic instruction leave its reading in A, the left operand of two computed ones in X, and a spilled value in M[0] |
| `BpfSim.NegationReads` | code_gen.cpp:365-373 | the lines of a negation of any operand leave zero minus X |
| `BpfSim.BranchReads` | code_gen.cpp:386-430 | the lines of a branch compare A with a literal, with X, or with the offset of an argument, by the decoded test, and go to the target that follows |
| `BpfSim.FilterReads` | code_gen.cpp:317-466 | accumulator simulation of all disciplined code, calls and stores included: whatever lines follow, the filter returns, runs on or is rejected as the reading of its code says |
| `Reading.RightReads` | code_gen.cpp:317-466 | where every instruction performed is read right, the reading returns what the code returns |
| `Reading.RightIffUntied` | code_gen.cpp:267-278 | code of supported instructions and of `<` and `<=` with a literal is read right on exactly those arguments on which no executed `<` or `<=` compares equal operands |
| `Misread.LiteralTestIff` | code_gen.cpp:267-278 | with a literal on the right only `<` and `<=` go wrong, exactly on equal operands |
| `Misread.SwappedTestIff` | code_gen.cpp:391-410 | with the second operand in A: right for `==` and `!=`, for `>` and `>=` exactly on equal operands, never for `<` and `<=` |
| `Misread.ArgumentTestIff` | code_gen.cpp:301-310 | per operator, over the values of both arguments and the offset, when a comparison with an argument on the right is right |
| `Misread.SwappedArgumentTestIff` | code_gen.cpp:301-310 | the same with an argument on the left of a computed operand |
| `Misread.ArgumentValueIff` | code_gen.cpp:301-310 | when an arithmetic operation with an argument on the right yields what is meant, for `+ - * / %` |
| `Misread.ArgumentBitsIff` | code_gen.cpp:301-310 | the same for the bit operators and shifts: which shift takes the place of which operator, and when the results coincide |
| `Misread.ArgumentOffsetIff` | code_gen.cpp:301-310 | with the offsets that there are: a bitwise or is right on two zeros only, and a shift if the count happens to be the offset or both results are zero; from the third argument on never |
| `Misread.NegationReadsLastLeft` | code_gen.cpp:365-373 | over every run, a negation reads in X the left operand of the last operation on two computed operands before it, or what X held at the start |
| `Misread.NegationReadsZero` | code_gen.cpp:365-373 | without such an operation every negation yields 0, and is right exactly when its operand is 0 |
| `FilterGen.EntriesOf` | code_gen.cpp:488-496 | the label map points at the element behind the last line of each label |
| `FilterGen.AssignPcs` | code_gen.cpp:499-505 | each element's pc is the number of real lines before it |
| `FilterGen.OffsetIsDistance` | code_gen.cpp:514-534 | the offset is never negative, counts the real lines up to the first one behind the label, and the element looked up has not been erased |
| `FilterGen.BPFTransformLabels` | code_gen.cpp:487-537 | erases and patches the list in place to `Resolved` of what it was |
| `Resolve.ResolvedAfter` | code_gen.cpp:518-534 | a resolved offset points at what follows the label, also behind a run of labels |
| `Resolve.ResolvePreserves` | code_gen.cpp:487-537 | running the resolved program is running the labelled one |
| `Resolve.AssembledIsSameIff` | code_gen.cpp:527-533 | the eight-bit jump fields hold the program exactly when no offset exceeds 255 |
| `Resolve.LongJumpWraps` | code_gen.cpp:527-533 | a jump over n lines, on either arm, lands n modulo 256 lines ahead |
| `LongFilter.ForeignLands` | policy.cpp:198-204 | in a filter of n lines, of whatever checks, a wrong architecture goes on n - 3 lines behind the test, counted in eight bits |
| `LongFilter.ForeignIsNative` | policy.cpp:198-238 | a filter of 259 lines has no other offset that is cut, and treats every architecture as its own |
| `LongFilter.ArchIsIgnored` | policy.cpp:198-238 | so for every compiled policy with such a filter, names and bodies whatever they are |
| `LongFilter.ForeignIsAllowed` | policy.cpp:220-233 | 126 decisions under `allow all`: a syscall of another architecture goes ahead |
| `LongFilter.CompileLong` | policy.cpp:259-276 | such policies compile, for any 126 syscalls |
| `Short.ShortFits` | code_gen.cpp:527-533 | from the length of its text, a short policy has no jump over 255 lines and no number over 65535 |
| `Dispatch.ChainFinds` | policy.cpp:208-218 | a jump to a name enters the last check of that name whose number matches from there on; its body runs in front of the checks behind it, whatever it does |
| `Dispatch.ProgramRun` | policy.cpp:198-238 | the whole filter, exactly, for any names and bodies: wrong architecture is killed, otherwise the body that the number leads to, or the default |
| `Dispatch.RepeatedNameSkips` | code_gen.cpp:488-496 | no entry before the last one of the first name is ever run for a number that is jumped to |
| `Dispatch.BetweenIsMissed` | code_gen.cpp:488-496 | so an entry between two of the first name is missed for its own number, although a lookup finds it |
| `Dispatch.DispatchIsLookupIff` | policy.cpp:198-218 | dispatch is lookup, for every number, exactly if no name is repeated |
| `Dispatch.ChosenRules` | policy.cpp:198-238 | repeated names included: wrong architecture is killed; otherwise the settling body that the number leads to, or the default |
| `Dispatch.DispatchIsLookup` | policy.cpp:198-238 | with different names and a settling body: wrong architecture is killed; otherwise the first check of the (x32-bit-cleared) number, or the default |
| `Dispatch.FindEntryIsUnique` | policy.cpp:208-218 | with distinct numbers the check that matches is the only one |
| `FilterGen.BPFProgram` | policy.cpp:187-238 | the final list is exactly the program, resolved |
| `FilterShape.ProgramIsResolvable` | policy.cpp:198-238 | in every compiled policy's filter every jump to a label that is there goes ahead and a real line comes last; with different names each label stands once |
| `LifterClass.IRLifter.LiftInst` | IR_lifter.cpp:42-83 | one branch, store or return, and the references it adds |
| `LifterClass.IRLifter.LiftBasicBlock` | IR_lifter.cpp:90-99 | a block's code, its place in the order, and the references it makes |
| `LifterClass.IRLifter.GenPtraceCode` | code_gen.cpp:252-265 | lifts exactly the coloured blocks that start at their first instruction, in program order, with exact reference counts, and reports exactly whether there are others |
| `LifterClass.IRLifter.GenBasicBlockCode` | IR_lifter.cpp:112-153 | writes exactly the block's lines, and only for a block not written before; the recursion ends because inlined blocks come later |
| `LifterClass.IRLifter.GenCode` | IR_lifter.cpp:103-110 | the text is `ProgramLines`, and at the end every lifted block has been written, each once |
| `LifterGen.WritesAreNew` | IR_lifter.cpp:103-131 | writing a block for the first time writes everything inlined in it for the first time |
| `Layout.OneReference` | IR_lifter.cpp:121-131 | an inlined block is referred to by one block only |
| `LifterProof.ProgramReaches` | IR_lifter.cpp:103-136 | every `goto` has its label ahead, and lands on its block's code |
| `LifterProof.OperandAgrees` | IR_lifter.cpp:7-40 | an operand's value and the value of its rebuilt tree coincide where it is used |
| `LifterProof.WriteBackIsRightIff` | IR_lifter.cpp:139-148 | what an assignment and its write-back leave in the variable and in the register; the register is right if the expression does not read what it assigns |
| `LimitsText.IncrementAddsTwo` | IR_lifter.cpp:139-148 | `a = a + 1` of a register adds one to the variable and two to the argument |
| `LimitsAssign.AssignIff` | IR_lifter.cpp:139-148 | `x = e; p;`, compiled, for every expression that is nothing computed or begins with a call: what becomes of the argument, and it is ruled as it says exactly if `e`, evaluated once more with the value assigned, gives that value |
| `LimitsAssign.AddsOneTwice` | IR_lifter.cpp:139-148 | `n = f(n) + 1; allow;` lets the syscall go ahead with `f(f(n) + 1) + 1` |
| `LimitsAssign.CompileAddOne` | policy.cpp:259-276 | that policy compiles |
| `Relift.LiftingInvertsLowering` | IR_lifter.cpp:7-40 | round trip: the tree rebuilt from three-address code is the expression that was written |
| `Relift.ThreeValuesAgree` | IR_lifter.cpp:7-40 | the expression, the temporary and the rebuilt tree have one value |
| `LiftedRun.BlockReads` | IR_lifter.cpp:112-153 | the text of any lifted block, entered anywhere in the text, does exactly what its reading says: assignments evaluated twice, and the next block at the top behind a block that runs on |
| `LiftedRun.RunsOut` | IR_lifter.cpp:112-153 | every block that neither branches nor returns goes on at whatever line stands behind it, with what it assigned |
| `Layout.RunsOnIff` | IR_lifter.cpp:103-131 | the text behind a block leads to the next block of the program exactly when that one stands on its own and none from the top of the block on does |
| `LiftedRun.SafeTextIsRight` | IR_lifter.cpp:112-153 | blocks whose stores do not read what they assign, and that end or are followed by their successor, are right on all arguments |
| `LimitsText.TextFallsOut` | IR_lifter.cpp:112-153 | the text of `if (f(p)) { p = g(p); } allow;` makes no decision where the helper says yes |
| `LimitsText.RunsOnUndecided` | IR_lifter.cpp:112-153 | and so the compiled policy makes no decision of its own where the policy allows; it is ruled as it says exactly where the helper says no |
| `LiftedStart.BlockInProgram` | IR_lifter.cpp:103-136 | no lifted block is missing from the text |
| `LiftedStart.TextReadsFrom` | IR_lifter.cpp:103-153 | started at any interface label, the nested text does exactly what the reading says |
| `LiftedStart.LiftedFrom` | IR_lifter.cpp:103-153 | and, where that reading is right, decides and stores as the blocks do |
| `PolicyGen.CheckIRGen` | policy.cpp:54-63 | the blocks of the check, or a refusal exactly if a variable is undeclared |
| `PolicyGen.InterfacePoints` | policy.cpp:89-98 | the hand-off labels that are labels of this check's tracer blocks |
| `PolicyGen.CheckCodeGen` | policy.cpp:71-108 | for every accepted check: its filter or a failed assertion, its part of the hand-off table and its part of the text, and whether a tracer start is unsupported |
| `PolicyGen.PtraceTables` | policy.cpp:123-155 | `jmp_table` is the hand-off table, and `start_table` names the owner of each label |
| `PolicyGen.StartTableOwns` | policy.cpp:129-152 | the owner that the map of labels yields is the check with that tracer block |
| `CheckRun.FilterIrRun` | policy.cpp:71-108 | on arguments on which the filter performs no effect, its code and, on hand-off, the blocks named by the number are one run of the body |
| `CheckRun.FilterDoes` | policy.cpp:71-88 | for every compiled check the filter does, in front of any later lines, exactly what the reading of its code says |
| `CheckRun.NeverLost` | code_gen.cpp:317-466 | code whose branch targets are all there is followed to its end, whatever its instructions are read as |
| `CheckRun.MeantIffUntied` | policy.cpp:71-108 | a check of supported instructions and of `<` and `<=` with a literal is as it was meant on exactly those arguments on which no executed `<` or `<=` compares equal operands |
| `CheckRun.CheckRules` | policy.cpp:54-108 | end to end for one check, on all arguments on which nothing performed has become something else: filter and lifted text decide as the body does and leave the arguments as the body does |
| `PolicyRun.OneOwner` | policy.cpp:110-121 | no label belongs to two checks, unless it is the name of both |
| `PolicyRun.ForeignText` | policy.cpp:89-98 | behind the hand-offs of other checks the text of a check is what it is by itself |
| `PolicyRun.JmpTableAt` | policy.cpp:145-153 | each hand-off number finds its own label in `jmp_table` |
| `PolicyRun.OwnerIsRight` | policy.cpp:137-152 | `start_table` leads to the check whose text has the label, if no two checks have a tracer block of one label |
| `PolicyRun.RunExtends` | policy.cpp:158-175 | a check's text decides the same with the text of other checks behind it |
| `PolicyRun.PolicyRuns` | policy.cpp:187-276 | end to end, repeated names included, on all syscalls on which nothing performed has become something else: kernel filter, hand-off and tracer together rule as the check that the number leads to says, decision and final arguments |
| `PolicyRun.PolicyRules` | policy.cpp:187-276 | and so as the policy says wherever the number leads to the check that is looked up |
| `PolicyRun.NamesAreLookedUp` | policy.cpp:208-218 | which it always does if no name is repeated |
| `PolicyRun.SupportedPolicyRules` | policy.cpp:187-276 | for policies whose code both targets express as it was meant: on every syscall if no name is repeated, and otherwise wherever the number leads to the check that is looked up |
| `PolicyRun.PolicyReads` | policy.cpp:187-238 | the assembled filter of every compiled policy, exactly, wherever its reading is not lost: bodies that run off their end into later checks and repeated names included |
| `PolicyRun.PolicyReadsAll` | policy.cpp:187-238 | and no reading is lost where the tracer enters every block at its top |
| `Undecided.RunsInto` | policy.cpp:208-218 | a syscall whose check runs off its end is ruled, filter and tracer together, by the check behind it whose number it left in A, or by the default |
| `Undecided.GuardRunsOn` | policy.cpp:208-218 | the same of one guard `if (x op n) p;` anywhere in any policy: the argument takes the place of the number |
| `Undecided.UndecidedGuardIff` | policy.cpp:208-218 | with different names it is ruled as the policy says exactly if the guard decides, or the argument is the number of no check behind it, or the check with that number says what the default says |
| `Repeated.LookedUpIff` | policy.cpp:198-218 | every syscall of a policy is looked up exactly if no name is repeated |
| `Repeated.BetweenIsRuledIff` | policy.cpp:198-218 | a check between two of the first name is never asked, so its syscall is ruled as the policy says exactly if the check says what the default says |
| `Repeated.ConnectIsAllowed` | tests/chat/client/rules:1-37 | `socket`, `connect`, `socket` under `allow all`: the denied `connect` goes ahead |
| `Repeated.CompileRepeated` | policy.cpp:259-276 | that policy compiles |
| `Compile.IRGenAll` | policy.cpp:110-121 | all checks in order on one label counter; nothing exactly if some check reads or assigns a variable that is no parameter |
| `Declared.DeclaredIff` | IR_gen.cpp:203-232 | the check of the code accepts exactly what the text declares, dead code included |
| `Compile.CodeGenAll` | policy.cpp:259-273 | the filters and the text in order, with one hand-off table, for every list of accepted checks; or the first check at which generation stops |
| `Compile.CompilePolicy` | policy.cpp:259-276 | the compiler's output is exactly the filter, text and tables that the theorems speak of; it yields nothing only for an undeclared variable, an unknown name or a failed assertion |
| `Compile.CompiledRules` | policy.cpp:259-276 | what the compiler writes rules as the policy says wherever the number leads to the check that is looked up and nothing performed has become something else |
| `Idle.PassesIdle` | IR_gen.cpp:12-136 | code without jumps, adjacent labels and dead ends goes through the passes unchanged |
| `GuardCode.GuardsFront` | policy.cpp:54-61 | the code that the front end leaves of guard clauses, jump around a last `else` and its label included, written out |
| `Guarded.BlocksAreParts` | IR_gen.cpp:139-188 | the blocks that BuildCFG makes of guard clauses, label by label |
| `Guarded.GuardsAreSupported` | policy.cpp:54-108 | what the text of guard clauses shows is enough: whatever labels and numbers they get, they compile, and both targets express them as they were meant |
| `FilterOnly.FilterIsCheck` | code_gen.cpp:90-144 | where no block is left to the tracer the filter's code is the code of the check |
| `FilterOnly.FilterStmtIsSupported` | policy.cpp:54-108 | a compiled body without calls and assignments, of any shape, with supported conditions, is expressed as it was meant |
| `GuardedPolicy.PlainPolicyRules` | policy.cpp:187-276 | a compiled policy of such checks with different names is ruled as it says on every syscall, tracer included |
| `GuardedPolicy.CompilePlain` | policy.cpp:259-276 | from the text alone, for screened guards and for bodies of any shape without calls and assignments: whatever the compiler puts out rules on every syscall as the policy says, and it stops at no guards |
| `GuardedPolicy.CompileGuards` | policy.cpp:259-276 | from the text alone: the compiler does not stop on screened guard clauses, and its output rules on every syscall as the policy says |
| `GuardedPolicy.CompileExample` | README.md:65-76 | the safex policy of the README, beside a check shared by filter and tracer, compiles and is ruled as it says |
| `LimitsElse.DeletedJumpIff` | IR_gen.cpp:123 | `if (x op n) ; else p; q;`, compiled, always returns `p`, so it is ruled as it says exactly if the test fails or both decisions are the same |
| `LimitsElse.OneIsDenied` | IR_gen.cpp:123 | `if (a == 1) ; else deny; allow;` denies one |
| `LimitsElse.CompileEmptyThen` | policy.cpp:259-276 | that policy compiles, and is ruled so |
| `LimitsEntry.TracedGuardIff` | code_gen.cpp:252-265 | `if (cond) deny; allow;` with a call, compiled, is ruled as it says exactly if the condition begins with one, and otherwise is not decided at all |
| `LimitsEntry.AsksLateUndecided` | code_gen.cpp:252-265 | no syscall is decided by guards whose first condition has a call and does not begin with one |
| `LimitsEntry.CompileAsksLate` | policy.cpp:259-276 | `if (a + 1 == f(b)) deny; allow;` compiles all the same |
| `LimitsTracer.EffectsDroppedIff` | code_gen.cpp:25-58 | the filter loses a block's calls and stores exactly when a path of blocks with two parents each leads to it from a block that needs no tracer |
| `LimitsTracer.DroppedCallDecides` | code_gen.cpp:103-108 | a compiled policy whose filter decides by the argument where the policy asks the helper, ruled on every argument |
| `Limits.LiteralGuardIff` | code_gen.cpp:267-278 | `if (x op n) deny; allow;`, compiled, is ruled as it says exactly if the operator is not `<` or `<=`, or the argument differs |
| `Limits.ArgumentGuardIff` | code_gen.cpp:301-310 | `if (x op y) deny; allow;` with two arguments, per operator: exactly when it is ruled as it says |
| `Limits.NegatedGuardIff` | code_gen.cpp:365-373 | `if (x == -e) deny; allow;` never denies, so it is ruled as it says exactly if the argument is not the negated value |
| `Limits.SameArgumentsAllowed` | code_gen.cpp:301-310 | `if (a == b) deny; allow;` lets two zeros through |
| `Limits.MinusOneAllowed` | code_gen.cpp:365-373 | `if (fd == -1) deny; allow;` lets minus one through |
| `Limits.FiveDenied` | code_gen.cpp:267-278 | `if (a < 5) deny; allow;` denies five |
| `Limits.CompileOneGuard` | policy.cpp:259-276 | a guard without calls compiles exactly if one scratch cell is enough, so these policies exist |
| `Limits.CompileTwoCells` | code_gen.cpp:343-353 | `if (a + 1 == (b + 1) * (c + 1)) deny; allow;` has no filter |
| `LimitsTracer.CompileSharedCall` | policy.cpp:259-276 | the policy with the dropped call compiles |
| `LimitsText.CompileOpen` | policy.cpp:259-276 | the policy whose text falls out compiles |
| `FirstExample.FirstExampleRules` | README.md:43-49 | the first policy of the README is ruled as it says on every syscall, although its first check runs on into the second |
| `FirstExample.PairRules` | policy.cpp:208-218 | `if (x op n) p;` in front of a check that says `q`: every syscall, exactly, argument for number included |
| `FirstExample.CompileFirst` | README.md:43-49 | the first policy of the README compiles |
| `FirstExample.OpenIsClosed` | policy.cpp:208-218 | `open: if (x == 5) deny;` in front of `close: deny;` under `allow all`: an `open` with another argument than five, which the policy allows, is denied exactly if the argument is the number of `close` |
| `FirstExample.CompileClosed` | policy.cpp:259-276 | that policy compiles |
| `FirstExample.ZeroIsRead` | syscalls.cpp:9 | the `open` of the README in front of `read: allow;`: with zero for `x` it is allowed under the number of `read` |
| `FirstExample.CompileRead` | policy.cpp:259-276 | that policy compiles |
| `Simple.CompileSimple` | policy.cpp:259-276 | policies of decisions and of one guard with a literal always compile, names repeated or not |
| `Limits.NumberSurvivesIff` | code_gen.cpp:451 | a hand-off number survives its mask exactly if it has sixteen bits |
| `Strings.CopyOutString` | code_template/ptrace_template.c:63-93 | yields the string, cut off at MAX_STRING_LEN, and never writes past its buffer |
| `Strings.CopyNext` | code_template/ptrace_template.c:73-89 | one word: fetched, copied inside the buffer, and looked through for the terminator |
| `Strings.CopyBackString` | code_template/ptrace_template.c:95-119 | writes the words that cover the string and its terminator, the last one filled up with zeros, and nothing else |
| `Strings.CopiedBackIsThere` | code_template/ptrace_template.c:95-119 | the string is there, and no byte outside those words has changed |
| `Strings.RoundTrip` | code_template/ptrace_template.c:63-119 | a string shorter than MAX_STRING_LEN, copied back and out again, is the same string |

## Left out

- PolicyRun.PolicyRules: says nothing of syscalls on which something performed has become
  something else. For those `PolicyRun.PolicyReads` gives the filter's action and
  `LiftedStart.TextReadsFrom` the text's, and the section above the exact conditions.
- PolicyRun.PolicyRuns: of checks of one name at most one may be entered in tracer blocks. With
  two, one label stands twice in the text, and so does the `_start` label of the prologues: that
  is no C program.
- PolicyRun.PolicyReads: says nothing where a filter jumps to a label that no line has. The
  source then leaves the label's name where a number belongs (code_gen.cpp:524-533).
- LimitsText.RunsOnUndecided: texts that fall out make no decision of their own. The prologues
  between the texts of the checks (policy.cpp:158-171), which such a text really runs into, and
  the global `deny` of the tracer, which then still holds the decision of an earlier syscall,
  are not modelled.
- Reading.RightReads: a remainder with a literal divisor counts as expressed. The kernel's own
  check of seccomp filters admits no `BPF_MOD`, so a filter with one is not loaded.
- Misread.ArgumentBitsIff: for `&` and `^` it compares bits; over numbers there is no shorter
  condition.
- GuardedPolicy.CompilePlain: a body with calls or assignments of any other shape than guard
  clauses has to be looked at after compilation, with `PolicyRun.SupportedPolicyRules`; and for
  bodies that are not guard clauses it does not tell from the text whether one scratch cell is
  enough.
- Syntax.PerformedIsExecIff: takes an executed part that is harmless. A part that is not may be
  made good by what follows it, which no condition on the part can tell.
- CheckRun.CheckRules: an argument is one 32-bit word in the filter and in the tracer. The
  upper half of a register, signed C types and pointer arguments compared in C are not
  modelled; what a string or memory argument holds is the helper's matter.
- FilterGen.BPFCodeGen: opcodes are numbers and not text; the deny action of the debug build,
  and the line for an unconditional jump, which is built and never appended, are not there.
- BpfSim.FilterReads: of division by zero, and shifts by 32 or more, in the filter it says that
  the filter is rejected, also where a kernel would only stop it there.
- AstGen.OpIRGen: instructions are values and an operand names an instruction by a number
  from a counter, where the source has its address; binary `~`, which neither target can
  express, and ill-typed conditions are outside its precondition.
- Passes.MergeLabels: the register names that it sets for printing, and a map of branches by
  target that it fills and never reads.
- BuildCfg.BuildCFG: blocks are values that name their neighbours by position, so aliasing of
  block objects is not modelled; neither are instruction pointers and back references.
- LifterClass.IRLifter.GenCode: text is a list of lines with expressions as trees; indentation
  and the printed form of operators and negative literals are not modelled. The case for a
  plain statement, which no lifted block produces, is not there.
- PolicyGen.CheckCodeGen: the argument table of the syscalls, which says which parameters are
  strings or memory, is a parameter; the prologue that declares and loads arguments is taken
  to load all parameters of the check, where the source loads those that are used (one that
  is assigned and never used is not declared in C at all).
- LongFilter.ForeignIsAllowed: whether a kernel would load so long a filter is not asked; the
  limit of 4096 lines is far away.
- PolicyRun.OneOwner: label names are `L` and a number, or a syscall's name, and are taken to
  be different kinds of label.
- Lexer, parser, drivers, file output, printing and the C templates other than the two string
  functions.
- `ptrace_copy_out_mem` and `ptrace_copy_back_mem`, whose rounding of sizes to words is no
  clean ceiling.
- The tracer's main loop, signals, and the system calls it makes.
- Releasing memory, other than that a looked-up filter has not been erased.
