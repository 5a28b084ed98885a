# Verification of the HUGR to LLVM lowering

This project models the lowering scheme of the compiler and proves it correct. Every wire gets one stack slot (a
mailbox). Regions are emitted in topological order through a builder that sits at the end of a basic block.
Conditionals and control-flow graphs become blocks that pass values only through mailboxes. Functions are assembled by
a worklist.

The main result, `Correctness.CompiledCorrectly`, is about whole programs: for every valid, well-typed, well-scoped
program, any of its functions and any arguments of its input types, the emitted code stops exactly with the rows that
the direct dataflow semantics of the HUGR returns, runs forever exactly when the HUGR does, and never gets stuck (no
mailbox is read before it is written, no register used before it is defined, no branch taken on poison, no array
accessed out of bounds). It covers every nesting of regions, conditionals, control-flow graphs with loops, tags,
constants, array ops, direct and indirect calls of functions defined in the program or declared and linked in later,
recursion, and abstract extension ops. `Correctness.EmittedModuleIsCorrect` carries this over to the module that the
worklist leaves behind, `EmitModule.EmitHugr.EmitModuleChildren` says exactly when that emission succeeds, and
`Dominance.DefinitionDominatesUse` gives the static form of definition before use, on every path, and
`TypedEmission.EmittedCodeIsTyped` says that the emitted code is well-typed LLVM.

How the modules build on each other:

- `Values`, `Hugr`, `Typing`: HUGR values, graphs as trees of regions, what makes them valid, their fuelled dataflow
  semantics (fuel counts block transitions and calls), and the type soundness of that semantics. Wires from outside a
  block are visible in it when every edge into the block comes from a block that has them in scope.
- `Arrays`: the array ops of the prelude on sequences and on HUGR values.
- `Machine`: the LLVM fragment that is emitted, with an explicit call stack and, in each frame, mailboxes and arrays on
  the stack. Reading an unwritten slot or an undefined register, branching on poison, and touching memory outside an
  array are stuck.
- `Builder`, `Emit`: the state of the emission of one function and the state transformers that specify it.
- `Context`, `Emitters`: the imperative form, one instruction or mailbox at a time, proved equal to the transformers:
  class `EmitFuncContext`, the emission methods, class `CfgEmitter`.
- `EmitLaws`, `EmitParts`, `Mailboxes`, `Scopes`: what every emission step keeps (block shape, mailboxes, names, and
  which types and handlers it asks for).
- `Exec`, `ExecArrays`, `SimBase`, `SimBranch`, `SimLocate`, `SimStep`, `SimOps`, `SimArrays`, `SimCases`, `SimGraphs`,
  `SimFuncs`, `Simulation`: the simulation. `Simulation` holds the induction over all nestings, the other modules its
  cases.
- `Places`, `Registers`, `Dominance`: what instructions define and use, single assignment, and dominance.
- `CodeTyping`, `TypedEmission`: when LLVM code is well typed, and that emission keeps it so.
- `Mentions`: what a function mentions, stated node by node at any depth.
- `Correctness`: the theorems about what emitted code does.
- `EmitModule`, `Namer`, `Types`: the module worklist, symbol mangling, and the translation of types.
- `Conversions`, `InlineConstants`: float and integer conversions, and the pass that removes function constants.

Stated once, and used throughout: sibling regions are listed in a topological order; every value input has one source;
each dataflow region has exactly one `Input` and one `Output`, which need not come first or last; the first two children
of a control-flow graph are its entry and its only exit; the successors of a block are listed per branch tag; a sum that
is branched on has at least one variant; an array has at most 2^31 elements; the handlers of extension ops emit
code that computes what the op means (`src/custom/extension_op.rs:30-34`; for array ops this is proved, not assumed), and
functions linked in later return what the HUGR takes them to return. The target follows the LLVM 14 Language Reference Manual ("switch",
"extractvalue", "getelementptr", "fptosi .. to"); rounding is roundTiesToEven of section 4.3.1 of IEEE 754-2008.
Where a predicate's body reads `true == (...)`, the equation only keeps the verifier from splitting the predicate into
its conjuncts wherever it is proved.

The tests of the unsigned round trip ask for an error below `2^10` (`src/extension/conversions.rs:508-533`).
`Conversions.RoundTripOffByBound` says exactly for which numbers that holds: the error is `2^10` for the accepted `n`
with `n >= 2^63` and `n % 0x800 == 0x400`, and smaller for all others. The tests use none of the former.

## Model

| member | source | states |
|---|---|---|
| Correctness.CompiledCorrectly | src/emit.rs:330-354 | for well-typed programs, emitted code stops exactly with the rows the HUGR returns, runs on exactly when the HUGR does, and is never stuck; results have the output types; callees may be defined or declared and linked in later |
| Correctness.StopsIffReturns | src/emit.rs:330-354 | a run of the emitted function ends in a value iff that value aggregates a row the HUGR returns |
| Correctness.RunsIffDiverges | src/emit/ops/cfg.rs:98-146 | the emitted function runs forever iff the HUGR exhausts every amount of fuel |
| Correctness.NeverStuck | src/emit/ops.rs:61-102 | no run reads an unwritten mailbox or an undefined register, branches on poison, or calls a missing function |
| Correctness.ReturnsAreComputed | src/emit/ops.rs:61-102 | whatever the HUGR returns, the emitted function returns, for all arguments |
| Correctness.EmittedModuleIsCorrect | src/emit.rs:288-354 | the module a successful emission leaves behind behaves as the HUGR, functions being found by their symbols, if no function has the symbol of another one that has been emitted |
| Correctness.EmittedModuleIsTyped | src/emit.rs:126-137 | every emitted function is in the module under its mangled name, with the parameters and results of its HUGR signature, and its code is well typed |
| Correctness.ReturnsInhabit | src/custom/types.rs:63-78 | the value that a run of an emitted function returns inhabits the return type the function has in the module; void iff it has no outputs |
| Dominance.DefinedBeforeUse | src/emit/ops.rs:74-101 | on every path from the alloca block, feasible or not, each register use and mailbox load comes after its definition or a store to that slot |
| Dominance.DefinitionDominatesUse | src/emit/ops.rs:74-101 | a register that is used has one definition, which is earlier in the same block or in a block on every path from the start to the use |
| Registers.RegisterDefinedOnce | src/emit/func.rs:121-315 | in the code of any function, valid or not, two instructions that define a register are the same one |
| TypedEmission.EmittedCodeIsTyped | src/emit.rs:330-354 | some types of the registers fit every instruction of a function: loads and stores agree with the types the mailboxes are allocated at, struct and array accesses with the layout of their aggregate, calls with the callee's signature, branches with tags and comparisons, and the return with the outputs |
| TypedEmission.CondExitTyped | src/emit/ops.rs:175-185 | exit mailbox k of a conditional is allocated at the type of output k, and moving the row to the outputs is well typed |
| TypedEmission.CaseTyped | src/emit/ops.rs:187-209 | the mailboxes of a case have the types of its inputs, the fields of the variant followed by the other inputs, and what it leaves in the exit mailboxes fits them |
| TypedEmission.MakeBlocksTyped | src/emit/ops/cfg.rs:36-73 | the mailboxes of a block have the types of its inputs and those of the exit block the types of the outputs of the graph |
| TypedEmission.DataflowBlockTyped | src/emit/ops/cfg.rs:147-202 | a block reads its results at their types and passes them to successors whose mailboxes have those types |
| CodeTyping.TagTyped | src/sum.rs:77-120 | the code of a tag is well typed: tag, fields and variant go into fields of their types |
| CodeTyping.FieldsLower | src/sum.rs:35-64 | the fields by which accesses are typed are those of the LLVM types that sums, rows and arrays are mapped to |
| Dominance.NodesDom | src/emit/ops.rs:74-101 | emitting nodes loses nothing that is defined at the builder, whatever blocks the builder moves through, and writes the mailboxes of all wires that come into scope |
| Dominance.CondDom | src/emit/ops.rs:167-222 | all that is defined before a conditional is still defined in its exit block, and its outputs are written |
| Dominance.CfgDom | src/emit/ops/cfg.rs:98-216 | all that is defined before a control-flow graph is still defined in its exit block, and its outputs are written |
| Dominance.SuccsRely | src/emit/ops/cfg.rs:164-200 | what a block relies on (its mailboxes, the wires visible in it) is written on every edge into it |
| Simulation.SimNodes | src/emit/ops.rs:74-101 | a run of the code of a list of nodes stays in step with the dataflow semantics of those nodes |
| Simulation.SimNode | src/emit/ops.rs:74-101 | the inputs of a node are read from the mailboxes of its wires and its results end up in its output mailboxes |
| Simulation.SimRegion | src/emit/ops.rs:61-102 | a dataflow region leaves its results in the promised mailboxes |
| Simulation.SimCond | src/emit/ops.rs:167-222 | a conditional runs the case its tag selects, on the fields of the variant followed by the other inputs, and leaves the results in the output mailboxes |
| Simulation.SimBlock | src/emit/ops/cfg.rs:147-202 | a dataflow block ends at the start of the successor its tag selects, whose mailboxes hold the fields followed by the other outputs |
| Simulation.SimCfgFrom | src/emit/ops/cfg.rs:98-216 | from any child on, every transition of the HUGR graph, loops included, is matched by the emitted blocks, until the exit is reached or for as long as the HUGR goes on |
| Simulation.SimCfg | src/emit/ops/cfg.rs:98-216 | a control-flow graph leaves its results in the output mailboxes of its node |
| Simulation.SimFunc | src/emit.rs:330-354 | a call runs from the alloca block to the return and hands the HUGR's row to the caller's frame; a call of a function that is only declared hands back what is linked in |
| SimGraphs.SimChoice | src/emit/ops/cfg.rs:178-200 | the branch at the end of a block delivers fields and other outputs to the mailboxes of the chosen successor, over whatever stale values they held, and changes nothing else |
| SimStep.StorePromise | src/emit/ops.rs:87-90 | storing results in promised mailboxes, even the very ones just read and even duplicated, keeps every bound wire's value |
| SimStep.SimInput | src/emit/ops.rs:83-86 | `Input` stores the region's arguments, held in registers since before, wherever the builder has got to |
| SimOps.ExecUnpack | src/emit.rs:371-390 | unpacking the aggregate that is returned gives back the row, for every length |
| SimOps.SimCall | src/emit/ops.rs:239-277 | a direct or indirect call leaves the callee's row in the output mailboxes |
| SimArrays.SimArray | src/extension/prelude/array.rs:51-338 | every array op, run, leaves the results of the op on sequences in the output mailboxes, with the builder at the end of an open block |
| SimArrays.SimAccess | src/extension/prelude/array.rs:80-306 | get, set and swap go through the success block iff all indices are in bounds, else through the failure block, and meet in the exit block with the sum in the output mailbox |
| ExecArrays.ExecGuard | src/extension/prelude/array.rs:130-303 | the comparison is true iff all indices are in bounds; swap's is the conjunction of two |
| ExecArrays.ExecAccess | src/extension/prelude/array.rs:105-277 | in bounds, spilling, pointer arithmetic, loads and stores give the variant for success with the element got, or the old element and the updated array, or the swapped array, equal indices included |
| ExecArrays.ExecRefused | src/extension/prelude/array.rs:121-286 | out of bounds, the variant for failure hands back the inputs, value and array in the order of its type |
| ExecArrays.ExecNewArray | src/extension/prelude/array.rs:71-79 | inserting the inputs one by one gives the array of the inputs |
| ExecArrays.ExecPopped | src/extension/prelude/array.rs:341-385 | a pop gives an end element and the rest loaded from memory, and the variant for none for size 0 |
| SimBranch.SimDestructure | src/sum.rs:249-278 | branching on a sum with tag t reaches the target of variant t with exactly the fields of t and the other values in its mailboxes |
| SimBranch.SwitchDispatch | src/sum.rs:273-275 | with variant 0 as the default of the switch, tag t selects block t |
| SimBranch.SimArm | src/emit/ops/cfg.rs:192-200 | parallel assignment: all values are in registers before the first store, so a target gets the old values even when it is the block itself |
| Exec.SumRoundTrip | src/sum.rs:77-247 | after tagging, the tag read is the tag given, its fields are the fields given, every other variant's fields are poison; with one variant no instruction writes or reads a tag, and the value is the struct of the struct of the fields |
| Exec.ExecTag | src/sum.rs:77-120 | building a variant gives {{fields}} if it is the only one, and otherwise the struct with the tag in front, the fields in place and poison elsewhere |
| Values.EncodedSum | src/sum.rs:15-64 | a sum value is represented with a tag field in front iff there are two variants or more |
| Exec.ExecUntag | src/sum.rs:232-247 | unpacking the active variant gives its fields |
| Exec.ExecConst | src/emit/ops.rs:117-141 | materialising a constant gives the LLVM value that represents it, however nested |
| Exec.ExecLoads | src/emit/func/mailbox.rs:126-144 | reading a row puts each mailbox's value in a register and changes no mailbox |
| Exec.ExecStores | src/emit/func/mailbox.rs:146-152 | writing a row leaves each mailbox with its value and the others alone, provided that shared mailboxes get equal values |
| Typing.CallSafe | src/emit/ops.rs:61-102 | well-typed, well-scoped HUGRs never ask for a value that has not been computed, and return rows of the output types |
| Typing.CfgSafe | src/emit/ops/cfg.rs:98-216 | the same from any block of a control-flow graph on, with non-local wires from dominating blocks |
| Typing.ArraySafe | src/extension/prelude/array.rs:51-338 | array ops on values of their input types are defined and return values of their output types |
| EmitLaws.FunctionWellFormed | src/emit/func.rs:121-315 | in every emitted function each block has one terminator, in last position; the first block holds the allocas and the branch to the launch block and is never jumped to; every wire has its own mailbox |
| EmitLaws.EmitNodesLaws | src/emit/ops.rs:61-102 | emission appends at the builder only, may move it to a new block, and closes every block it leaves |
| EmitLaws.CondLaws | src/emit/ops.rs:167-222 | the same for conditionals: only the exit block stays open |
| EmitLaws.CfgLaws | src/emit/ops/cfg.rs:36-216 | the same for control-flow graphs: only the exit block stays open |
| EmitLaws.AccessLaws | src/extension/prelude/array.rs:80-306 | get, set and swap add exactly an exit, a success and a failure block and one anonymous mailbox, close all but the exit block and leave the builder there |
| Mailboxes.MailboxesNeverAlias | src/emit/func.rs:175-286 | over any sequence of requests, equal wires get one mailbox of their type, different wires different ones, and anonymous mailboxes alias nothing |
| Context.EmitFuncContext.constructor | src/emit/func.rs:146-173 | a new function has its alloca block and its launch block, and the builder is in the latter |
| Context.EmitFuncContext.NewBasicBlock | src/emit/func.rs:121-132 | a block is added directly before or after the block it is placed by, or at the end, without moving the builder |
| Context.EmitFuncContext.Find | src/utils/type_map.rs:117-135 | records what is asked for; an error iff it is not registered |
| Context.EmitFuncContext.NewValueMailBox | src/emit/func.rs:175-179 | a fresh mailbox in the alloca block; an error iff its type does not lower |
| Context.EmitFuncContext.NewRowMailBox | src/emit/func.rs:175-196 | fresh consecutive mailboxes are allocated in the alloca block wherever the builder is; an error iff one of the types does not lower |
| Context.EmitFuncContext.MapWire | src/emit/func.rs:269-286 | a wire that has a mailbox keeps it, another gets a fresh one, which is an error iff its type does not lower |
| Context.EmitFuncContext.MapRow | src/emit/func.rs:235-267 | the mailboxes of a node's input or output wires; the types of fresh ones are asked for |
| Context.EmitFuncContext.ReadVec | src/emit/func/mailbox.rs:126-144 | one load per mailbox, in order, into fresh registers |
| Context.EmitFuncContext.Write | src/emit/func/mailbox.rs:146-152 | one store per mailbox, in order; an error unless there are as many values |
| Context.EmitFuncContext.BuildTag | src/sum.rs:77-120 | emits the piece of code that tags, one instruction per field and one more, or two if there are several variants; fails iff the tag is bad or the number of fields is |
| Context.EmitFuncContext.BuildUntag | src/sum.rs:232-247 | emits the piece of code that unpacks a variant |
| Context.EmitFuncContext.BuildGetTag | src/sum.rs:220-226 | extracts field 0; with one variant nothing is emitted and the tag is 0 |
| Context.EmitFuncContext.BuildDestructure | src/sum.rs:249-278 | emits one block per variant behind the last, and the switch |
| Context.EmitFuncContext.EmitValue | src/emit/ops.rs:117-141 | emits the code of a constant, asking for the type of each sum and the handler of each custom constant in it; function constants fail |
| Context.EmitFuncContext.WithArrayAlloca | src/extension/prelude/array.rs:33-49 | emits the spill of an array to the stack and returns the pointer to its first element |
| Context.EmitFuncContext.BuildAccess | src/extension/prelude/array.rs:105-277 | emits the access through pointers of get, set or swap, one instruction at a time |
| Emitters.EmitDataflowParent | src/emit/ops.rs:61-102 | emits the nodes of a region in order; inputs and outputs can be taken once each |
| Emitters.EmitChildNode | src/emit/ops.rs:74-101 | reads a node's inputs, promises its outputs and emits it |
| Emitters.EmitOptype | src/emit/ops.rs:309-336 | dispatches on the op; invalid children fail |
| Emitters.EmitConditional | src/emit/ops.rs:167-222 | emits exit block, cases and switch, and leaves the builder in the exit block |
| Emitters.EmitArrayOp | src/extension/prelude/array.rs:51-338 | emits an array op as specified, asking for its types |
| Emitters.EmitNewArray | src/extension/prelude/array.rs:71-79 | emits one insertion per input into an undefined array |
| Emitters.EmitAccessOp | src/extension/prelude/array.rs:80-306 | emits mailbox, exit, success and failure block and the conditional branch of get, set and swap |
| Emitters.EmitPopOp | src/extension/prelude/array.rs:341-385 | emits a pop, of nothing but a tag for size 0 |
| Emitters.EmitCall | src/emit/ops.rs:239-277 | emits a call and the unpacking of its result |
| Emitters.DeaggregateCallResult | src/emit.rs:371-390 | emits the unpacking of none, one or several results |
| Emitters.CfgEmitter.constructor | src/emit/ops/cfg.rs:36-73 | makes a block and mailboxes for each child before anything is emitted into them |
| Emitters.CfgEmitter.EmitChildNodes | src/emit/ops/cfg.rs:98-146 | writes the inputs to the entry block, emits every child and leaves the builder in the exit block |
| Emitters.CfgEmitter.EmitDataflowBlock | src/emit/ops/cfg.rs:147-202 | emits a block into its basic block and branches to the successors per tag |
| Emitters.CfgEmitter.EmitExitBlock | src/emit/ops/cfg.rs:204-215 | moves the exit mailboxes to the outputs, which can be taken once |
| Emitters.EmitFuncDefn | src/emit.rs:330-354 | emits a function as specified; fails iff the emission fails or a type or handler it asked for is not registered |
| Scopes.FunctionNames | src/emit/ops.rs:329-332 | emission leaves to be emitted exactly the functions defined in the body, however deep in regions, and declares exactly those called or loaded |
| Scopes.FunctionNeeds | src/emit/func.rs:175-179 | emission asks for no type or handler but those of the mailboxes, sums, ops and constants in the HUGR, and for all of them if both ends of every edge have one type |
| Mentions.FunctionMentions | src/emit/ops.rs:329-332 | a function is left to be emitted iff some node at some depth of the body defines it, and declared iff some node calls or loads it |
| Mentions.NeedsMetIff | src/utils/type_map.rs:117-175 | what a function needs is registered iff its output types lower and, for every node at any depth, the types of its ports and of the sums it builds or takes apart lower, and its op and the custom constants it loads have handlers |
| EmitModule.EmitModuleContext.GetFuncImpl | src/emit.rs:106-124 | adds or gets a function by symbol; fails iff it is there with another type |
| EmitModule.EmitHugr.EmitFuncImpl | src/emit.rs:330-354 | a function is defined once, under its mangled name and with its HUGR signature; emitting it again does nothing; a symbol that has a body already fails; functions that can be emitted together are emitted without error |
| EmitModule.EmitHugr.EmitFuncDefnTree | src/emit.rs:288-306 | the worklist terminates and, on success, exactly what was emitted before and what is scoped in the root, transitively, is defined, each once; it succeeds if these can be emitted together |
| EmitModule.EmitHugr.EmitModuleChildren | src/emit.rs:313-329 | on success exactly the module's definitions and what is scoped in them is defined; from an empty module it succeeds iff no child is invalid, symbols of definitions are unique, functions that share a symbol share a type, and every type and handler that a signature, mailbox, sum, op or constant takes is registered; everything emitted, called or loaded has its HUGR signature |
| EmitModule.ConsistentEmittable | src/emit.rs:288-329 | what has been emitted together meets that condition |
| EmitModule.ReferredSigned | src/emit.rs:126-137 | every function emitted, called or loaded is in the module with one parameter per input, in order, and its outputs as result |
| EmitModule.AddDefinition | src/emit.rs:106-124 | defining one more function keeps the module consistent, whether or not a call declared it before |
| EmitModule.ModuleIsCompiled | src/emit.rs:288-354 | looking functions up by symbol finds the compiled code of each that was emitted and none for the others, iff no function shares its symbol with another that was emitted |
| EmitModule.PostfixesSeparate | src/emit/namer.rs:38-47 | with node postfixes on, distinct nodes never share an LLVM function |
| Namer.SharedSymbol | src/emit/namer.rs:38-47 | two functions share a symbol iff their names agree and, with postfixes on, so do their nodes |
| Namer.SymbolIs | src/emit/namer.rs:38-47 | a symbol is the prefix, the name and, with postfixes on, a dot and the node index in decimal without leading zeros |
| Types.SumTypesAgree | src/sum.rs:35-64 | the two ways of building the type of a sum agree, also on failing |
| Types.SumLayout | src/sum.rs:35-64 | the type of a sum has one struct per variant, with the types of its fields, after a 32-bit tag iff there are two variants or more |
| Types.CallbackDecides | src/utils/type_map.rs:117-135 | a custom type is mapped to what its own callback gives, or not at all; registering a callback changes no type that does not mention it |
| Types.FunctionTypeSigned | src/custom/types.rs:63-78 | a function type has one parameter per input, in order, and returns nothing, the one output, or the struct of all |
| Types.MapsIffLowers | src/utils/type_map.rs:117-175 | a type is mapped iff it is made of sums, functions and custom types whose callbacks accept them |
| Types.EncTyped | src/emit/ops.rs:117-141 | the LLVM value of a well-typed value, each custom type taken at its own callback's type, has the LLVM type its mailbox is allocated with |
| Types.ReturnTyped | src/custom/types.rs:63-78 | what a function returns has the return type of its function type: nothing, one value, or a struct |
| Types.TypeMap.SetCallback | src/utils/type_map.rs:105-113 | registers a callback and reports whether none was replaced |
| Conversions.TruncNeverPoison | src/extension/conversions.rs:49-133 | a successful truncation is never poison: it is the integer t within the width with t <= x < t + 1 for x >= 0 and t - 1 < x <= t for x <= 0; for all widths, both signs, NaN and infinities |
| Conversions.TruncSucceedsIff | src/extension/conversions.rs:67-93 | exactly which floats are accepted: the finite ones not below the minimum and below the maximum, or at width 64 below the maximum plus one |
| Conversions.TruncRefuses | src/extension/conversions.rs:67-93 | floats that would fit and are refused nevertheless |
| Conversions.FloatBounds | src/extension/conversions.rs:49-61 | as floats, all bounds are exact but the maxima at width 64, which round up to powers of two |
| Conversions.BoundsAre | src/extension/conversions.rs:49-61 | shifting the 64-bit bounds gives the bounds of each width |
| Conversions.RoundIsNearest | src/extension/conversions.rs:153-167 | conversion to float picks a nearest representable number and, of two, the one with the even significand |
| Conversions.RoundIsNearestSigned | src/extension/conversions.rs:153-167 | the same for integers of either sign |
| Conversions.RoundIsRepresentable | src/extension/conversions.rs:153-167 | the result of a conversion to float is representable with 53 bits |
| Conversions.RoundTripUnsigned | src/extension/conversions.rs:505-533 | unsigned 64-bit round trips fail iff n >= 2^64 - 2^10, are off by at most 2^10 otherwise, and are exact up to 2^53 |
| Conversions.RoundTripSigned | src/extension/conversions.rs:535-568 | signed 64-bit round trips fail iff n >= 2^63 - 2^9, are off by at most 2^9 otherwise, and are exact up to 2^53 in size |
| Conversions.RoundTripOffByBound | src/extension/conversions.rs:505-533 | the unsigned round trip succeeds with an error below 2^10 iff n < 2^64 - 2^10 and not both n >= 2^63 and n % 0x800 == 0x400 |
| Conversions.RoundTripSignedOffByBound | src/extension/conversions.rs:535-568 | among accepted signed numbers the error is 2^9 iff the size is at least 2^62 and 0x200 modulo 0x400 |
| Conversions.BoolRoundTrip | src/extension/conversions.rs:175-216 | bit 1 is true, variant 1, and bit 0 is false; bits and bools convert into each other and back |
| Arrays.SetThenGet | src/extension/prelude/array.rs:142-214 | getting after setting, at the same and other indices; setting fails exactly where getting does |
| Arrays.SetBack | src/extension/prelude/array.rs:142-214 | setting back the element that set returned restores the array |
| Arrays.SwapIsTransposition | src/extension/prelude/array.rs:215-306 | swapping permutes, exchanges exactly two elements and is its own inverse, equal indices included |
| Arrays.PopConservation | src/extension/prelude/array.rs:341-385 | for any interleaving of pops, left pops, remainder and reversed right pops make up the original |
| InlineConstants.HugrGraph.CollectConstFuns | src/utils/inline_constant_functions.rs:29-55 | finds every function constant and its loads; fails iff the root of a body is neither a dataflow graph nor a function definition or a use is no load |
| InlineConstants.HugrGraph.InlineRound | src/utils/inline_constant_functions.rs:57-88 | one round removes every function constant there was, turns its loads into function loads, leaves other nodes alone, puts a function holding the unchanged body of each used one at the end, and lowers the nested count of function constants if any was in use |
| InlineConstants.HugrGraph.InlineConstantFunctions | src/utils/inline_constant_functions.rs:15-21 | the rounds come to an end and, on success, no constant is a function, however deep it was nested, and the body of every one that was in use, at any depth, is that of a new function, its own function constants gone and their loads function loads |
| InlineConstants.InlinedTotal | src/utils/inline_constant_functions.rs:57-88 | inlining one constant strictly lowers the count, though its body may bring further constants along |
| InlineConstants.InlinedWellFormed | src/utils/inline_constant_functions.rs:69-86 | static edges stay inside the graph and inside inserted bodies |

## Left out

- Emit.EmitOp: an extension op other than an array op is one abstract instruction; its handler creates no blocks and fails only by not being registered.
- Correctness.CompiledCorrectly: a function that is declared only is an abstract meaning in the HUGR and a matching one in LLVM that always returns.
- EmitModule.EmitModuleContext.GetHugrFunc: functions with type parameters, which the compiler refuses, are not represented.
- EmitModule.EmitHugr.EmitFuncImpl: what a body refers to is declared after the body is emitted, not during, and what it asks for is checked at the end; the resulting module is the same, and so is whether there is one.
- Emitters.EmitLoadConstant: the code appended for a constant that turns out to hold a function is dropped, where the compiler drops the whole function; the same holds for array ops whose results do not fit their outputs.
- Types.EncTyped: callbacks of custom types do not call back into the type map, except for arrays, which are a type of their own here; the values their handlers make are taken to have the type the callback gives.
- TypedEmission.EmittedCodeIsTyped: typing is static; that values inhabit their types in a run is proved for what is returned, not for registers and mailboxes on the way.
- Conversions.TruncSucceedsIff: results of fewer than 8 bits are integers here, where the compiler keeps them in 8-bit registers.
- Emitters.EmitArrayOp: sizes beyond 2^31, which the compiler cuts to 32 bits or uses as negative offsets, are excluded; pointers are untyped, so bitcasts between them emit nothing; ops for which the compiler has only `todo!()` are not represented.
- InlineConstants.HugrGraph.InlineConstantFunctions: nothing is claimed about which function the new function loads reach, since no edge to it is added, nor about functions nested inside sum constants, which the pass does not look at; the slots of removed nodes are not reused.
- The names of blocks, mailboxes and values, and of inlined functions.
- Functions and globals from outside (`get_extern_func`, `get_global`), `printf`, `abort` and panic messages.
- Single-instruction integer, float, logic and rotation ops, and the itousize and ifromusize no-ops.
- The LLVM bindings, optimisation passes and execution.
- Debug assertions on LLVM types.
