# Insomniac in Dafny

Insomniac is a small Scheme system: a compiler from an instruction-stream tree to labelled stack
code, an assembler, a byte-code machine, a mark/sweep collector, a chained hash table and an
elastic buffer.  This project models those parts and proves what they promise.  To verify
it, run Dafny 4.11 in this directory:

    dafny verify dfyconfig.toml

## What is modelled

**Compiler, assembler, machine.**  `Machine` is the machine: values, the stack, environment records
that share binding tables, and one function `Exec` for the effect of a decoded instruction,
exceptions included.  `Code` is labelled code and its runs; `Emit` the code of every node; `Eval` a
direct evaluator of the tree that knows nothing of stacks, labels or closures.  `Correct` simulates
the evaluator by the emitted code, `Theorems` states the results for whole programs, and `EndToEnd`
carries them down to bytes through `Assembler` and `ByteMachine`.  `Adequacy`, with `Formation` and
`Failing`, proves the converse: code that reaches its end has the value of the tree.  `Compiler`,
`AsmString` and `Vm` are the objects of the original, with their loops and in-place updates, held to
those functions.  `TailCalls`, `Labels`, `StackDiscipline`, `StackSafety`, `Frames`, `ControlFlow` and
`Fuel` hold the properties of all programs and all runs.  `Arithmetic`, `Exceptions` and `Bindings` say
what the instructions mean that the other proofs only pass through.

The evaluator follows the code: arguments are evaluated last to first and then the operator; extra
arguments are ignored; `let*` has one frame for all its bindings, unlike the nested scopes of section
4.2.2 of R7RS; a `cond` without a matching clause gives `()`; the last expression of `and` and `or` is
not a tail position.

**call/cc.**  `CallCc` runs the assembly routine of the preamble on the machine, and `Continuations` and
`Spoiling` show when what it captures outlives a later run; `Adoption` has a program that loses it.

**Collector.**  `Marking` is the recursive marking, `Heaps` the lists, sweeping and allocation,
`Collection` the recursion between sweep and pre-allocation, `Termination` when it ends, `Mutator` the
runs of a client, `Roots` what registration and protection do for it, and `Collector` the object with
its loops.

**Hash table, buffer, and two smaller parts.**  `Hashing`, `Buckets` and `HashTables`; `Buffers`;
`Utf8`; `VectorCopy`.

## Where the code does less

Some properties one might expect are false of the code.  Each is given with the exact condition under
which it holds.

- A collection does not end on every heap, because a permanent object is never painted.  It ends if
  and only if no permanent objects form a cycle (`Termination.SweepStops`); two commands make one
  (`Mutator.PermanentCycleHangs`).
- A copy-on-write table is not isolated from its source, because only the copy is flagged.  A write to
  the source leaves it alone if and only if the source is itself an unwritten copy, the two no longer
  share an array, or the write changes nothing (`HashTables.WriteSource`, `HashTables.EraseSource`);
  `HashTables.CopyChanged` makes a copy that changes.
- The entry count of a table is not the number of its keys after an erase.  It is if and only if no
  present key was erased since the last rebuild (`HashTables.HashTable.HashErase`);
  `HashTables.CountLeft` makes an empty table that counts an entry.
- A captured continuation can be lost.  Over a step it stays if and only if the step is no `bind` or
  `set` that gives its saved stack or return another value (`Spoiling.StepSaved`); only code that an
  `adopt` has lent its frame to can do that (`Spoiling.HarmlessUnspoilt`), and
  `Adoption.CaptureLost` runs a program from its start that does.
- `(quote x)` is the list `(x)`, and so never means `'x` (`Grammar.LongQuoteIsList`).

## Model

| member | source | states |
|---|---|---|
| `Theorems.ProgramCorrect` | src/libinsomniac_bootstrap/bootstrap_emit.c:61-691 | If evaluating the tree of a program gives a value and final variables, the machine started on its emitted code reaches the end of the code with exactly that value on the stack and those variables in its tables; the evaluator has its own arithmetic, closures and scopes |
| `Theorems.StreamCorrect` | src/libinsomniac_bootstrap/bootstrap_emit.c:665-691 | The same for the code of any stream placed anywhere in a program: in any state that represents the store, its value is pushed on the unchanged stack, in the same frame |
| `Adequacy.ProgramEnds` | src/libinsomniac_bootstrap/bootstrap_emit.c:61-691 | The converse: whenever the machine started on the emitted code reaches its end, evaluating the tree gives a value, it gives no other, and it is the one on the stack with those variables in the tables |
| `Adequacy.ProgramAdequate` | src/libinsomniac_bootstrap/bootstrap_emit.c:61-691 | A program has a value if and only if its code comes to its end |
| `Adequacy.LoseStream` | src/libinsomniac_bootstrap/bootstrap_emit.c:665-691 | Where evaluation within k nested calls fails, the code of the stream takes at least k steps or stops on an error, in tail position or not |
| `Correct.RunStream` | src/libinsomniac_bootstrap/bootstrap_emit.c:665-691 | Simulation of emit_stream: every statement but the last is dropped, the last is the value, an empty stream gives () |
| `Correct.RunNode` | src/libinsomniac_bootstrap/bootstrap_emit.c:562-662 | Simulation of every kind of node, in tail position or not |
| `Correct.RunIf` | src/libinsomniac_bootstrap/bootstrap_emit.c:115-158 | The branch taken is the one the test selects, only #f counting as false, and both arms meet at the done label |
| `Correct.RunClauses` | src/libinsomniac_bootstrap/bootstrap_emit.c:61-112 | A cond gives the body of the first clause whose test is not false, and () when none is |
| `Correct.RunBool` | src/libinsomniac_bootstrap/bootstrap_emit.c:161-234 | and/or stop at the deciding argument with that argument as value; the last argument is not a tail position |
| `Correct.RunLambda` | src/libinsomniac_bootstrap/bootstrap_emit.c:237-324 | A lambda pushes a procedure value for its body and the frame of its creation and runs nothing of the body |
| `Correct.RunFormals` | src/libinsomniac_bootstrap/bootstrap_emit.c:263-306 | The prologue binds the formals in the new frame and leaves only the return closure |
| `Correct.RunCall` | src/libinsomniac_bootstrap/bootstrap_emit.c:237-324 | A call of a procedure value with an argument list runs the body in a fresh frame and returns its value to the caller on the caller's stack |
| `Correct.RunArgs` | src/libinsomniac_bootstrap/bootstrap_emit.c:379-413 | The consing loop builds the argument list, evaluating the nodes in stream order |
| `Correct.RunApply` | src/libinsomniac_bootstrap/bootstrap_emit.c:379-413 | Arguments, then the operator, then the call, ordinary or tail |
| `Correct.RunLet` | src/libinsomniac_bootstrap/bootstrap_emit.c:327-376 | let* runs all bindings and the body in one fresh frame, through `call` or, in tail position, `proc` and `tail_call_in` |
| `Correct.RunQuotedRest` | src/libinsomniac_bootstrap/bootstrap_emit.c:432-469 | The loop of emit_quoted conses each further node onto what precedes it |
| `Correct.RunRecordLoop` | src/libinsomniac_bootstrap/bootstrap_emit.c:493-519 | The binding loop of a record type binds every (symbol . value) pair of the list the factory returns and ends with () |
| `Correct.RunRecord` | src/libinsomniac_bootstrap/bootstrap_emit.c:472-526 | A record type calls the factory on the quoted definition and binds what it returns |
| `Theorems.QuotedCorrect` | src/libinsomniac_bootstrap/bootstrap_emit.c:432-469 | For every nested proper or dotted datum, the code of its quotation pushes exactly that datum and changes nothing else |
| `Theorems.CallingConvention` | src/libinsomniac_bootstrap/bootstrap_emit.c:237-324 | From procedure entry to body, whatever the formals: a name is bound to the argument at its last place in the list, the rest name to the remaining list, nothing else is bound, and only the return closure is left above the caller's stack |
| `Grammar.QuotedDatum` | src/libinsomniac_bootstrap/scheme.y:90-118 | The list actions build, from a datum with any nesting of lists, quote marks and long quotations, a stream whose quoted value is that datum |
| `Grammar.LongQuoteIsList` | src/libinsomniac_bootstrap/scheme.y:117-119 | The long form (quote ...) quotes the list of its data, as an expression or inside data, so (quote x) is the one-element list (x) and never x |
| `Grammar.ArgumentOrder` | src/libinsomniac_bootstrap/scheme.y:301-303 | The reversed argument stream and the consing loop give the source arguments in source order, evaluated last to first, for any number of single-node arguments |
| `Grammar.FormalsBound` | src/libinsomniac_bootstrap/scheme.y:311-332 | Formals can be bound if and only if there are at least as many arguments as fixed names; a repeated name gets its last argument and extra arguments of a fixed list are ignored |
| `TailCalls.TailEquivalence` | src/libinsomniac_bootstrap/bootstrap_emit.c:327-413 | For a stream with a value, code emitted for a tail position and code emitted for any position followed by `swap ret` hand the caller the same value, store and stack |
| `Adequacy.TailAdequate` | src/libinsomniac_bootstrap/bootstrap_emit.c:327-413 | Where the caller stops once it is handed a value, the code of a tail position and that of any position followed by `swap ret` each hand it one if and only if the stream has one, and then it is the only value of the stream, on the caller's own stack |
| `TailCalls.TailChain` | src/libinsomniac_vm/libinsomniac_vm_instructions/vm_jump.c:177-200 | Over any number of tail calls in a row every callee is entered with the same return record, the same stack below its arguments and the same depth |
| `TailCalls.EntryToNext` | src/libinsomniac_bootstrap/bootstrap_emit.c:379-413 | From the entry of a procedure the machine reaches the entry of the procedure it tail-calls, with the return record handed on |
| `Labels.EmittedLabels` | src/libinsomniac_bootstrap/bootstrap_core.c:38-50 | Emitted code defines every label at most once and jumps only to labels it defines |
| `Labels.StreamLabels` | src/libinsomniac_bootstrap/bootstrap_emit.c:665-691 | The labels of a stream are exactly the block of indices handed out while emitting it, each defined once |
| `StackDiscipline.StreamFlow` | src/libinsomniac_bootstrap/bootstrap_emit.c:665-691 | Every stream nets exactly one value: there is one stack shape per label of its block, and every path through the code respects it |
| `StackDiscipline.NodeFlow` | src/libinsomniac_bootstrap/bootstrap_emit.c:562-662 | A node nets one value when emit_node reports a push and none when it does not |
| `StackDiscipline.LambdaFlow` | src/libinsomniac_bootstrap/bootstrap_emit.c:237-324 | A procedure entered with return closure over argument list reaches its `ret` with exactly one value above that closure |
| `StackDiscipline.LetTailFlow` | src/libinsomniac_bootstrap/bootstrap_emit.c:327-376 | A let* in tail position meets its `tail_call_in` with only the return closure left in the frame |
| `StackDiscipline.RecordFlow` | src/libinsomniac_bootstrap/bootstrap_emit.c:472-526 | The record binding loop comes back to its label with the shape it had |
| `StackSafety.SafeStep` | src/libinsomniac_vm/libinsomniac_vm_instructions/vm_jump.c:24-200 | Every step of a compiled program keeps the stack a pile of activations, each of the shape its code point announces and each holding the closure that returns to the one below |
| `StackSafety.NoUnderRun` | src/libinsomniac_vm/vm_core.c:80-103 | The operands of the next instruction lie within the running activation, so no pop under-runs or touches a caller's part |
| `StackSafety.RetStep` | src/libinsomniac_vm/libinsomniac_vm_instructions/vm_jump.c:135-148 | A return resumes the waiting activation with exactly one value more |
| `StackSafety.TailCallStep` | src/libinsomniac_vm/libinsomniac_vm_instructions/vm_jump.c:177-200 | A tail call replaces the activation and leaves the pile as high as it was |
| `StackSafety.CompiledRunsSafely` | src/libinsomniac_vm/vm_eval.c:19-36 | In every state any compiled program reaches, the next instruction has its operands, and at the end of the code the stack holds one value and nothing else |
| `Compiler.Compiler.GenLabel` | src/libinsomniac_bootstrap/bootstrap_core.c:38-50 | Hands out the current label index and moves it on by one |
| `Compiler.Compiler.EmitStream` | src/libinsomniac_bootstrap/bootstrap_emit.c:665-691 | The emit_stream loop appends exactly the code of the stream and advances the label index accordingly |
| `Compiler.Compiler.EmitNode` | src/libinsomniac_bootstrap/bootstrap_emit.c:562-662 | Appends the code of the node and reports whether it leaves a value |
| `Compiler.Compiler.EmitIf` | src/libinsomniac_bootstrap/bootstrap_emit.c:115-158 | Appends the code of an if |
| `Compiler.Compiler.EmitClauses` | src/libinsomniac_bootstrap/bootstrap_emit.c:77-100 | The clause loop of a cond appends the code of all clauses |
| `Compiler.Compiler.EmitBoolArgs` | src/libinsomniac_bootstrap/bootstrap_emit.c:184-226 | The argument loop of and/or appends tests after all but the last argument |
| `Compiler.Compiler.EmitLambda` | src/libinsomniac_bootstrap/bootstrap_emit.c:237-324 | Appends a lambda; the same code in tail position and outside it |
| `Compiler.Compiler.EmitFormals` | src/libinsomniac_bootstrap/bootstrap_emit.c:263-306 | The formals loop with its bind-rest flag appends the prologue |
| `Compiler.Compiler.EmitLetStar` | src/libinsomniac_bootstrap/bootstrap_emit.c:327-376 | Appends a let* in either form |
| `Compiler.Compiler.EmitCall` | src/libinsomniac_bootstrap/bootstrap_emit.c:379-413 | Appends a call in either form |
| `Compiler.Compiler.EmitArgs` | src/libinsomniac_bootstrap/bootstrap_emit.c:390-401 | The argument loop with a cons after each argument |
| `Compiler.Compiler.EmitQuoted` | src/libinsomniac_bootstrap/bootstrap_emit.c:432-469 | The quoted loop with its list flag |
| `Compiler.Compiler.EmitRecordType` | src/libinsomniac_bootstrap/bootstrap_emit.c:472-526 | Appends a record type definition with its two labels |
| `Bytes.IntRoundTrip` | src/include/emit.h:7-21 | Every 64-bit integer written as eight bytes is read back by parse_int |
| `Bytes.LowByteDigit` | src/include/emit.h:7-21 | Byte i of an operand is digit i of its number to the base 256, the lowest first |
| `Bytes.ParseIntLoop` | src/libinsomniac_vm/vm_util.c:31-46 | The shift loop over the bytes gives the signed 64-bit value of the eight bytes |
| `Bytes.CharRoundTrip` | src/libinsomniac_vm/libinsomniac_vm_instructions/vm_literals.c:17-37 | Every 32-bit character is read back, whatever byte follows: the fifth byte op_lit_char reads has no effect |
| `Bytes.TextRoundTrip` | src/include/emit.h:28-33 | String bytes are read back unchanged |
| `Assembler.DecodeAssembled` | src/libinsomniac_asm/asm_core.c:235-264 | Decoding the assembled program at the address of any instruction gives back that instruction, a jump going to the address of the last definition of its label |
| `AsmString.Token` | src/libinsomniac_asm/asm_core.c:165-233 | One token appends its bytes with an empty operand, enters a label at the current address, or puts a jump on the list |
| `AsmString.FirstPass` | src/libinsomniac_asm/asm_core.c:301-353 | The token loop leaves the bytes with empty operands, the last address of every label, and the list of all jumps |
| `AsmString.WriteOperand` | src/libinsomniac_asm/asm_core.c:254-260 | Stores the eight bytes of an operand and changes no other byte |
| `AsmString.RewriteJumps` | src/libinsomniac_asm/asm_core.c:235-264 | Patching ends with the assembled program if and only if every jump goes to a defined label |
| `AsmString.PartialPatch` | src/libinsomniac_asm/asm_core.c:235-264 | Filling in one more operand changes the bytes of that jump only |
| `AsmString.Assemble` | src/libinsomniac_asm/asm_core.c:268-370 | Both passes: the assembled program if and only if all labels are defined |
| `ByteMachine.ExecMap` | src/libinsomniac_vm/vm_eval.c:19-36 | No instruction depends on addresses: executing commutes with replacing item indices by byte addresses |
| `ByteMachine.BytesSimulate` | src/libinsomniac_vm/vm_eval.c:19-36 | What the labelled code reaches, its assembled bytes reach, with addresses translated |
| `ControlFlow.ControlFlowIntegrity` | src/libinsomniac_vm/vm_eval.c:19-36 | In every state reachable on assembled bytes, the instruction pointer, every saved instruction pointer and every handler address is an instruction boundary or the end of the code |
| `EndToEnd.CompiledAssembles` | src/libinsomniac_asm/asm_core.c:235-264 | Compiled code never has an undefined jump, so it assembles whenever its literals are representable and it fits the address range |
| `EndToEnd.ProgramOnBytes` | src/libinsomniac_vm/vm_eval.c:4-39 | Tree to bytes: the byte machine started at 0 on the compiled and assembled program halts at its end with the value of the program as the whole stack |
| `EndToEnd.BytesEnd` | src/libinsomniac_vm/vm_eval.c:4-39 | Whenever the byte machine reaches the end of a compiled and assembled program, the tree has a value and no other, and it is the whole stack |
| `EndToEnd.BytesAdequate` | src/libinsomniac_vm/vm_eval.c:4-39 | A program has a value if and only if its assembled bytes, started at 0, run to their end |
| `Frames.ExecInv` | src/libinsomniac_vm/libinsomniac_vm_instructions/vm_jump.c:4-221 | Every instruction keeps the current record unreferenced by closures and parents, and every other record unchanged |
| `Frames.ThrowInv` | src/libinsomniac_vm/vm_exception.c:34-119 | So does raising an exception |
| `Frames.RecordsImmutable` | src/libinsomniac_vm/libinsomniac_vm_instructions/vm_jump.c:4-221 | Over every run a record that is not current stays exactly as it is and never becomes current again |
| `Frames.CapturedImmutable` | src/libinsomniac_vm/vm_env.c:5-42 | Once a closure or a child record refers to a record, its address, table, parent and handler never change |
| `Arithmetic.MathAgrees` | src/libinsomniac_vm/libinsomniac_vm_instructions/vm_math.h:5-52 | Every arithmetic and comparison instruction computes what the evaluator means by the operator on 64-bit integers, and is undefined where it has no value |
| `Arithmetic.DivisionLaw` | src/libinsomniac_vm/libinsomniac_vm_instructions/vm_ops.c:7-16 | Quotient and remainder of 64-bit integers are undefined exactly for a divisor of 0 and for the one quotient that does not fit; otherwise they are the only ones with a remainder below the divisor and of the sign of the dividend |
| `Exceptions.Raises` | src/libinsomniac_vm/vm_exception.c:34-119 | Raising resumes in a copy of the nearest record up the parents whose handler is enabled, at its handler address, with that handler disabled and (message closure . objects) on the old stack, the closure being a copy of the raising record; it is a failed assertion if and only if no record handles |
| `Exceptions.FaultRaises` | src/libinsomniac_vm/vm_exception.c:34-119 | An instruction with a wrong operand raises, with the operands popped and the offending ones among the objects |
| `Exceptions.AbortExactly` | src/libinsomniac_vm/vm_core.c:80-103 | The assertion of the machine fails at an instruction if and only if it lacks operands, or has a wrong one and there is no handler for it |
| `Exceptions.ContinueArms` | src/libinsomniac_vm/libinsomniac_vm_instructions/vm_jump.c:205-214 | continue enables the handler of the current record at the given label |
| `Exceptions.RestoreArms` | src/libinsomniac_vm/libinsomniac_vm_instructions/vm_jump.c:218-221 | restore enables it again at the address it had |
| `Exceptions.RunArmed` | src/libinsomniac_vm/libinsomniac_vm_instructions/vm_jump.c:205-221 | Over every run the handler of a record stays enabled at its address until another continue is executed in that record |
| `Exceptions.Catches` | src/libinsomniac_vm/vm_exception.c:83-99 | After any such run, a wrong operand with no nearer handler goes on at the handler address, in the bindings of the handling record |
| `Exceptions.ContinueCatches` | src/libinsomniac_vm/vm_exception.c:83-99 | After continue l and any run without another one in that record, a wrong operand with no nearer handler executes next at label l |
| `Bindings.JinGoesOn` | src/libinsomniac_vm/libinsomniac_vm_instructions/vm_jump.c:104-132 | jin goes on at the address of the closure with the bindings of the current record and the handler of the closure |
| `Bindings.AdoptSees` | src/libinsomniac_vm/libinsomniac_vm_instructions/vm_jump.c:43-76 | An adopted closure runs the code of the child and sees exactly what the parent sees |
| `Bindings.RotCycles` | src/libinsomniac_vm/libinsomniac_vm_instructions/vm_stack.c:13-23 | rot brings up the second value and then the third, and three of them change nothing |
| `Vm.Vm.constructor` | src/libinsomniac_vm/vm_core.c:106-114 | A fresh machine: empty stack, one record with an empty table |
| `Vm.Vm.VmPush` | src/libinsomniac_vm/vm_core.c:65-78 | Pushes one value and keeps the depth counter equal to the depth |
| `Vm.Vm.VmPop` | src/libinsomniac_vm/vm_core.c:80-103 | Pops the top value, or fails on an empty stack |
| `Vm.Vm.PushChild` | src/libinsomniac_vm/vm_env.c:5-29 | A child of the current record, with an empty table and its code address, becomes current |
| `Vm.Vm.Clone` | src/libinsomniac_vm/vm_env.c:32-42 | A copy of a record becomes current and shares its table |
| `Vm.Vm.HandleException` | src/libinsomniac_vm/vm_exception.c:34-119 | Pushes (message closure . objects) and resumes at the nearest enabled handler with that handler disabled in a copy, or fails if there is none |
| `Vm.Vm.FindFrom` | src/libinsomniac_vm/vm_exception.c:83-86 | The parent walk finds the nearest record with an enabled handler |
| `Vm.Vm.FindTable` | src/libinsomniac_vm/libinsomniac_vm_instructions/vm_locations.c:47-52 | The parent walk finds the nearest table that binds the symbol |
| `Vm.Vm.OpRead` | src/libinsomniac_vm/libinsomniac_vm_instructions/vm_locations.c:26-63 | Reads the nearest binding, or raises |
| `Vm.Vm.OpBind` | src/libinsomniac_vm/libinsomniac_vm_instructions/vm_locations.c:4-24 | Binds in the current table only, or raises |
| `Vm.Vm.OpSet` | src/libinsomniac_vm/libinsomniac_vm_instructions/vm_locations.c:65-107 | Changes the nearest existing binding, or raises |
| `Vm.Vm.OpJump` | src/libinsomniac_vm/libinsomniac_vm_instructions/vm_jump.c:4-101 | jmp, jnf, call, proc and continue |
| `Vm.Vm.OpTransfer` | src/libinsomniac_vm/libinsomniac_vm_instructions/vm_jump.c:104-200 | jin, ret, call_in and tail_call_in |
| `Vm.Vm.OpAdopt` | src/libinsomniac_vm/libinsomniac_vm_instructions/vm_jump.c:43-76 | A copy of the child record with the bindings and parent of the other |
| `Vm.Vm.OpTwo` | src/libinsomniac_vm/libinsomniac_vm_instructions/vm_stack.c:4-23 | swap and rot among the instructions with two or more operands |
| `Vm.Vm.Dispatch` | src/libinsomniac_vm/vm_eval.c:22-36 | One instruction changes the fields exactly as the step function says |
| `Vm.Vm.Eval` | src/libinsomniac_vm/vm_eval.c:4-39 | The fetch loop goes through the states of the step function and stops where that stops |
| `CallCc.RefillSaved` | lib/preamble.asm:56-66 | Pushing back the list the save loop built gives the saved stack |
| `CallCc.SaveLoop` | lib/preamble.asm:85-97 | The save loop drains the stack into the list, whatever its height |
| `CallCc.EmptyLoop` | lib/preamble.asm:46-53 | The empty loop drops whatever is on the stack |
| `CallCc.RestoreLoop` | lib/preamble.asm:56-66 | The restore loop pushes every element of the list |
| `CallCc.Capture` | lib/preamble.asm:78-106 | call/cc saves the whole stack below its arguments and its return, and calls the procedure on an otherwise empty stack with the continuation |
| `CallCc.Invoke` | lib/preamble.asm:72-76 | Calling a continuation with v from any stack, by call_in or by tail_call_in, resumes the captured return with the captured stack and v, executes no adopt on the way and leaves every table as it was |
| `CallCc.NormalReturn` | lib/preamble.asm:106-109 | An ordinary return of the procedure resumes the same way |
| `Continuations.CallCcCaptures` | lib/preamble.asm:78-106 | From a call or tail call of call/cc anywhere in a program: the continuation holds the stack below the arguments and the return, which is the point after a call and the return closure already there for a tail call, and from the next step on that is kept |
| `Continuations.StepKept` | lib/preamble.asm:43-109 | The invariant that a table holds a capture and is in sight of records inside the routine only is kept by a step if and only if the step is no adopt or an adopt that does not hand the frame of the capture to code outside the routine |
| `Continuations.RunKept` | lib/preamble.asm:43-109 | That invariant holds in every state of a run if and only if every step of the run is harmless |
| `Continuations.NoAdoptHarmless` | src/libinsomniac_vm/libinsomniac_vm_instructions/vm_jump.c:43-76 | Every run of a program without adopt is harmless |
| `Spoiling.StepSaved` | src/libinsomniac_vm/libinsomniac_vm_instructions/vm_locations.c:4-107 | A step of any program leaves a captured stack and return as they are if and only if it is no bind or set that gives one of them another value |
| `Spoiling.RunSaved` | src/libinsomniac_vm/libinsomniac_vm_instructions/vm_locations.c:4-107 | A captured stack and return are there in every state of a run if and only if no step of the run spoils them |
| `Spoiling.HarmlessUnspoilt` | src/libinsomniac_vm/libinsomniac_vm_instructions/vm_jump.c:43-76 | A run from a capture whose adopts are all harmless spoils nothing |
| `Spoiling.Resume` | lib/preamble.asm:43-76 | In any state whose table holds a stack and return, calling the continuation by call_in or tail_call_in from any stack resumes that return with that stack and the value, and the capture stays |
| `Adoption.AdoptLosesCapture` | src/libinsomniac_vm/libinsomniac_vm_instructions/vm_jump.c:43-76 | In any program that calls call/cc on a procedure of eleven instructions, that procedure adopts the frame of the continuation, binds stack-save there and so loses the capture |
| `Adoption.CaptureLost` | lib/preamble.asm:43-109 | A program made of the routine and that procedure does so from the start of the machine |
| `Spoiling.MultiShot` | lib/preamble.asm:43-109 | After any run that does not spoil the capture, invoking the continuation with any value from any stack, by call_in or tail_call_in, ends with the captured stack plus that value in the record of the return as it was at the capture, and it can be done again |
| `Marking.ReachableClosed` | src/libinsomniac_gc/gc_sweep.c:15-77 | The objects some chain of pointers leads to form the least closed set with the starts |
| `Marking.MarkOneWithin` | src/libinsomniac_gc/gc_sweep.c:15-77 | Marking inside a closed set without dead objects meets no dead object and no wild pointer and paints only there |
| `Marking.MarkOneSettles` | src/libinsomniac_gc/gc_sweep.c:15-77 | After marking, every painted object has all its pointers painted or permanent |
| `Marking.LoopsForEver` | src/libinsomniac_gc/gc_sweep.c:4-12 | Marking a cycle of permanent objects among live ones runs out of every bound on the depth of recursion; it does not end by a failed assertion |
| `Marking.MarkOneStops` | src/libinsomniac_gc/gc_sweep.c:15-77 | Marking ends on every graph, cyclic or not, whose permanent part has no cycle |
| `Heaps.PhaseExact` | src/libinsomniac_gc/gc_sweep.c:163-169 | The marking phase paints exactly the ordinary objects reachable from permanent objects and roots |
| `Heaps.SweepListSplits` | src/libinsomniac_gc/gc_sweep.c:104-147 | Each object of the active list stays, goes to the dead list or is freed, by its mark and size, and no list gets a repetition |
| `Heaps.CoreExact` | src/libinsomniac_gc/gc_sweep.c:150-174 | A sweep leaves active exactly the used objects with their contents; every other one is dead if cell-sized and freed if not; the invariant holds again |
| `Collection.TakeInv` | src/libinsomniac_gc/gc_internals.c:54-93 | The object handed out was not in use, and nothing else changes |
| `Collection.PreAllocExact` | src/libinsomniac_gc/gc_internals.c:126-137 | Pre-allocation fills the dead list, keeps exactly the used objects active, and its own sweeps never pre-allocate again |
| `Collection.SweepExact` | src/libinsomniac_gc/gc_sweep.c:150-181 | An unprotected sweep ends with exactly the used objects active, every unused cell on the dead list, every other unused object freed or its address taken by a dead cell, and a dead list that is not empty, nesting at most once |
| `Collection.SweepThousand` | src/libinsomniac_gc/gc_internals.c:126-137 | An unprotected sweep that finds no dead and no unused cell ends with exactly 1000 dead cells; any other ends with exactly the cells it finds |
| `Termination.SweepStops` | src/libinsomniac_gc/gc_sweep.c:150-181 | An unprotected sweep ends if and only if no permanent objects form a cycle |
| `Mutator.NewSafe` | src/libinsomniac_gc/gc_internals.c:38-94 | Allocation, recycling included, never hands out a used object and keeps all used objects |
| `Mutator.NewExact` | src/libinsomniac_gc/gc_internals.c:38-94 | An allocation of a cell takes the first dead one; where none is dead, an unprotected collector first collects exactly what nobody uses; anything else is a fresh address. The object heads its list with null pointers and nothing else changes |
| `Mutator.StepSafe` | src/libinsomniac_gc/gc_core.c:43-195 | No client command makes an assertion fail, marks freed memory or nests sweeps twice, and none but a store changes a used object |
| `Mutator.RunSafe` | src/libinsomniac_gc/gc_sweep.c:32-35 | Over every run of allowed commands the lists stay disjoint, without repetition and together the whole heap, active objects carry the current mark, and the dead-list assertion never fires |
| `Mutator.RunStops` | src/libinsomniac_gc/gc_core.c:43-195 | Every run of a client that allocates nothing permanent comes to its end |
| `Roots.RegisterRoots` | src/libinsomniac_gc/gc_core.c:62-71 | What a slot holds is rooted once the slot is registered |
| `Roots.AssignRoots` | src/libinsomniac_gc/gc_core.c:62-71 | What a client puts into a registered slot is rooted, and other slots keep theirs |
| `Roots.RunRooted` | src/libinsomniac_gc/gc_sweep.c:150-181 | What a registered slot holds survives every run that leaves the slot alone, collections included, and keeps its contents unless the client stores into it |
| `Roots.UnregisterOne` | src/libinsomniac_gc/gc_core.c:74-97 | Unregistering takes one registration of the slot away and leaves all others |
| `Roots.RunGuarded` | src/libinsomniac_gc/gc_core.c:43-59 | Over any run between a protect and the unprotect that pairs with it, nothing is collected, used or not |
| `Roots.GuardHolds` | src/libinsomniac_gc/gc_core.c:43-46 | A protect starts such a stretch on any heap |
| `Roots.UnguardExact` | src/libinsomniac_gc/gc_core.c:49-59 | The last unprotect collects everything nobody uses if no cell is dead; every other one only counts |
| `Roots.DePermCollected` | src/libinsomniac_gc/gc_core.c:138-169 | An object that has lost its permanence and that nobody uses is taken back by the next collection |
| `Mutator.PermanentCycleHangs` | src/libinsomniac_gc/gc_sweep.c:4-12 | Two allowed commands from a new heap, a permanent allocation and a store, make a heap on which no collection ends |
| `Collector.Collector.MarkGraph` | src/libinsomniac_gc/gc_sweep.c:15-77 | Recursive marking in place gives the marks of the marking function |
| `Collector.Collector.MarkEach` | src/libinsomniac_gc/gc_sweep.c:80-101 | The loops over lists, roots, fields and arrays |
| `Collector.Collector.SetNextMark` | src/libinsomniac_gc/gc_internals.c:118-122 | Switches between the two colours |
| `Collector.Collector.SweepActive` | src/libinsomniac_gc/gc_sweep.c:104-147 | The relinking loop over the active list |
| `Collector.Collector.SweepAll` | src/libinsomniac_gc/gc_sweep.c:150-181 | sweep, with its possible pre-allocation |
| `Collector.Collector.InternalAlloc` | src/libinsomniac_gc/gc_internals.c:38-94 | Sweeps if a cell is asked for and none is dead, recycles or allocates, and links the new object at the head of its list |
| `Collector.Collector.Unguard` | src/libinsomniac_gc/gc_core.c:49-59 | Lowers the protect count and sweeps when it reaches zero with nothing to recycle |
| `Collector.Collector.PreAllocate` | src/libinsomniac_gc/gc_internals.c:126-137 | Protects, allocates 1000 cells, unprotects and sweeps |
| `Collector.Collector.UnregisterRoot` | src/libinsomniac_gc/gc_core.c:74-97 | Removes the first registration of the root and no other |
| `Collector.Collector.DePermanent` | src/libinsomniac_gc/gc_core.c:138-169 | Moves a permanent object to the head of the active list with the current mark; other objects are left alone |
| `Collector.Collector.GcSweep` | src/libinsomniac_gc/gc_core.c:191-195 | A collection on a heap without permanent cycles keeps used objects and, when not protected, collects exactly the others |
| `Collector.Collector.GcAlloc` | src/libinsomniac_gc/gc_core.c:100-135 | The object stored through the result pointer was not in use; it is the first dead cell, after a full collection if none was dead and nothing protects, or a fresh address |
| `Hashing.HashString` | src/libinsomniac_hash/hash_string_functions.c:6-16 | The 32-bit hash of the bytes before the terminator |
| `Hashing.HashIsDigits` | src/libinsomniac_hash/hash_string_functions.c:6-16 | The hash is the number with the bytes as digits to the base 65599, in 32 bits |
| `Hashing.HashStringCmp` | src/libinsomniac_hash/hash_string_functions.c:19-29 | Byte order of the two strings, EQ exactly for equal strings |
| `Hashing.CompareFirst` | src/libinsomniac_hash/hash_string_functions.c:19-29 | A string comes before another exactly if it is less at the first byte where they differ, or is a beginning of it |
| `Buckets.InsertContents` | src/libinsomniac_hash/hash_core.c:141-155 | A new entry at the head of its chain adds its key to the map |
| `Buckets.DeleteContents` | src/libinsomniac_hash/hash_core.c:116-133 | Unlinking an entry removes its key from the map and no other |
| `Buckets.InItsBucket` | src/libinsomniac_hash/hash_core.c:99-159 | A key is bound if and only if it is in the chain its hash selects, and it is in no other chain |
| `HashTables.HashTable.constructor` | src/libinsomniac_hash/hash_core.c:11-39 | A new table is empty and has four buckets |
| `HashTables.HashTable.Cow` | src/libinsomniac_hash/hash_core.c:42-52 | A copy has the contents of its source and shares its buckets |
| `HashTables.HashTable.HashFind` | src/libinsomniac_hash/hash_core.c:99-159 | Finds, creates or deletes; terminates through the re-entry of a copy-on-write rebuild, keeps the bucket index valid and leaves shared buckets untouched |
| `HashTables.HashTable.HashResize` | src/libinsomniac_hash/hash_core.c:162-195 | A new array with the same contents and an exact entry count; the old array is untouched; the loops move each entry once |
| `HashTables.HashTable.HashSet` | src/libinsomniac_hash/hash_core.c:55-70 | The map gets the binding; if the count is then above 0.9 of the buckets, and only then, the table is resized, to the one size n with 3(n-1) <= 5 count < 3n; the load ends at most 0.9; and the turns of the resize loops come to at most three per new key |
| `HashTables.HashTable.HashGet` | src/libinsomniac_hash/hash_core.c:79-96 | Answers from the map and changes nothing |
| `HashTables.HashTable.HashErase` | src/libinsomniac_hash/hash_core.c:73-76 | The map loses the key; the entry count exceeds the number of keys by the keys erased since the last rebuild, and equals it if and only if there is none |
| `HashTables.PaidFor` | src/libinsomniac_hash/hash_core.c:65-69 | A load resize moves at most three entries per insert since the last one, leaves the books balanced, and takes floor(count / 0.6) + 1 buckets |
| `HashTables.WriteCopy` | src/libinsomniac_hash/hash_core.c:42-52 | The first write to a copy gives the source's contents plus that write and leaves the source untouched |
| `HashTables.WriteSource` | src/libinsomniac_hash/hash_core.c:42-52 | A write to any table leaves another table alone if and only if the written one is itself an unwritten copy, or they share no array, or the write binds the key to what it has; otherwise the other table shows it |
| `HashTables.EraseSource` | src/libinsomniac_hash/hash_core.c:73-76 | The same for an erase: it shows in the other table exactly when the array is shared, the written one is no copy and the key is present |
| `HashTables.CopyChanged` | src/libinsomniac_hash/hash_core.c:42-70 | A copy of an empty table that finds no key finds one after a single write to its source |
| `HashTables.CountLeft` | src/libinsomniac_hash/hash_core.c:55-76 | A key set and erased leaves an empty map with one entry counted |
| `HashTables.RunAll` | src/libinsomniac_hash/hash_core.c:55-195 | Any run of sets, gets and erases answers like a finite map and ends with it, with load at most 0.9 and at most three moves per new key |
| `Buffers.Buffer.constructor` | src/libinsomniac_buffer/buffer_core.c:21-51 | A new buffer has one block and no contents |
| `Buffers.Buffer.Write` | src/libinsomniac_buffer/buffer_core.c:80-122 | The contents grow by exactly the bytes written; the chain keeps used/4096 + 1 blocks and ends at tail |
| `Buffers.Buffer.Push` | src/libinsomniac_buffer/buffer_core.c:66-77 | One new block at the end of the chain |
| `Buffers.Buffer.Reset` | src/libinsomniac_buffer/buffer_core.c:54-63 | No contents, and only the last block is kept |
| `Buffers.Buffer.Read` | src/libinsomniac_buffer/buffer_core.c:125-155 | Copies the first bytes of the chain; reading `used` bytes gives the contents |
| `Buffers.Buffer.Append` | src/libinsomniac_buffer/buffer_core.c:158-192 | Appends the first bytes of a distinct buffer, all of its contents when no length is given, and leaves it unchanged |
| `Buffers.Buffer.AppendSelf` | src/libinsomniac_buffer/buffer_core.c:158-192 | Appending a buffer to itself doubles its contents, or repeats their first bytes when a length is given |
| `Buffers.RunAll` | src/libinsomniac_buffer/buffer_core.c:54-192 | After any run of writes, resets, copies and self-appends a read gives exactly the bytes of the run, from used/4096 + 1 blocks |
| `Utf8.EncodeChar` | src/libinsomniac_vm/vm_utf8.c:75-142 | Writes the encoding of a character and zeros after it |
| `Utf8.EncodedLength` | src/libinsomniac_vm/vm_utf8.c:75-142 | A character below 2^31 takes n bytes if and only if n bytes have room for it and fewer do not |
| `Utf8.EncodedBytes` | src/libinsomniac_vm/vm_utf8.c:75-142 | One byte stands for itself; otherwise the head has as many leading ones as there are bytes and all other bytes start with 10 |
| `Utf8.Shortest` | src/libinsomniac_vm/vm_utf8.c:30-142 | No whole byte sequence is read as a character in fewer bytes than its encoding has |
| `Utf8.HeadCountBytes` | src/libinsomniac_vm/vm_utf8.c:13-27 | Counts the leading ones of a head byte, at least one and at most six |
| `Utf8.ReadCharAt` | src/libinsomniac_vm/vm_utf8.c:30-72 | Reads one character and as many bytes as its head announces |
| `Utf8.ReadsOn` | src/libinsomniac_vm/vm_utf8.c:30-72 | Reading takes at least one byte and stays within the input; it gives a negative result exactly for a stray continuation byte, taken alone |
| `Utf8.CharRoundTrip` | src/libinsomniac_vm/vm_utf8.c:30-142 | Every character below 2^31 is read back, whatever follows, and takes exactly the bytes its head announces |
| `Utf8.StreamRoundTrip` | src/libinsomniac_vm/vm_utf8.c:30-142 | Every sequence of characters below 2^31 is read back from its concatenated encodings |
| `VectorCopy.CopyElements` | lib/vectors/core.scm:23-39 | The target range becomes the old source range and the rest of the target is unchanged, also when both vectors are the same and the ranges overlap |
| `VectorCopy.DirectionMatters` | lib/vectors/core.scm:35-39 | Copying an overlapping range the other way round is right if and only if the source repeats itself at the distance of the two ranges |

## Left out

- Raw assembly nodes (STREAM_ASM, STREAM_OP), `op_asm`, file and descriptor work and dlopen: arbitrary code or the outside world.
- Instructions for vectors, records, set-car!/set-cdr!, `eq`, type tests other than `null?`, make-symbol, set-exit and output: `Machine` has the instructions the compiler emits and the call/cc routine uses, and the environment and exception instructions.
- Pairs are values in the machine, so sharing of pairs and their mutation are not captured; closures and binding tables are shared objects.
- Correct.RunStream: this and the theorems built on it relate a value of the evaluator to one on the stack; the global table starts empty, because no value of the evaluator stands for the assembly procedures of the preamble (`car`, `cdr`, `set!`), so the theorems about compiled programs exclude a table that binds them.
- Adequacy.TailAdequate: is about a caller whose return goes to the end of the code, where being handed a value is the end of the run; the value returned to any other caller is `TailCalls.TailEquivalence`.
- Adequacy.ProgramEnds: asks that quoted data hold literals and quotations only, as the grammar builds them; which exception an erroneous program raises is not stated.
- Arithmetic overflow and division by zero are an undefined outcome of `Machine.Arith`.
- The code, length and debug fields of an environment record: one unit of code is running, and `.file` lines and comments are dropped from it.
- Frames.CapturedImmutable: is about records; binding tables stay mutable, as they are in the original.
- StackSafety.CompiledRunsSafely: is about a compiled program on its own, without the preamble; such a program has no exception handler, so an exception ends it.
- Trees are values, so the in-place linking of stream_append and stream_concat (next, prev and tail pointers) is not captured; `Syntax.Concat` is what it computes.
- Grammar.ArgumentOrder: is about arguments that are single nodes; a `begin` used as an argument is spliced into the list by the grammar.
- StackDiscipline.StreamFlow: asks that quoted data hold literals and quotations only, as the grammar builds them.
- `gen_label` text: a generated label is its number, and raw code that spells the same name is left out with raw assembly.
- Byte layout of collected objects, type definitions and offsets: an object is a mark, a size and a sequence of pointers; the count of live allocations is not modelled.
- The collector and the machine are separate models: the machine runs on a heap that is not collected.
- Collector.Collector.SweepAll: this and the methods around it take the bounds on nesting and recursion as ghost arguments; `GcSweep` and `GcAlloc` supply them.
- `hash_next`, hash_info, pointer-keyed tables and the entry iterator.
- Chains of a hash table are sequences, so identity of entries is not captured; no two arrays ever share one, because a resize makes new entries.
- Buffers.Buffer.Append: is about two buffers; `AppendSelf` is the case of one.
- Buffers.Buffer.AppendSelf: does not model an explicit length beyond the contents, where the loop reads what it has just written and bytes never initialised.
- Utf8.ReadCharAt: treats a plain char as signed for a stray continuation byte, as on common platforms; masks and shifts are written as remainders and quotients.
- VectorCopy.CopyElements: asks for a range inside both vectors; index errors are left out with the vector instructions.
- The rest of the Scheme library, parsing, text formatting, printing and debug ranges.
