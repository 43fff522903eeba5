# Call frame of a stack-based bytecode interpreter

This project models `CallFrame`, the unit of execution of a small EVM-style
interpreter. A frame holds a program counter into its bytecode, a gas meter
(`gasRemaining`, `gasUsed`), lifecycle and result flags (`running`,
`reverted`/`revertReason`, `success`), its return payload and the caller-memory
region it is destined for, an append-only log list, a return buffer where it
stages its outcome for its caller, and references to an operand stack, a memory
and a storage.

A root frame gets a fresh stack, memory and storage. An internal (jump-based)
call frame takes the parent context's current stack, current memory and storage
by reference, so both frames see the same objects.

Layout:

- `common.dfy` (module `Common`): Java `byte`, addresses and log entries as
  opaque types, nullable references as `Option`, the error taxonomy (`OutOfGas`,
  and the array-index failure of `getCurrentOp`), `Opcode` with its `Unknown`
  sentinel, `CallType` and the `CallData` request.
- `gas.dfy` (module `GasMeter`): the meter as a value. `Consume` and `Refund`
  specify `consumeGas` and `refundGas`. `Run` replays any sequence of those
  calls, and the lemmas about it state conservation and non-negativity.
- `logs.dfy` (module `LogList`): repeated `addLog` as a function, and the
  lemma that a batch append equals appending its entries one at a time.
- `call_frame.dfy` (module `Call`): the classes. `CallFrame` has the source's
  fields and methods, and each method's `modifies` clause names the fields it
  may change. Its two pure reads are `HasMoreCode` (is `pc` below the code
  length) and `GetCurrentOp` (the decoded byte at `pc`, or the `Unknown`
  sentinel). `Stack`, `Memory` and `Storage` are opaque classes, known only by
  identity. `EVMContext` holds what the parent context's accessors return.
  `CallReturnDataBuffer` records the requests it has received.
- `scenarios.dfy` (module `Scenarios`): client methods that use frames only
  through their contracts: gas exhaustion, consume then refund, a replay of
  any sequence of gas calls on a frame (which carries the `Run` lemmas over to
  the frame's fields), container sharing, null and empty log batches, and revert plus a repeated halt.

Foreign code becomes inputs. `Opcode.fromByte` is the `fromByte` argument of
`GetCurrentOp`. The `EVMContext` accessors are the fields of `Call.EVMContext`.
`EVMComponentFactory` is a plain `new` of the opaque container classes.

The code does not enforce the following, and neither does the model:

- A frame is not frozen after `halt()`: gas and pc may still change.
- `success` and `reverted` are not kept mutually exclusive.
- `refundGas` is not capped, and a negative amount is accepted.
- `gasRemaining` is not kept non-negative by the frame itself: `initialGas` and
  `gasLimit` may be negative, and so may a refund. The lemmas state the
  conditions under which the meter stays non-negative.
- A negative `pc` is not rejected. `hasMoreCode()` holds for it, and
  `getCurrentOp()` then indexes the code with it, which throws in Java.
  `GetCurrentOp` returns `Err(ArrayIndexOutOfBounds)` in that case. It does
  not return `Unknown`.

## Model

| member | source | states |
|---|---|---|
| GasMeter.Consume | src/main/java/com/frizo/lab/sevm/context/call/CallFrame.java:140-148 | fails with OutOfGas exactly when the amount exceeds what remains; on success remaining+used is unchanged, used grows by the amount, and remaining is non-negative (even when it started negative) |
| GasMeter.Refund | src/main/java/com/frizo/lab/sevm/context/call/CallFrame.java:150-155 | remaining+used is unchanged and remaining grows by the amount; a non-negative refund keeps remaining non-negative |
| GasMeter.ConsumeThenRefund | src/main/java/com/frizo/lab/sevm/context/call/CallFrame.java:140-155 | refunding what a successful consume took restores both fields exactly |
| GasMeter.ConsumeEverything | src/main/java/com/frizo/lab/sevm/context/call/CallFrame.java:141-148 | the bound is inclusive: consuming all remaining gas succeeds and leaves 0 |
| GasMeter.RunConserves | src/main/java/com/frizo/lab/sevm/context/call/CallFrame.java:140-155 | after any sequence of consumes (failed or not) and refunds, remaining+used equals its initial value |
| GasMeter.RunKeepsNonNegative | src/main/java/com/frizo/lab/sevm/context/call/CallFrame.java:140-155 | starting non-negative, remaining never goes below 0 under any consumes and any non-negative refunds |
| LogList.AppendEachIsConcat | src/main/java/com/frizo/lab/sevm/context/call/CallFrame.java:196-204 | appending entries one at a time, as addLog does, gives the old list followed by the batch, as addLogs does |
| Call.CallFrame.constructor | src/main/java/com/frizo/lab/sevm/context/call/CallFrame.java:75-98 | copies the call data and the code; stack, memory and storage are freshly allocated and distinct; pc 0, gasUsed 0, gasRemaining the initial gas; running, not success, not reverted, no reason; empty return data, no log, an empty return buffer |
| Call.CallFrame.InternalCall | src/main/java/com/frizo/lab/sevm/context/call/CallFrame.java:106-132 | contract, caller and value from the parent's current frame, origin from the transaction, code from the context; call type INTERNAL, not static, empty input; stack, memory and storage are the same references as the context's current stack, current memory and storage; pc the jump address, gasRemaining the limit, gasUsed 0, running |
| Call.CallFrame.ConsumeGas | src/main/java/com/frizo/lab/sevm/context/call/CallFrame.java:140-148 | passes iff the amount is at most what remains; the new meter is GasMeter.Consume of the old one, and on failure both gas fields are unchanged; no other field may change |
| Call.CallFrame.RefundGas | src/main/java/com/frizo/lab/sevm/context/call/CallFrame.java:150-155 | the new meter is GasMeter.Refund of the old one; only the gas fields may change |
| Call.CallFrame.Halt | src/main/java/com/frizo/lab/sevm/context/call/CallFrame.java:157-160 | running becomes false and no other field may change, so a second call changes nothing |
| Call.CallFrame.SetReturnData | src/main/java/com/frizo/lab/sevm/context/call/CallFrame.java:162-166 | sets exactly the return data, offset and size |
| Call.CallFrame.SetReverted | src/main/java/com/frizo/lab/sevm/context/call/CallFrame.java:168-171 | sets exactly the reverted flag and the reason; success and running may not change |
| Call.CallFrame.HasMoreCode | src/main/java/com/frizo/lab/sevm/context/call/CallFrame.java:173-175 | for a non-negative pc, holds iff pc is below the code length; always holds for a negative pc |
| Call.CallFrame.GetCurrentOp | src/main/java/com/frizo/lab/sevm/context/call/CallFrame.java:177-182 | Unknown when pc is not below the code length; fromByte of the byte at pc for a valid pc; an index failure exactly when pc is negative |
| Call.CallFrame.AdvancePC | src/main/java/com/frizo/lab/sevm/context/call/CallFrame.java:184-186 | pc grows by one and nothing else may change |
| Call.CallFrame.AdvancePCBy | src/main/java/com/frizo/lab/sevm/context/call/CallFrame.java:188-190 | pc grows by the count and nothing else may change |
| Call.CallFrame.UpdatePC | src/main/java/com/frizo/lab/sevm/context/call/CallFrame.java:192-194 | pc becomes the new value and nothing else may change |
| Call.CallFrame.AddLog | src/main/java/com/frizo/lab/sevm/context/call/CallFrame.java:196-198 | the entry is appended at the end of the log list |
| Call.CallFrame.AddLogs | src/main/java/com/frizo/lab/sevm/context/call/CallFrame.java:200-204 | the batch is appended in order; a null or empty batch leaves the list unchanged; the result equals one addLog per entry |
| Call.CallFrame.CacheReturn | src/main/java/com/frizo/lab/sevm/context/call/CallFrame.java:206-208 | forwards data, offset and size, reordered as the buffer takes them, as one request to the return buffer |
| Call.CallFrame.CacheReverted | src/main/java/com/frizo/lab/sevm/context/call/CallFrame.java:210-212 | forwards the reason as one request to the return buffer |
| Call.CallFrame.EnableCreationMode | src/main/java/com/frizo/lab/sevm/context/call/CallFrame.java:214-216 | creation mode becomes true; no method of the frame may write it otherwise |
| Call.CallFrame.SetByteCode | src/main/java/com/frizo/lab/sevm/context/call/CallFrame.java:218-220 | replaces the code and nothing else |
| Scenarios.SpendAllThenOne | src/main/java/com/frizo/lab/sevm/context/call/CallFrame.java:140-148 | with 21000 gas, consuming 21000 passes, then consuming 1 fails with OutOfGas, leaving remaining 0 and used 21000 |
| Scenarios.RefundUndoesConsume | src/main/java/com/frizo/lab/sevm/context/call/CallFrame.java:140-155 | consume then refund of the same amount on a frame leaves both gas fields as they were |
| Scenarios.ReplayGasOps | src/main/java/com/frizo/lab/sevm/context/call/CallFrame.java:140-155 | issuing any sequence of consumeGas and refundGas calls on a frame, with failed consumes ignored, moves its meter exactly as GasMeter.Run does, so remaining+used stays constant |
| Scenarios.InternalFrameSharesContainers | src/main/java/com/frizo/lab/sevm/context/call/CallFrame.java:75-132 | an internal frame built over a root frame's context shares that frame's stack, memory and storage; another root frame shares none of them |
| Scenarios.NullAndEmptyBatches | src/main/java/com/frizo/lab/sevm/context/call/CallFrame.java:196-204 | after one addLog, a null batch and an empty batch leave exactly that entry |
| Scenarios.RevertAndHalt | src/main/java/com/frizo/lab/sevm/context/call/CallFrame.java:157-171 | after setReverted(true, r) and two halts the frame is reverted, not running, not successful, with reason r |

## Left out

- `frameId`, the log statements and `toString`: diagnostics with no effect on behaviour.
- Java `long` and `int` overflow: gas, pc, value and offsets are unbounded integers, so the wrap-around of `gasUsed -= amount` or `pc += count` is not modelled.
- The internals of `Stack`, `Memory`, `Storage` and `EVMComponentFactory` are not part of this model. The containers are opaque objects, so pushes and pops through a shared stack are not modelled. Only identity is: sharing versus fresh allocation. `Constant.MAX_STACK_DEPTH` is not part of this model either.
- `CallReturnDataBuffer` is not part of this model. Its state is only the sequence of requests it received, so no last-write-wins or revert-supersedes-return behaviour is stated.
- `Opcode.fromByte` and the `EVMContext`/`TxnContext` accessors are foreign. They are a function argument and plain fields respectively.
- `CallType` is not part of this model. Its four constructors are the call kinds external, internal, static and create, and the source may have more.
- The bytecode, input data and return data are Java arrays. They are modelled as immutable byte sequences, so null arrays and aliasing of a shared `byte[]` (for example the parent's code) are not captured.
- Revert rollback and journaling of shared containers are not modelled, because the code does neither.
- The Lombok-generated getters and setters (for example `setMemory`, `setStorage`, `setSuccess`) are plain field reads and assignments, which Dafny clients already have.
- Field privacy: in Java `pc`, `gasRemaining`, `gasUsed`, `running` and `creationMode` are private with no setter, while Dafny fields can be assigned by any client. So "gas changes only through consumeGas/refundGas" and "nothing clears creationMode" are stated only of the frame's own methods, by their `modifies` clauses.
- Static-mode enforcement is not modelled, because it belongs to the dispatcher.
