/** Client methods that drive frames only through their contracts:
    gas exhaustion, replayed gas calls, container sharing, log batches,
    revert and halt. */
module Scenarios {
  import opened Common
  import GasMeter
  import opened Call

  /** A root frame with 21000 gas can spend exactly 21000; one more unit
      then fails with OutOfGas and the meter stays at zero. */
  method SpendAllThenOne(code: seq<Byte>, callData: CallData)
    returns (first: Outcome, second: Outcome, remaining: int, used: int)
    ensures first == Pass && second == Fail(OutOfGas)
    ensures remaining == 0 && used == 21000
  {
    var frame := new CallFrame(code, 21000, callData);
    first := frame.ConsumeGas(21000);
    second := frame.ConsumeGas(1);
    remaining, used := frame.gasRemaining, frame.gasUsed;
  }

  /** Refunding what a successful consume took restores the frame's meter;
      a failed consume left it untouched in the first place. */
  method RefundUndoesConsume(frame: CallFrame, amount: int) returns (outcome: Outcome)
    modifies frame`gasRemaining, frame`gasUsed
    ensures outcome.Pass? <==> amount <= old(frame.gasRemaining)
    ensures frame.gasRemaining == old(frame.gasRemaining) && frame.gasUsed == old(frame.gasUsed)
  {
    outcome := frame.ConsumeGas(amount);
    if outcome.Pass? {
      GasMeter.ConsumeThenRefund(old(frame.Meter()), amount);
      frame.RefundGas(amount);
    }
  }

  /** Issuing `ops` on a frame, one consumeGas or refundGas call each and a
      failed consume ignored, moves its meter as `GasMeter.Run` says; so the
      lemmas about `Run` hold of a frame's gas fields too. */
  method ReplayGasOps(frame: CallFrame, ops: seq<GasMeter.GasOp>)
    modifies frame`gasRemaining, frame`gasUsed
    ensures frame.Meter() == GasMeter.Run(old(frame.Meter()), ops)
    ensures GasMeter.Total(frame.Meter()) == GasMeter.Total(old(frame.Meter()))
  {
    ghost var m0 := frame.Meter();
    var i := 0;
    while i < |ops|
      invariant 0 <= i <= |ops|
      invariant GasMeter.Run(m0, ops) == GasMeter.Run(frame.Meter(), ops[i..])
    {
      assert ops[i..][1..] == ops[i + 1..];
      match ops[i] {
        case ConsumeOp(a) =>
          var _ := frame.ConsumeGas(a);
        case RefundOp(a) =>
          frame.RefundGas(a);
      }
      i := i + 1;
    }
    GasMeter.RunConserves(m0, ops);
  }

  /** An internal frame built from a context whose current frame is a root
      frame uses that root frame's stack, memory and storage; a second root
      frame gets containers of its own. */
  method InternalFrameSharesContainers(code: seq<Byte>, callData: CallData, jump: int, gasLimit: int)
    returns (root: CallFrame, child: CallFrame, other: CallFrame)
    ensures child.stack == root.stack && child.memory == root.memory && child.storage == root.storage
    ensures child.callType == CallType.Internal && child.pc == jump && child.gasRemaining == gasLimit
    ensures child.contractAddress == root.contractAddress && child.code == root.code
    ensures other.stack != root.stack && other.memory != root.memory && other.storage != root.storage
  {
    root := new CallFrame(code, 100, callData);
    var context := new EVMContext(root, callData.origin, root.code, root.stack, root.memory, root.storage);
    child := new CallFrame.InternalCall(context, jump, gasLimit);
    other := new CallFrame(code, 100, callData);
  }

  /** A null batch and an empty batch leave the log list unchanged. */
  method NullAndEmptyBatches(code: seq<Byte>, callData: CallData, entry: LogEntry)
    returns (logs: seq<LogEntry>)
    ensures logs == [entry]
  {
    var frame := new CallFrame(code, 0, callData);
    frame.AddLog(entry);
    frame.AddLogs(None);
    frame.AddLogs(Some([]));
    logs := frame.logs;
  }

  /** Marking a revert and halting twice: the reason reads back exactly,
      the frame has stopped, and `success` keeps its initial false. */
  method RevertAndHalt(code: seq<Byte>, callData: CallData, reason: string)
    returns (reverted: bool, success: bool, running: bool, got: Option<string>)
    ensures reverted && !success && !running && got == Some(reason)
  {
    var frame := new CallFrame(code, 0, callData);
    frame.SetReverted(true, Some(reason));
    frame.Halt();
    frame.Halt();
    reverted, success, running, got := frame.reverted, frame.success, frame.running, frame.revertReason;
  }
}
