/** The call frame, the unit of execution of the interpreter, and the
    objects it holds by reference. */
module Call {
  import opened Common
  import GasMeter
  import LogList

  /** The operand stack. Its contents and depth limit belong to another
      component; only its identity matters here. */
  class Stack {
    constructor () { }
  }

  /** Byte-addressable scratch memory, known here only by identity. */
  class Memory {
    constructor () { }
  }

  /** Persistent key/value storage, known here only by identity. */
  class Storage {
    constructor () { }
  }

  /** A request received by the return buffer. */
  datatype BufferRequest =
    | ReturnDataSet(data: seq<Byte>, offset: int, size: int)
    | RevertedSet(reason: Option<string>)

  /** The slot where a finished callee stages its outcome for its caller.
      How the slot resolves several requests is not part of this core, so the
      buffer is seen as the sequence of requests it has received. */
  class CallReturnDataBuffer {
    var requests: seq<BufferRequest>

    constructor ()
      ensures requests == []
    {
      requests := [];
    }

    method SetReturnData(data: seq<Byte>, offset: int, size: int)
      modifies this
      ensures requests == old(requests) + [ReturnDataSet(data, offset, size)]
    {
      requests := requests + [ReturnDataSet(data, offset, size)];
    }

    method SetReverted(reason: Option<string>)
      modifies this
      ensures requests == old(requests) + [RevertedSet(reason)]
    {
      requests := requests + [RevertedSet(reason)];
    }
  }

  /** The parent execution context, seen through the accessors an internal
      frame reads: each field holds what the accessor of the same name
      returns at the moment of construction. */
  class EVMContext {
    var currentFrame: CallFrame
    var txOrigin: Address
    var currentCode: seq<Byte>
    var currentStack: Stack
    var currentMemory: Memory
    var storage: Storage

    constructor (currentFrame: CallFrame, txOrigin: Address, currentCode: seq<Byte>,
                 currentStack: Stack, currentMemory: Memory, storage: Storage)
      ensures this.currentFrame == currentFrame && this.txOrigin == txOrigin
      ensures this.currentCode == currentCode && this.currentStack == currentStack
      ensures this.currentMemory == currentMemory && this.storage == storage
    {
      this.currentFrame := currentFrame;
      this.txOrigin := txOrigin;
      this.currentCode := currentCode;
      this.currentStack := currentStack;
      this.currentMemory := currentMemory;
      this.storage := storage;
    }
  }

  class CallFrame {
    const stack: Stack
    var code: seq<Byte>
    var creationMode: bool

    // call data
    var contractAddress: Address
    var caller: Address
    var origin: Address
    var value: int
    var inputData: seq<Byte>
    var inputOffset: int
    var inputSize: int
    var callType: CallType
    var isStatic: bool
    var memory: Memory
    var storage: Storage

    // execution state
    var pc: int
    var gasRemaining: int
    var gasUsed: int
    var running: bool

    // call result
    var returnData: seq<Byte>
    var returnOffset: int
    var returnSize: int
    var reverted: bool
    var revertReason: Option<string>
    var success: bool

    const callReturnBuffer: CallReturnDataBuffer
    var logs: seq<LogEntry>

    /** The gas fields as a meter value. */
    function Meter(): GasMeter.Meter
      reads this
    {
      GasMeter.Meter(gasRemaining, gasUsed)
    }

    /** The root frame of a call: metadata from `callData`, freshly
        allocated stack, memory and storage, nothing executed yet. */
    constructor (bytecode: seq<Byte>, initialGas: int, callData: CallData)
      ensures contractAddress == callData.contractAddress && caller == callData.caller
      ensures origin == callData.origin && value == callData.value
      ensures inputData == callData.inputData
      ensures inputOffset == callData.inputOffset && inputSize == callData.inputSize
      ensures callType == callData.callType && isStatic == callData.isStatic
      ensures code == bytecode && !creationMode
      ensures fresh(stack) && fresh(memory) && fresh(storage)
      ensures stack as object != memory && stack as object != storage && memory as object != storage
      ensures pc == 0 && gasRemaining == initialGas && gasUsed == 0
      ensures running && !success && !reverted && revertReason == None
      ensures returnData == [] && returnOffset == 0 && returnSize == 0
      ensures fresh(callReturnBuffer) && callReturnBuffer.requests == []
      ensures logs == []
    {
      contractAddress := callData.contractAddress;
      caller := callData.caller;
      origin := callData.origin;
      value := callData.value;
      code := bytecode;
      inputData := callData.inputData;
      inputOffset := callData.inputOffset;
      inputSize := callData.inputSize;
      gasRemaining := initialGas;
      callType := callData.callType;
      isStatic := callData.isStatic;
      stack := new Stack();
      memory := new Memory();
      storage := new Storage();
      pc := 0;
      gasUsed := 0;
      running := true;
      success := false;
      reverted := false;
      returnData := [];
      returnOffset := 0;
      returnSize := 0;
      revertReason := None;
      creationMode := false;
      callReturnBuffer := new CallReturnDataBuffer();
      logs := [];
    }

    /** A frame for an internal (jump-based) call: it inherits the parent's
        identity and code, starts at `jumpAddress` with `gasLimit` gas, and
        holds the very stack, memory and storage the parent context holds. */
    constructor InternalCall(parentContext: EVMContext, jumpAddress: int, gasLimit: int)
      ensures contractAddress == parentContext.currentFrame.contractAddress
      ensures caller == parentContext.currentFrame.caller
      ensures origin == parentContext.txOrigin
      ensures value == parentContext.currentFrame.value
      ensures code == parentContext.currentCode && !creationMode
      ensures inputData == [] && inputOffset == 0 && inputSize == 0
      ensures callType == CallType.Internal && !isStatic
      ensures stack == parentContext.currentStack
      ensures memory == parentContext.currentMemory
      ensures storage == parentContext.storage
      ensures pc == jumpAddress && gasRemaining == gasLimit && gasUsed == 0
      ensures running && !success && !reverted && revertReason == None
      ensures returnData == [] && returnOffset == 0 && returnSize == 0
      ensures fresh(callReturnBuffer) && callReturnBuffer.requests == []
      ensures logs == []
    {
      contractAddress := parentContext.currentFrame.contractAddress;
      caller := parentContext.currentFrame.caller;
      origin := parentContext.txOrigin;
      value := parentContext.currentFrame.value;
      code := parentContext.currentCode;
      inputData := [];
      inputOffset := 0;
      inputSize := 0;
      gasRemaining := gasLimit;
      gasUsed := 0;
      callType := CallType.Internal;
      isStatic := false;
      stack := parentContext.currentStack;
      memory := parentContext.currentMemory;
      storage := parentContext.storage;
      pc := jumpAddress;
      running := true;
      success := false;
      reverted := false;
      returnData := [];
      returnOffset := 0;
      returnSize := 0;
      revertReason := None;
      creationMode := false;
      callReturnBuffer := new CallReturnDataBuffer();
      logs := [];
    }

    /** Debits `amount` completely, or fails with OutOfGas and changes nothing. */
    method ConsumeGas(amount: int) returns (outcome: Outcome)
      modifies this`gasRemaining, this`gasUsed
      ensures outcome.Pass? <==> amount <= old(gasRemaining)
      ensures match GasMeter.Consume(old(Meter()), amount)
        case Ok(m) => outcome == Pass && Meter() == m
        case Err(e) => outcome == Fail(e) && Meter() == old(Meter())
    {
      if gasRemaining < amount {
        return Fail(OutOfGas);
      }
      gasRemaining := gasRemaining - amount;
      gasUsed := gasUsed + amount;
      outcome := Pass;
    }

    /** Credits `amount` back; no cap is applied here. */
    method RefundGas(amount: int)
      modifies this`gasRemaining, this`gasUsed
      ensures Meter() == GasMeter.Refund(old(Meter()), amount)
    {
      gasRemaining := gasRemaining + amount;
      gasUsed := gasUsed - amount;
    }

    /** Stops the frame; calling it again changes nothing more. */
    method Halt()
      modifies this`running
      ensures !running
    {
      running := false;
    }

    method SetReturnData(data: seq<Byte>, offset: int, size: int)
      modifies this`returnData, this`returnOffset, this`returnSize
      ensures returnData == data && returnOffset == offset && returnSize == size
    {
      returnOffset := offset;
      returnSize := size;
      returnData := data;
    }

    /** Records the revert flag and reason; `success` and `running` stay. */
    method SetReverted(reverted: bool, reason: Option<string>)
      modifies this`reverted, this`revertReason
      ensures this.reverted == reverted && revertReason == reason
    {
      this.reverted := reverted;
      revertReason := reason;
    }

    /** Whether `pc` is below the code length. A negative `pc` counts as
        having more code, although it does not index the code. */
    predicate HasMoreCode(): (r: bool)
      reads this
      ensures 0 <= pc ==> (r <==> pc < |code|)
      ensures pc < 0 ==> r
    {
      pc < |code|
    }

    /** The opcode at `pc`, decoded by `fromByte`; the sentinel `Unknown`
        once the code is exhausted. A negative `pc` still counts as having
        more code, and indexing the code with it fails. */
    function GetCurrentOp(fromByte: Byte -> Opcode): (op: Result<Opcode>)
      reads this
      ensures !HasMoreCode() ==> op == Ok(Unknown)
      ensures HasMoreCode() && 0 <= pc ==> op == Ok(fromByte(code[pc]))
      ensures op.Err? <==> pc < 0
    {
      if !HasMoreCode() then Ok(Unknown)
      else if pc < 0 then Err(ArrayIndexOutOfBounds)
      else Ok(fromByte(code[pc]))
    }

    method AdvancePC()
      modifies this`pc
      ensures pc == old(pc) + 1
    {
      pc := pc + 1;
    }

    /** The `advancePC(int count)` overload. */
    method AdvancePCBy(count: int)
      modifies this`pc
      ensures pc == old(pc) + count
    {
      pc := pc + count;
    }

    method UpdatePC(newPC: int)
      modifies this`pc
      ensures pc == newPC
    {
      pc := newPC;
    }

    method AddLog(logEntry: LogEntry)
      modifies this`logs
      ensures logs == old(logs) + [logEntry]
    {
      logs := logs + [logEntry];
    }

    /** Appends a batch; a null or empty batch leaves the list as it was. */
    method AddLogs(entries: Option<seq<LogEntry>>)
      modifies this`logs
      ensures logs == old(logs) + LogList.Batch(entries)
      ensures entries == None || entries == Some([]) ==> logs == old(logs)
      ensures logs == LogList.AppendEach(old(logs), LogList.Batch(entries))
    {
      if entries.Some? && |entries.value| != 0 {
        logs := logs + entries.value;
      }
      LogList.AppendEachIsConcat(old(logs), LogList.Batch(entries));
    }

    /** Stages this frame's return payload in the return buffer. */
    method CacheReturn(returnOffset: int, returnSize: int, returnData: seq<Byte>)
      modifies callReturnBuffer
      ensures callReturnBuffer.requests
           == old(callReturnBuffer.requests) + [ReturnDataSet(returnData, returnOffset, returnSize)]
    {
      callReturnBuffer.SetReturnData(returnData, returnOffset, returnSize);
    }

    /** Stages this frame's revert reason in the return buffer. */
    method CacheReverted(revertReason: Option<string>)
      modifies callReturnBuffer
      ensures callReturnBuffer.requests == old(callReturnBuffer.requests) + [RevertedSet(revertReason)]
    {
      callReturnBuffer.SetReverted(revertReason);
    }

    /** One-way: no method of the frame may clear the flag again. */
    method EnableCreationMode()
      modifies this`creationMode
      ensures creationMode
    {
      creationMode := true;
    }

    method SetByteCode(code: seq<Byte>)
      modifies this`code
      ensures this.code == code
    {
      this.code := code;
    }
  }
}
