/** Value types shared by the call-frame model: bytes, addresses, log
    entries, the error taxonomy, opcodes, call kinds and the call request. */
module Common {

  /** A Java `byte`: signed, 8 bits. */
  newtype Byte = b: int | -128 <= b < 128

  /** An account address; its representation is not part of this core. */
  type Address(==)

  /** An emitted event record; opaque beyond the order of collection. */
  type LogEntry(==)

  /** Stands for a Java reference that may be null. */
  datatype Option<T> = None | Some(value: T)

  /** The failures the frame can raise instead of returning normally. */
  datatype EvmError =
    | OutOfGas                 // EVMException.OutOfGasException
    | ArrayIndexOutOfBounds    // code[pc] with a negative pc

  /** A `void` operation that may throw. */
  datatype Outcome = Pass | Fail(error: EvmError)

  /** A value-returning operation that may throw. */
  datatype Result<T> = Ok(value: T) | Err(error: EvmError)

  /** What the dispatcher executes; `Unknown` is the sentinel returned past
      the end of the code. The instruction table itself is not modelled. */
  datatype Opcode = Unknown | Instruction(mnemonic: string)

  datatype CallType = External | Internal | Static | Create

  /** The immutable description of a call request that seeds a root frame. */
  datatype CallData = CallData(
    contractAddress: Address,
    caller: Address,
    origin: Address,
    value: int,
    inputData: seq<Byte>,
    inputOffset: int,
    inputSize: int,
    callType: CallType,
    isStatic: bool)
}
