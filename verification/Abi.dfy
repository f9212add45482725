/**
 The host/firmware/endpoint binary interface: descriptor and completion records,
 opcodes, status and error codes, and the fixed-width integers they are made of.
 Records hold host-order values; the little-endian wire layout is not modelled.
 */
module Abi {

  datatype Option<T> = None | Some(value: T)

  const TWO32: int := 0x1_0000_0000
  const TWO64: int := 0x1_0000_0000_0000_0000

  type u8 = x: int | 0 <= x < 0x100
  type u16 = x: int | 0 <= x < 0x1_0000
  type u32 = x: int | 0 <= x < 0x1_0000_0000
  type u64 = x: int | 0 <= x < 0x1_0000_0000_0000_0000

  // A 32-bit checksum or register is the sequence of its bits, least significant first.
  type Reg = r: seq<bool> | |r| == 32
    witness [false, false, false, false, false, false, false, false,
             false, false, false, false, false, false, false, false,
             false, false, false, false, false, false, false, false,
             false, false, false, false, false, false, false, false]

  function Repeat(b: bool, n: nat): (r: seq<bool>)
    ensures |r| == n && forall i :: 0 <= i < n ==> r[i] == b
  {
    seq(n, _ => b)
  }

  const ZERO: Reg := Repeat(false, 32)

  const DESC_VERSION_1: u16 := 1

  const OP_NOP: u8 := 0
  const OP_MEM_COPY: u8 := 1
  const OP_MEM_FILL: u8 := 2
  const OP_CRC32: u8 := 3
  const OP_VECTOR_ADD: u8 := 4

  const STATUS_SUCCESS: u16 := 0
  const STATUS_INVALID: u16 := 1
  const STATUS_FAILED: u16 := 2
  const STATUS_TIMED_OUT: u16 := 3
  const STATUS_RESET: u16 := 5

  const ERR_NONE: u16 := 0
  const ERR_UNSUPPORTED_VERSION: u16 := 1
  const ERR_INVALID_OPCODE: u16 := 2
  const ERR_INVALID_FLAGS: u16 := 3
  const ERR_RESERVED_NONZERO: u16 := 4
  const ERR_INVALID_LENGTH: u16 := 6
  const ERR_INVALID_ALIGNMENT: u16 := 7
  const ERR_ADDRESS_OVERFLOW: u16 := 8
  const ERR_INVALID_ADDRESS: u16 := 9
  const ERR_INVALID_TIMEOUT: u16 := 10
  const ERR_DMA_READ: u16 := 0x10
  const ERR_DMA_WRITE: u16 := 0x11
  const ERR_ENGINE: u16 := 0x12
  const ERR_TIMEOUT: u16 := 0x13
  const ERR_CRC_MISMATCH: u16 := 0x14
  const ERR_RESET: u16 := 0x15
  const ERR_QUEUE_RESET: u16 := 0x16

  const MAX_TRANSFER: u32 := 0x0100_0000
  const MAX_TIMEOUT_MS: u32 := 60000
  const DEFAULT_TIMEOUT_MS: u32 := 30000

  datatype Submission = Submission(
    version: u16,
    opcode: u8,
    flags: u8,
    commandId: u32,
    source: u64,
    destination: u64,
    length: u32,
    timeoutMs: u32,
    cookie: u64,
    expectedCrc: Reg,
    reserved0: u32,
    reserved1: u64,
    reserved2: u64)

  datatype Completion = Completion(
    commandId: u32,
    status: u16,
    errorCode: u16,
    bytesProcessed: u32,
    resultCrc: Reg,
    cookie: u64,
    timestamp: u64)

  const ZERO_SUBMISSION := Submission(0, 0, 0, 0, 0, 0, 0, 0, 0, ZERO, 0, 0, 0)
  const ZERO_COMPLETION := Completion(0, 0, 0, 0, ZERO, 0, 0)

  /** The opcodes that run on the engine; NOP completes without it. */
  predicate IsPayload(opcode: u8): (r: bool)
    ensures r <==> 1 <= opcode <= 4
  {
    opcode == OP_MEM_COPY || opcode == OP_MEM_FILL || opcode == OP_CRC32 || opcode == OP_VECTOR_ADD
  }

  /** `c` answers the command described by `d`: same id and same user cookie. */
  predicate Answers(c: Completion, d: Submission) {
    c.commandId == d.commandId && c.cookie == d.cookie
  }

  function Wrap32(x: int): u32 { x % TWO32 }

  function Wrap64(x: int): u64 { x % TWO64 }

  /** `x++` on an unsigned 32-bit value. */
  function Inc32(x: u32): (r: u32)
    ensures r == (x + 1) % 0x1_0000_0000
  {
    if x == TWO32 - 1 then 0 else x + 1
  }

  /** The saturating counter step used by every diagnostic counter. */
  function SatInc(value: u32): (r: u32)
    ensures value <= r <= value + 1 && (r == value <==> value == 0xffff_ffff)
  {
    if value == TWO32 - 1 then value else value + 1
  }
}
