/**
 Descriptor validation, written twice in the source: once in the firmware and once in
 the endpoint's engine. Both are modelled with the source's wrapping 64-bit arithmetic
 and compared with one ordered list of rules stated over mathematical integers.
 */
module Validation {
  import opened Abi

  // ---------------------------------------------------------------- shared arithmetic

  /** `address > UINT64_MAX - ((uint64_t)length - 1)`. */
  predicate RangeOverflows(address: u64, length: u32) {
    address > Wrap64(TWO64 - 1 - Wrap64(length - 1))
  }

  /** Inclusive range ends computed modulo 2^64, then compared. */
  predicate RangesOverlap(first: u64, second: u64, length: u32) {
    var firstEnd := Wrap64(first + length - 1);
    var secondEnd := Wrap64(second + length - 1);
    first <= secondEnd && second <= firstEnd
  }

  // ---------------------------------------------------------------- firmware validator

  function FirmwareValidate(d: Submission): u16 {
    if d.version != DESC_VERSION_1 then ERR_UNSUPPORTED_VERSION
    else if d.opcode != OP_NOP && d.opcode != OP_MEM_COPY && d.opcode != OP_MEM_FILL &&
            d.opcode != OP_CRC32 && d.opcode != OP_VECTOR_ADD then ERR_INVALID_OPCODE
    else if (d.opcode == OP_CRC32 && d.flags / 2 != 0) ||
            (d.opcode != OP_CRC32 && d.flags != 0) then ERR_INVALID_FLAGS
    else if (d.opcode != OP_CRC32 || d.flags % 2 == 0) && d.expectedCrc != ZERO then ERR_RESERVED_NONZERO
    else if d.reserved0 != 0 || d.reserved1 != 0 || d.reserved2 != 0 then ERR_RESERVED_NONZERO
    else if d.timeoutMs > MAX_TIMEOUT_MS then ERR_INVALID_TIMEOUT
    else if d.opcode == OP_NOP && d.length != 0 then ERR_INVALID_LENGTH
    else if d.opcode == OP_NOP && (d.source != 0 || d.destination != 0) then ERR_INVALID_ADDRESS
    else if d.opcode == OP_MEM_COPY then
      if d.length == 0 || d.length > MAX_TRANSFER then ERR_INVALID_LENGTH
      else if RangeOverflows(d.source, d.length) || RangeOverflows(d.destination, d.length) then ERR_ADDRESS_OVERFLOW
      else if d.source == 0 || d.destination == 0 || RangesOverlap(d.source, d.destination, d.length)
      then ERR_INVALID_ADDRESS
      else ERR_NONE
    else if d.opcode == OP_MEM_FILL then
      if d.length == 0 || d.length > MAX_TRANSFER then ERR_INVALID_LENGTH
      else if RangeOverflows(d.destination, d.length) then ERR_ADDRESS_OVERFLOW
      else if d.source == 0 || d.destination == 0 then ERR_INVALID_ADDRESS
      else ERR_NONE
    else if d.opcode == OP_CRC32 then
      if d.length == 0 || d.length > MAX_TRANSFER then ERR_INVALID_LENGTH
      else if RangeOverflows(d.source, d.length) then ERR_ADDRESS_OVERFLOW
      else if d.source == 0 || d.destination != 0 then ERR_INVALID_ADDRESS
      else ERR_NONE
    else if d.opcode == OP_VECTOR_ADD then
      if d.length < 4 || d.length > MAX_TRANSFER || d.length % 4 != 0 then ERR_INVALID_LENGTH
      else if d.source == 0 || d.destination == 0 then ERR_INVALID_ADDRESS
      else if d.source % 4 != 0 || d.destination % 4 != 0 then ERR_INVALID_ALIGNMENT
      else if RangeOverflows(d.source, d.length) || RangeOverflows(d.destination, d.length) then ERR_ADDRESS_OVERFLOW
      else if RangesOverlap(d.source, d.destination, d.length) then ERR_INVALID_ADDRESS
      else ERR_NONE
    else ERR_NONE
  }

  // ---------------------------------------------------------------- endpoint validator
  // The tests of the patched `vams_pcie_validate_command` in their order: the header, then one block per opcode.

  function EndpointHeader(d: Submission): u16 {
    if d.version != DESC_VERSION_1 then ERR_UNSUPPORTED_VERSION
    else if d.opcode != OP_NOP && d.opcode != OP_MEM_COPY && d.opcode != OP_MEM_FILL &&
            d.opcode != OP_CRC32 && d.opcode != OP_VECTOR_ADD then ERR_INVALID_OPCODE
    else if (d.opcode == OP_CRC32 && d.flags / 2 != 0) ||
            (d.opcode != OP_CRC32 && d.flags != 0) then ERR_INVALID_FLAGS
    else if (d.opcode != OP_CRC32 || d.flags % 2 == 0) && d.expectedCrc != ZERO then ERR_RESERVED_NONZERO
    else if d.reserved0 != 0 || d.reserved1 != 0 || d.reserved2 != 0 then ERR_RESERVED_NONZERO
    else if d.timeoutMs > 60000 then ERR_INVALID_TIMEOUT
    else ERR_NONE
  }

  function EndpointNop(d: Submission): u16 {
    if d.length != 0 then ERR_INVALID_LENGTH
    else if d.source != 0 || d.destination != 0 then ERR_INVALID_ADDRESS
    else ERR_NONE
  }

  function EndpointCopy(d: Submission): u16 {
    if d.length == 0 || d.length > 0x0100_0000 then ERR_INVALID_LENGTH
    else if RangeOverflows(d.source, d.length) || RangeOverflows(d.destination, d.length) then ERR_ADDRESS_OVERFLOW
    else if d.source == 0 || d.destination == 0 || RangesOverlap(d.source, d.destination, d.length)
    then ERR_INVALID_ADDRESS
    else ERR_NONE
  }

  function EndpointFill(d: Submission): u16 {
    if d.length == 0 || d.length > 0x0100_0000 then ERR_INVALID_LENGTH
    else if RangeOverflows(d.destination, d.length) then ERR_ADDRESS_OVERFLOW
    else if d.source == 0 || d.destination == 0 then ERR_INVALID_ADDRESS
    else ERR_NONE
  }

  function EndpointCrc(d: Submission): u16 {
    if d.length == 0 || d.length > 0x0100_0000 then ERR_INVALID_LENGTH
    else if RangeOverflows(d.source, d.length) then ERR_ADDRESS_OVERFLOW
    else if d.source == 0 || d.destination != 0 then ERR_INVALID_ADDRESS
    else ERR_NONE
  }

  function EndpointVectorAdd(d: Submission): u16 {
    if d.length < 4 || d.length > 0x0100_0000 || d.length % 4 != 0 then ERR_INVALID_LENGTH
    else if d.source == 0 || d.destination == 0 then ERR_INVALID_ADDRESS
    else if d.source % 4 != 0 || d.destination % 4 != 0 then ERR_INVALID_ALIGNMENT
    else if RangeOverflows(d.source, d.length) || RangeOverflows(d.destination, d.length) then ERR_ADDRESS_OVERFLOW
    else if RangesOverlap(d.source, d.destination, d.length) then ERR_INVALID_ADDRESS
    else ERR_NONE
  }

  function EndpointValidate(d: Submission): u16 {
    var header := EndpointHeader(d);
    if header != ERR_NONE then header
    else if d.opcode == OP_NOP then EndpointNop(d)
    else if d.opcode == OP_MEM_COPY then EndpointCopy(d)
    else if d.opcode == OP_MEM_FILL then EndpointFill(d)
    else if d.opcode == OP_CRC32 then EndpointCrc(d)
    else if d.opcode == OP_VECTOR_ADD then EndpointVectorAdd(d)
    else ERR_NONE
  }

  // ---------------------------------------------------------------- the rules, over the integers

  datatype Rule =
    | Version | Opcode | Flags | Reserved | Timeout | Length
    | Operands   // a required address is null, or an unused one is set
    | Alignment
    | Overflow   // a used range runs past 2^64
    | Overlap    // the source and destination ranges share an address

  ghost predicate UsesSourceRange(opcode: u8) {
    opcode == OP_MEM_COPY || opcode == OP_CRC32 || opcode == OP_VECTOR_ADD
  }

  ghost predicate UsesDestinationRange(opcode: u8) {
    opcode == OP_MEM_COPY || opcode == OP_MEM_FILL || opcode == OP_VECTOR_ADD
  }

  ghost predicate InRange(x: int, base: int, length: int) { base <= x < base + length }

  ghost predicate Intersect(a: int, b: int, length: int) {
    exists x :: InRange(x, a, length) && InRange(x, b, length)
  }

  ghost predicate Broken(d: Submission, rule: Rule) {
    match rule
    case Version => d.version != 1
    case Opcode => d.opcode > 4
    case Flags => d.flags > (if d.opcode == OP_CRC32 then 1 else 0)
    case Reserved =>
      || (d.expectedCrc != ZERO && !(d.opcode == OP_CRC32 && d.flags % 2 == 1))
      || d.reserved0 != 0 || d.reserved1 != 0 || d.reserved2 != 0
    case Timeout => d.timeoutMs > 60000
    case Length =>
      if d.opcode == OP_NOP then d.length != 0
      else if d.opcode == OP_VECTOR_ADD then !(4 <= d.length <= MAX_TRANSFER && d.length % 4 == 0)
      else !(1 <= d.length <= MAX_TRANSFER)
    case Operands =>
      if d.opcode == OP_NOP then d.source != 0 || d.destination != 0
      else if d.opcode == OP_CRC32 then d.source == 0 || d.destination != 0
      else d.source == 0 || d.destination == 0
    case Alignment => d.opcode == OP_VECTOR_ADD && (d.source % 4 != 0 || d.destination % 4 != 0)
    case Overflow =>
      || (UsesSourceRange(d.opcode) && d.source + d.length > TWO64)
      || (UsesDestinationRange(d.opcode) && d.destination + d.length > TWO64)
    case Overlap =>
      && UsesSourceRange(d.opcode) && UsesDestinationRange(d.opcode)
      && Intersect(d.source, d.destination, d.length)
  }

  /** The order in which the code tests the rules; VECTOR_ADD tests operands before ranges. */
  ghost function Precedence(opcode: u8): seq<Rule> {
    [Version, Opcode, Flags, Reserved, Timeout, Length] +
    if opcode == OP_VECTOR_ADD then [Operands, Alignment, Overflow, Overlap]
    else [Overflow, Operands, Overlap]
  }

  /** The codes of the interface. */
  ghost function CodeOf(rule: Rule): u16 {
    match rule
    case Version => 1
    case Opcode => 2
    case Flags => 3
    case Reserved => 4
    case Length => 6
    case Alignment => 7
    case Overflow => 8
    case Operands => 9
    case Overlap => 9
    case Timeout => 10
  }

  /** Rule number `i` of the precedence order is broken and no earlier one is. */
  ghost predicate IsFirstBroken(d: Submission, i: int) {
    && 0 <= i < |Precedence(d.opcode)|
    && Broken(d, Precedence(d.opcode)[i])
    && forall j :: 0 <= j < i ==> !Broken(d, Precedence(d.opcode)[j])
  }

  ghost predicate Acceptable(d: Submission) {
    forall rule: Rule :: !Broken(d, rule)
  }

  // ---------------------------------------------------------------- theorems

  /** The wrapping comparison is exact for every length the validators let through. */
  lemma RangeOverflowExact(address: u64, length: u32)
    requires length > 0
    ensures RangeOverflows(address, length) <==> address + length > TWO64
  {
  }

  /** Interval intersection, once neither range runs past the address space. */
  lemma RangeOverlapExact(first: u64, second: u64, length: u32)
    requires length > 0 && first + length <= TWO64 && second + length <= TWO64
    ensures RangesOverlap(first, second, length) <==> Intersect(first, second, length)
  {
    if RangesOverlap(first, second, length) {
      var x := if first < second then second else first;
      assert InRange(x, first, length) && InRange(x, second, length);
    }
  }

  /** Which position of the precedence order `d` breaks first; -1 when it breaks none. */
  ghost function FirstBrokenIndex(d: Submission): int {
    if Broken(d, Version) then 0
    else if Broken(d, Opcode) then 1
    else if Broken(d, Flags) then 2
    else if Broken(d, Reserved) then 3
    else if Broken(d, Timeout) then 4
    else if Broken(d, Length) then 5
    else if d.opcode == OP_VECTOR_ADD then
      if Broken(d, Operands) then 6 else if Broken(d, Alignment) then 7
      else if Broken(d, Overflow) then 8 else if Broken(d, Overlap) then 9 else -1
    else
      if Broken(d, Overflow) then 6 else if Broken(d, Operands) then 7
      else if Broken(d, Overlap) then 8 else -1
  }

  lemma ArithmeticExact(d: Submission)
    requires d.length > 0
    ensures RangeOverflows(d.source, d.length) <==> d.source + d.length > TWO64
    ensures RangeOverflows(d.destination, d.length) <==> d.destination + d.length > TWO64
    ensures d.source + d.length <= TWO64 && d.destination + d.length <= TWO64 ==>
              (RangesOverlap(d.source, d.destination, d.length) <==> Intersect(d.source, d.destination, d.length))
  {
    RangeOverflowExact(d.source, d.length);
    RangeOverflowExact(d.destination, d.length);
    if d.source + d.length <= TWO64 && d.destination + d.length <= TWO64 {
      RangeOverlapExact(d.source, d.destination, d.length);
    }
  }

  lemma IndexIsFirst(d: Submission)
    ensures FirstBrokenIndex(d) >= 0 ==> IsFirstBroken(d, FirstBrokenIndex(d))
    ensures FirstBrokenIndex(d) < 0 <==> Acceptable(d)
  {
    if FirstBrokenIndex(d) < 0 {
      assert forall r: Rule :: !Broken(d, r);
    } else {
      assert Broken(d, Precedence(d.opcode)[FirstBrokenIndex(d)]);
    }
  }

  lemma CodeAtIndex(d: Submission)
    ensures FirmwareValidate(d) ==
            if FirstBrokenIndex(d) < 0 then ERR_NONE else CodeOf(Precedence(d.opcode)[FirstBrokenIndex(d)])
  {
    if d.length > 0 { ArithmeticExact(d); }
  }

  /** The code is the code of the first broken rule in the precedence order. */
  lemma FirmwareReportsFirstBroken(d: Submission, i: int)
    requires IsFirstBroken(d, i)
    ensures FirmwareValidate(d) == CodeOf(Precedence(d.opcode)[i])
  {
    IndexIsFirst(d);
    CodeAtIndex(d);
    var k := FirstBrokenIndex(d);
    assert !(k < i) && !(i < k);
  }

  /** A descriptor is accepted exactly when it breaks no rule of the mathematical specification. */
  lemma FirmwareAcceptsExactly(d: Submission)
    ensures FirmwareValidate(d) == ERR_NONE <==> Acceptable(d)
  {
    IndexIsFirst(d);
    CodeAtIndex(d);
  }

  /** The engine's second check never disagrees with the firmware, whatever the descriptor. */
  lemma ValidatorsAgree(d: Submission)
    ensures EndpointValidate(d) == FirmwareValidate(d)
    ensures EndpointValidate(d) == ERR_NONE <==> Acceptable(d)
  {
    FirmwareAcceptsExactly(d);
  }

  /** The code a validator must answer: the first broken rule's, or none. */
  ghost predicate Reports(d: Submission, code: u16) {
    if Acceptable(d) then code == ERR_NONE
    else exists i :: IsFirstBroken(d, i) && code == CodeOf(Precedence(d.opcode)[i])
  }

  lemma FirmwareReports(d: Submission)
    ensures Reports(d, FirmwareValidate(d)) && (FirmwareValidate(d) == ERR_NONE <==> Acceptable(d))
  {
    IndexIsFirst(d);
    CodeAtIndex(d);
  }

  lemma EndpointReports(d: Submission)
    ensures Reports(d, EndpointValidate(d)) && (EndpointValidate(d) == ERR_NONE <==> Acceptable(d))
  {
    ValidatorsAgree(d);
    FirmwareReports(d);
  }
}
