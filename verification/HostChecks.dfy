/**
 The checks the Linux driver makes before it publishes a descriptor (SUBMIT and NOP
 ioctls and the mapping lookup they use), and what those checks promise the device.
 */
module HostChecks {
  import opened Abi
  import opened Validation

  datatype Errno = EINVAL | ENOENT | EACCES | ERANGE | EOVERFLOW

  datatype Result<T> = Ok(value: T) | Err(error: Errno)

  /** A registered buffer: its device address, its length and the access it was registered for. */
  datatype Mapping = Mapping(dma: u64, length: u64, readable: bool, writable: bool)

  type Table = map<u32, Mapping>

  datatype Access = Access(read: bool, write: bool)

  /** The user's SUBMIT record; `sized` says that its size and version fields were right. */
  datatype SubmitArgs = SubmitArgs(
    sized: bool, opcode: u16, flags: u16, sourceHandle: u32, destinationHandle: u32,
    length: u32, timeoutMs: u32, sourceOffset: u64, destinationOffset: u64,
    cookie: u64, expectedCrc: Reg, commandId: u32)

  /** `vams_mapping_lookup_locked`: the device address of `offset` inside the mapping, or the first error. */
  function Lookup(table: Table, handle: u32, offset: u64, length: u32, need: Access): Result<u64> {
    if handle == 0 || offset + length >= TWO64 then Err(EINVAL)
    else if handle !in table then Err(ENOENT)
    else
      var m := table[handle];
      if (need.read && !m.readable) || (need.write && !m.writable) then Err(EACCES)
      else if offset + length > m.length then Err(ERANGE)
      else if m.dma + offset >= TWO64 || m.dma + offset == 0 || m.dma + offset + length >= TWO64 then Err(EOVERFLOW)
      else Ok(m.dma + offset)
  }

  /** What each opcode asks of its operands: source bytes read, source access, destination access. */
  datatype Shape = Shape(sourceLength: u32, source: Access, destination: Access)

  /** The opcode switch of `vams_ioctl_submit`. */
  function OpcodeShape(a: SubmitArgs): Result<Shape> {
    var none := Access(false, false);
    if a.opcode == 0 then
      if a.sourceHandle != 0 || a.destinationHandle != 0 || a.sourceOffset != 0 ||
         a.destinationOffset != 0 || a.length != 0 then Err(EINVAL)
      else Ok(Shape(0, none, none))
    else if a.opcode == 1 then
      if a.length == 0 || a.sourceHandle == 0 || a.destinationHandle == 0 then Err(EINVAL)
      else Ok(Shape(a.length, Access(true, false), Access(false, true)))
    else if a.opcode == 2 then
      if a.length == 0 || a.sourceHandle == 0 || a.destinationHandle == 0 then Err(EINVAL)
      else Ok(Shape(1, Access(true, false), Access(false, true)))
    else if a.opcode == 3 then
      if a.length == 0 || a.sourceHandle == 0 || a.destinationHandle != 0 || a.destinationOffset != 0
      then Err(EINVAL)
      else Ok(Shape(a.length, Access(true, false), none))
    else if a.opcode == 4 then
      if a.length < 4 || a.length % 4 != 0 || a.sourceHandle == 0 || a.destinationHandle == 0 then Err(EINVAL)
      else Ok(Shape(a.length, Access(true, false), Access(true, true)))
    else Err(EINVAL)
  }

  predicate Wanted(access: Access) { access.read || access.write }

  function LookupIfWanted(table: Table, handle: u32, offset: u64, length: u32, need: Access): Result<u64> {
    if Wanted(need) then Lookup(table, handle, offset, length, need) else Ok(0)
  }

  /** `vams_ioctl_submit` up to the call that publishes the descriptor. */
  function SubmitIoctl(table: Table, a: SubmitArgs): Result<Submission> {
    if !a.sized || a.commandId != 0 || a.timeoutMs > 60000 || a.length > MAX_TRANSFER || a.flags / 2 != 0 ||
       (a.opcode != 3 && a.flags != 0) || ((a.flags == 0 || a.opcode != 3) && a.expectedCrc != ZERO)
    then Err(EINVAL)
    else
      var shape := OpcodeShape(a);
      if shape.Err? then Err(shape.error)
      else
        var source := LookupIfWanted(table, a.sourceHandle, a.sourceOffset,
                                     shape.value.sourceLength, shape.value.source);
        if source.Err? then Err(source.error)
        else
          var destination := LookupIfWanted(table, a.destinationHandle, a.destinationOffset,
                                            a.length, shape.value.destination);
          if destination.Err? then Err(destination.error)
          else if source.value != 0 && destination.value != 0 && a.opcode != 2 &&
                  source.value < Wrap64(destination.value + a.length) &&
                  destination.value < Wrap64(source.value + a.length)
          then Err(EINVAL)
          else Ok(Submission(1, a.opcode, a.flags, 0, source.value, destination.value, a.length,
                             a.timeoutMs, a.cookie, a.expectedCrc, 0, 0, 0))
  }

  /** `vams_ioctl_nop` and `vams_submit_nop`; `clean` says size, version, flags and reserved were right. */
  function NopIoctl(clean: bool, timeoutMs: u32, cookie: u64): Result<Submission> {
    if !clean || timeoutMs > 60000 then Err(EINVAL)
    else Ok(Submission(1, OP_NOP, 0, 0, 0, 0, 0, timeoutMs, cookie, ZERO, 0, 0, 0))
  }

  // ---------------------------------------------------------------- theorems

  /** Every device address in `[base, base + length)` belongs to the buffer behind `handle`. */
  ghost predicate Covered(table: Table, handle: u32, base: u64, length: int, need: Access) {
    && handle in table
    && (need.read ==> table[handle].readable)
    && (need.write ==> table[handle].writable)
    && table[handle].dma <= base
    && base + length <= table[handle].dma + table[handle].length
  }

  lemma LookupCovers(table: Table, handle: u32, offset: u64, length: u32, need: Access)
    requires Lookup(table, handle, offset, length, need).Ok?
    ensures Covered(table, handle, Lookup(table, handle, offset, length, need).value, length, need)
    ensures 0 < Lookup(table, handle, offset, length, need).value
    ensures Lookup(table, handle, offset, length, need).value + length < TWO64
  {
  }

  /**
   `offset` and `length` lie inside the buffer behind `handle`, which was registered for the access, and
   the device addresses they stand for are not null and do not run past 2^64.
   */
  ghost predicate Names(table: Table, handle: u32, offset: u64, length: int, read: bool, write: bool) {
    && handle != 0 && handle in table
    && (read ==> table[handle].readable) && (write ==> table[handle].writable)
    && offset + length <= table[handle].length
    && 0 < table[handle].dma + offset && table[handle].dma + offset + length < TWO64
  }

  lemma LookupExactly(table: Table, handle: u32, offset: u64, length: u32, need: Access)
    ensures var r := Lookup(table, handle, offset, length, need);
            && (r.Ok? <==> Names(table, handle, offset, length, need.read, need.write))
            && (r.Ok? ==> r.value == table[handle].dma + offset)
  {
  }

  ghost predicate HasSource(a: SubmitArgs) { 1 <= a.opcode <= 4 }

  ghost predicate HasDestination(a: SubmitArgs) { a.opcode == 1 || a.opcode == 2 || a.opcode == 4 }

  /** What SUBMIT takes, over the user's record and the file's buffers. */
  ghost predicate Submittable(table: Table, a: SubmitArgs) {
    && a.sized && a.commandId == 0 && a.opcode <= 4 && a.timeoutMs <= 60000 && a.length <= 0x0100_0000
    && (a.flags == 0 || (a.flags == 1 && a.opcode == 3)) && (a.flags == 0 ==> a.expectedCrc == ZERO)
    && (if HasSource(a) then
          && a.length > 0 && (a.opcode == 4 ==> a.length % 4 == 0)
          && Names(table, a.sourceHandle, a.sourceOffset, if a.opcode == 2 then 1 else a.length, true, false)
        else a.sourceHandle == 0 && a.sourceOffset == 0 && a.length == 0)
    && (if HasDestination(a)
        then Names(table, a.destinationHandle, a.destinationOffset, a.length, a.opcode == 4, true)
        else a.destinationHandle == 0 && a.destinationOffset == 0)
    && (HasDestination(a) && a.opcode != 2 ==>
          !Intersect(table[a.sourceHandle].dma + a.sourceOffset,
                     table[a.destinationHandle].dma + a.destinationOffset, a.length))
  }

  lemma Apart(first: int, second: int, length: int)
    requires length > 0
    ensures Intersect(first, second, length) <==> first < second + length && second < first + length
  {
    if first < second + length && second < first + length {
      var x := if first < second then second else first;
      assert InRange(x, first, length) && InRange(x, second, length);
    }
  }

  /** SUBMIT publishes a descriptor exactly for what it takes. */
  lemma SubmitExactly(table: Table, a: SubmitArgs)
    ensures SubmitIoctl(table, a).Ok? <==> Submittable(table, a)
  {
    var shape := OpcodeShape(a);
    if shape.Ok? && Wanted(shape.value.source) {
      LookupExactly(table, a.sourceHandle, a.sourceOffset, shape.value.sourceLength, shape.value.source);
    }
    if shape.Ok? && Wanted(shape.value.destination) {
      LookupExactly(table, a.destinationHandle, a.destinationOffset, a.length, shape.value.destination);
    }
    if HasDestination(a) && a.length > 0 && a.sourceHandle in table && a.destinationHandle in table {
      Apart(table[a.sourceHandle].dma + a.sourceOffset, table[a.destinationHandle].dma + a.destinationOffset, a.length);
    }
  }

  /** And the descriptor is the user's record, with the device addresses of the offsets named in it. */
  lemma PublishedAsAsked(table: Table, a: SubmitArgs)
    requires SubmitIoctl(table, a).Ok?
    ensures var d := SubmitIoctl(table, a).value;
            && d.version == 1 && d.opcode == a.opcode && d.flags == a.flags && d.length == a.length
            && d.timeoutMs == a.timeoutMs && d.cookie == a.cookie && d.expectedCrc == a.expectedCrc
            && d.reserved0 == 0 && d.reserved1 == 0 && d.reserved2 == 0
            && (if HasSource(a) then a.sourceHandle in table && d.source == table[a.sourceHandle].dma + a.sourceOffset
                else d.source == 0)
            && (if HasDestination(a)
                then && a.destinationHandle in table
                     && d.destination == table[a.destinationHandle].dma + a.destinationOffset
                else d.destination == 0)
  {
    var shape := OpcodeShape(a).value;
    if Wanted(shape.source) {
      LookupExactly(table, a.sourceHandle, a.sourceOffset, shape.sourceLength, shape.source);
    }
    if Wanted(shape.destination) {
      LookupExactly(table, a.destinationHandle, a.destinationOffset, a.length, shape.destination);
    }
  }

  /** Each lookup error names a reason that holds of one of the buffers asked for. */
  ghost predicate Because(table: Table, handle: u32, offset: u64, length: int, read: bool, write: bool, error: Errno) {
    match error
    case EINVAL => handle == 0 || offset + length >= TWO64
    case ENOENT => handle !in table
    case EACCES => handle in table && ((read && !table[handle].readable) || (write && !table[handle].writable))
    case ERANGE => handle in table && offset + length > table[handle].length
    case EOVERFLOW =>
      handle in table && (table[handle].dma + offset == 0 || table[handle].dma + offset + length >= TWO64)
  }

  lemma RefusedBecause(table: Table, a: SubmitArgs)
    requires SubmitIoctl(table, a).Err? && SubmitIoctl(table, a).error != EINVAL
    ensures var error := SubmitIoctl(table, a).error;
            || (HasSource(a) && Because(table, a.sourceHandle, a.sourceOffset,
                                        if a.opcode == 2 then 1 else a.length, true, false, error))
            || (HasDestination(a) && Because(table, a.destinationHandle, a.destinationOffset, a.length,
                                             a.opcode == 4, true, error))
  {
  }

  /** Published ranges lie inside buffers the same file registered with the access the opcode needs. */
  lemma PublishedRangesAreRegistered(table: Table, a: SubmitArgs)
    requires SubmitIoctl(table, a).Ok?
    ensures var d := SubmitIoctl(table, a).value;
            && (UsesSourceRange(d.opcode) ==>
                  Covered(table, a.sourceHandle, d.source, d.length, Access(true, false)))
            && (d.opcode == OP_MEM_FILL ==>
                  Covered(table, a.sourceHandle, d.source, 1, Access(true, false)))
            && (UsesDestinationRange(d.opcode) ==>
                  Covered(table, a.destinationHandle, d.destination, d.length,
                          Access(d.opcode == OP_VECTOR_ADD, true)))
  {
    var shape := OpcodeShape(a).value;
    if Wanted(shape.source) {
      LookupCovers(table, a.sourceHandle, a.sourceOffset, shape.sourceLength, shape.source);
    }
    if Wanted(shape.destination) {
      LookupCovers(table, a.destinationHandle, a.destinationOffset, a.length, shape.destination);
    }
  }

  /** What the SUBMIT ioctl has established of the descriptor it publishes. */
  ghost predicate HostChecked(d: Submission) {
    && d.version == DESC_VERSION_1 && d.opcode <= OP_VECTOR_ADD && d.timeoutMs <= MAX_TIMEOUT_MS
    && d.reserved0 == 0 && d.reserved1 == 0 && d.reserved2 == 0
    && d.flags / 2 == 0 && (d.opcode != OP_CRC32 ==> d.flags == 0) && (d.flags == 0 ==> d.expectedCrc == ZERO)
    && (d.opcode == OP_NOP ==> d.length == 0 && d.source == 0)
    && (d.opcode != OP_NOP ==> 0 < d.length <= MAX_TRANSFER && d.source > 0)
    && (d.opcode == OP_VECTOR_ADD ==> d.length % 4 == 0)
    && (UsesSourceRange(d.opcode) ==> d.source + d.length < TWO64)
    && (if UsesDestinationRange(d.opcode) then 0 < d.destination && d.destination + d.length < TWO64
        else d.destination == 0)
    && (UsesSourceRange(d.opcode) && UsesDestinationRange(d.opcode) ==>
          d.source + d.length <= d.destination || d.destination + d.length <= d.source)
  }

  lemma PublishedIsChecked(table: Table, a: SubmitArgs)
    requires SubmitIoctl(table, a).Ok?
    ensures HostChecked(SubmitIoctl(table, a).value)
  {
    var shape := OpcodeShape(a).value;
    if Wanted(shape.source) {
      LookupCovers(table, a.sourceHandle, a.sourceOffset, shape.sourceLength, shape.source);
    }
    if Wanted(shape.destination) {
      LookupCovers(table, a.destinationHandle, a.destinationOffset, a.length, shape.destination);
    }
  }

  lemma CheckedIsAccepted(d: Submission)
    requires HostChecked(d)
    ensures FirmwareValidate(d) ==
            if d.opcode == OP_VECTOR_ADD && !(d.source % 4 == 0 && d.destination % 4 == 0)
            then ERR_INVALID_ALIGNMENT else ERR_NONE
  {
    if d.length > 0 { ArithmeticExact(d); }
  }

  /**
   The device rejects a descriptor the SUBMIT ioctl published in exactly one situation: a
   VECTOR_ADD with a misaligned address, and then with INVALID_ALIGNMENT.
   */
  lemma HostChecksImplyAcceptance(table: Table, a: SubmitArgs)
    requires SubmitIoctl(table, a).Ok?
    ensures var d := SubmitIoctl(table, a).value;
            FirmwareValidate(d) ==
            if d.opcode == OP_VECTOR_ADD && !(d.source % 4 == 0 && d.destination % 4 == 0)
            then ERR_INVALID_ALIGNMENT else ERR_NONE
  {
    PublishedIsChecked(table, a);
    CheckedIsAccepted(SubmitIoctl(table, a).value);
  }

  /** Every NOP the driver publishes is accepted. */
  lemma NopAccepted(clean: bool, timeoutMs: u32, cookie: u64)
    ensures NopIoctl(clean, timeoutMs, cookie).Ok? <==> clean && timeoutMs <= 60000
    ensures NopIoctl(clean, timeoutMs, cookie).Ok? ==>
              var d := NopIoctl(clean, timeoutMs, cookie).value;
              && FirmwareValidate(d) == ERR_NONE && Acceptable(d)
              && d.opcode == OP_NOP && d.cookie == cookie && d.timeoutMs == timeoutMs
  {
  }
}
