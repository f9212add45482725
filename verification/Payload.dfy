/**
 The payload engine. `Whole*` is the one-shot engine of the first patches: read everything,
 compute, write everything. `Engine.Execute` is the loop that replaced it, bounded to 64 KiB
 working buffers, over a memory whose reads and writes may fail at any time.
 */
module Payload {
  import opened Abi
  import opened Validation
  import opened Crc32

  const CHUNK: nat := 0x1_0000

  /** The 64-bit address space the device sees; a transfer to an unmapped part of it just fails. */
  type Memory = m: seq<u8> | |m| == TWO64 ghost witness seq(TWO64, _ => 0)

  /** `data` stored at `address`, byte after byte. */
  function WriteAt(m: Memory, address: nat, data: seq<u8>): Memory
    requires address + |data| <= TWO64
    decreases |data|
  {
    if data == [] then m else WriteAt(m[address := data[0]], address + 1, data[1..])
  }

  /** The `n` bytes at `address`. */
  function Slice(m: Memory, address: nat, n: nat): (r: seq<u8>)
    requires address + n <= TWO64
    ensures |r| == n
    decreases n, address
  {
    if n == 0 then [] else [m[address]] + Slice(m, address + 1, n - 1)
  }

  function Fill(value: u8, n: nat): (r: seq<u8>)
    ensures |r| == n
  {
    seq(n, _ => value)
  }

  /** A little-endian load. */
  function Load(b: seq<u8>): nat {
    if b == [] then 0 else b[0] as int + 0x100 * Load(b[1..])
  }

  function AddWord(a: seq<u8>, b: seq<u8>): (r: seq<u8>)
    requires |a| == |b| == 4
    ensures |r| == 4
  {
    WordBytes(Wrap32(Load(a) + Load(b)))
  }

  /** Element-wise addition modulo 2^32 of two vectors of little-endian words. */
  function AddWords(a: seq<u8>, b: seq<u8>): (r: seq<u8>)
    requires |a| == |b| && |a| % 4 == 0
    ensures |r| == |a|
  {
    if |a| == 0 then [] else AddWord(a[..4], b[..4]) + AddWords(a[4..], b[4..])
  }

  // ---------------------------------------------------------------- the one-shot engine

  predicate Writes(opcode: u8) { opcode == OP_MEM_COPY || opcode == OP_MEM_FILL || opcode == OP_VECTOR_ADD }

  /** What validation leaves the engine to rely on: ranges inside the address space, and apart. */
  predicate Runnable(d: Submission) {
    && IsPayload(d.opcode)
    && (d.opcode != OP_MEM_FILL ==> d.source + d.length <= TWO64)
    && (Writes(d.opcode) ==> d.destination + d.length <= TWO64)
    && (d.opcode == OP_MEM_COPY || d.opcode == OP_VECTOR_ADD ==>
          d.source + d.length <= d.destination || d.destination + d.length <= d.source)
    && (d.opcode == OP_VECTOR_ADD ==> d.length % 4 == 0)
  }

  lemma ValidatedIsRunnable(d: Submission)
    requires EndpointValidate(d) == ERR_NONE && IsPayload(d.opcode)
    ensures Runnable(d)
  {
  }

  /** The first `n` bytes the operation stores, computed from the memory before it started. */
  function Produced(m: Memory, d: Submission, n: nat): (r: seq<u8>)
    requires Runnable(d) && Writes(d.opcode) && n <= d.length
    requires d.opcode == OP_VECTOR_ADD ==> n % 4 == 0
    ensures |r| == n
  {
    if d.opcode == OP_MEM_COPY then Slice(m, d.source, n)
    else if d.opcode == OP_MEM_FILL then Fill(m[d.source], n)
    else AddWords(Slice(m, d.source, n), Slice(m, d.destination, n))
  }

  function WholeMemory(m: Memory, d: Submission): Memory
    requires Runnable(d)
  {
    if Writes(d.opcode) then WriteAt(m, d.destination, Produced(m, d, d.length)) else m
  }

  function WholeCompletion(m: Memory, d: Submission, c: Completion): Completion
    requires Runnable(d)
  {
    if d.opcode == OP_CRC32 then
      var crc := Checksum(Slice(m, d.source, d.length));
      if d.flags % 2 == 1 && crc != d.expectedCrc then
        c.(resultCrc := crc, status := STATUS_FAILED, errorCode := ERR_CRC_MISMATCH, bytesProcessed := 0)
      else c.(resultCrc := crc, bytesProcessed := d.length)
    else c.(bytesProcessed := d.length)
  }

  function DmaError(c: Completion, error: u16): Completion {
    c.(status := STATUS_FAILED, errorCode := error, bytesProcessed := 0, resultCrc := ZERO)
  }

  /** Memory agrees with `m` outside the destination range of `d`. */
  ghost predicate OnlyDestinationChanged(m: Memory, r: Memory, d: Submission) {
    forall a :: 0 <= a < TWO64 && !(Writes(d.opcode) && InRange(a, d.destination, d.length)) ==> r[a] == m[a]
  }

  /**
   What an execution makes of memory and of the completion: nothing for a command that is not a
   payload to run, an engine failure for one that does not validate, and otherwise exactly what the
   one-shot engine does, or the code of the step that failed with only the destination touched.
   */
  ghost predicate Executed(m: Memory, n: Memory, d: Submission, c: Completion, r: Completion, error: u16) {
    && OnlyDestinationChanged(m, n, d)
    && (if c.status != STATUS_SUCCESS || !IsPayload(d.opcode) then r == c && n == m
        else if EndpointValidate(d) != ERR_NONE then r == DmaError(c, ERR_ENGINE) && n == m
        else && Runnable(d)
             && (if error == ERR_NONE then n == WholeMemory(m, d) && r == WholeCompletion(m, d, c)
                 else r == DmaError(c, error) && error in {ERR_ENGINE, ERR_DMA_READ, ERR_DMA_WRITE}))
  }

  /** What running an accepted payload makes: the one-shot engine's effect, or the code of the step that failed. */
  ghost predicate Performed(m: Memory, n: Memory, d: Submission, c: Completion, r: Completion, error: u16) {
    && OnlyDestinationChanged(m, n, d) && Runnable(d)
    && (if error == ERR_NONE then n == WholeMemory(m, d) && r == WholeCompletion(m, d, c)
        else && r == DmaError(c, error) && error in {ERR_ENGINE, ERR_DMA_READ, ERR_DMA_WRITE}
             && r.status == STATUS_FAILED && r.errorCode == error && r.bytesProcessed == 0)
  }

  /**
   The verdict on a payload that ran: it succeeds with every byte processed exactly when no checksum was
   to be compared or the bytes read have the one expected; a mismatch counts no byte.
   */
  lemma VerdictExactly(m: Memory, d: Submission, c: Completion, read: seq<u8>)
    requires Runnable(d) && c.status == STATUS_SUCCESS && c.errorCode == ERR_NONE
    requires d.opcode == OP_CRC32 ==> |read| == d.length && forall i :: 0 <= i < d.length ==> read[i] == m[d.source + i]
    ensures var r := WholeCompletion(m, d, c);
            && Answers(r, d) == Answers(c, d)
            && (r.status == STATUS_SUCCESS <==>
                d.opcode == OP_CRC32 && d.flags % 2 == 1 ==> Checksum(read) == d.expectedCrc)
            && (r.status == STATUS_SUCCESS ==> r.errorCode == ERR_NONE && r.bytesProcessed == d.length)
            && (r.status != STATUS_SUCCESS ==>
                  r.status == STATUS_FAILED && r.errorCode == ERR_CRC_MISMATCH && r.bytesProcessed == 0)
            && (d.opcode == OP_CRC32 ==> r.resultCrc == Checksum(read))
  {
    if d.opcode == OP_CRC32 {
      forall i | 0 <= i < d.length ensures Slice(m, d.source, d.length)[i] == read[i] {
        SliceAt(m, d.source, d.length, i);
      }
      assert Slice(m, d.source, d.length) == read;
    }
  }

  /** The engine's own validation never refuses a payload that was accepted before. */
  lemma AcceptedIsPerformed(m: Memory, n: Memory, d: Submission, c: Completion, r: Completion, error: u16)
    requires Executed(m, n, d, c, r, error) && Acceptable(d) && IsPayload(d.opcode) && c.status == STATUS_SUCCESS
    ensures Performed(m, n, d, c, r, error)
  {
    EndpointReports(d);
  }

  // ---------------------------------------------------------------- lemmas about stores

  lemma {:induction false} WriteAppend(m: Memory, address: nat, a: seq<u8>, b: seq<u8>)
    requires address + |a| + |b| <= TWO64
    ensures WriteAt(WriteAt(m, address, a), address + |a|, b) == WriteAt(m, address, a + b)
    decreases |a|
  {
    if a == [] {
      assert a + b == b;
    } else {
      assert (a + b)[1..] == a[1..] + b;
      WriteAppend(m[address := a[0]], address + 1, a[1..], b);
    }
  }

  lemma {:induction false} WriteElsewhere(m: Memory, address: nat, data: seq<u8>, at: nat)
    requires address + |data| <= TWO64 && at < TWO64
    requires !InRange(at, address, |data|)
    ensures WriteAt(m, address, data)[at] == m[at]
    decreases |data|
  {
    if data != [] { WriteElsewhere(m[address := data[0]], address + 1, data[1..], at); }
  }

  /** A store does not show in a read of other addresses. */
  lemma {:induction false} ReadElsewhere(m: Memory, address: nat, data: seq<u8>, at: nat, n: nat)
    requires address + |data| <= TWO64 && at + n <= TWO64
    requires at + n <= address || address + |data| <= at
    ensures Slice(WriteAt(m, address, data), at, n) == Slice(m, at, n)
    decreases n
  {
    if n > 0 {
      WriteElsewhere(m, address, data, at);
      ReadElsewhere(m, address, data, at + 1, n - 1);
    }
  }

  lemma {:induction false} SliceAppend(m: Memory, at: nat, n: nat, k: nat)
    requires at + n + k <= TWO64
    ensures Slice(m, at, n) + Slice(m, at + n, k) == Slice(m, at, n + k)
    decreases n
  {
    if n > 0 { SliceAppend(m, at + 1, n - 1, k); }
  }

  lemma FillAppend(value: u8, n: nat, k: nat)
    ensures Fill(value, n) + Fill(value, k) == Fill(value, n + k)
  {
  }

  lemma {:induction false} AddWordsAppend(a: seq<u8>, b: seq<u8>, c: seq<u8>, d: seq<u8>)
    requires |a| == |b| && |c| == |d| && |a| % 4 == 0 && |c| % 4 == 0
    ensures AddWords(a + c, b + d) == AddWords(a, b) + AddWords(c, d)
    decreases |a|
  {
    if |a| == 0 {
      assert a + c == c && b + d == d;
    } else {
      assert (a + c)[..4] == a[..4] && (b + d)[..4] == b[..4];
      assert (a + c)[4..] == a[4..] + c && (b + d)[4..] == b[4..] + d;
      AddWordsAppend(a[4..], b[4..], c, d);
    }
  }

  /** A copied chunk is the next piece of the source, although part of the copy is already stored. */
  lemma CopyStep(m: Memory, d: Submission, n: nat, k: nat, was: Memory)
    requires Runnable(d) && d.opcode == OP_MEM_COPY && n + k <= d.length
    requires was == WriteAt(m, d.destination, Produced(m, d, n))
    ensures Produced(m, d, n) + Slice(was, d.source + n, k) == Produced(m, d, n + k)
  {
    ReadElsewhere(m, d.destination, Produced(m, d, n), d.source + n, k);
    assert Slice(was, d.source + n, k) == Slice(m, d.source + n, k);
    SliceAppend(m, d.source, n, k);
    assert Produced(m, d, n) == Slice(m, d.source, n);
  }

  /** A summed chunk reads operands the earlier chunks did not touch. */
  lemma VectorStep(m: Memory, d: Submission, n: nat, k: nat, was: Memory)
    requires Runnable(d) && d.opcode == OP_VECTOR_ADD && n + k <= d.length && n % 4 == 0 && k % 4 == 0
    requires was == WriteAt(m, d.destination, Produced(m, d, n))
    ensures Produced(m, d, n)
            + AddWords(Slice(was, d.source + n, k), Slice(was, d.destination + n, k))
            == Produced(m, d, n + k)
  {
    ReadElsewhere(m, d.destination, Produced(m, d, n), d.source + n, k);
    ReadElsewhere(m, d.destination, Produced(m, d, n), d.destination + n, k);
    assert Slice(was, d.source + n, k) == Slice(m, d.source + n, k);
    assert Slice(was, d.destination + n, k) == Slice(m, d.destination + n, k);
    SumAppend(m, d.source, d.destination, n, k);
    assert Produced(m, d, n) == AddWords(Slice(m, d.source, n), Slice(m, d.destination, n));
  }

  lemma SumAppend(m: Memory, a: nat, b: nat, n: nat, k: nat)
    requires a + n + k <= TWO64 && b + n + k <= TWO64 && n % 4 == 0 && k % 4 == 0
    ensures AddWords(Slice(m, a, n), Slice(m, b, n)) + AddWords(Slice(m, a + n, k), Slice(m, b + n, k))
            == AddWords(Slice(m, a, n + k), Slice(m, b, n + k))
  {
    SliceAppend(m, a, n, k);
    SliceAppend(m, b, n, k);
    AddWordsAppend(Slice(m, a, n), Slice(m, b, n), Slice(m, a + n, k), Slice(m, b + n, k));
  }

  lemma StreamStep(m: Memory, d: Submission, n: nat, k: nat)
    requires Runnable(d) && d.opcode == OP_CRC32 && n + k <= d.length
    ensures Update(Update(ONES, Slice(m, d.source, n)), Slice(m, d.source + n, k)) ==
            Update(ONES, Slice(m, d.source, n + k))
  {
    SliceAppend(m, d.source, n, k);
    UpdateConcat(ONES, Slice(m, d.source, n), Slice(m, d.source + n, k));
  }

  // ---------------------------------------------------------------- the element loop

  function StoreWord(b: seq<u8>, index: nat, word: seq<u8>): (r: seq<u8>)
    requires index + 4 <= |b| && |word| == 4
    ensures |r| == |b|
  {
    b[index := word[0]][index + 1 := word[1]][index + 2 := word[2]][index + 3 := word[3]]
  }

  /** What turn `w` of the element loop leaves in the destination buffer. */
  function Element(a: seq<u8>, b: seq<u8>, w: nat): (r: seq<u8>)
    requires |a| == |b| && 4 * w + 4 <= |a|
    ensures |r| == |b|
  {
    StoreWord(b, 4 * w, AddWord(a[4 * w..4 * w + 4], b[4 * w..4 * w + 4]))
  }

  /** The destination buffer when the element loop has `w` turns behind it and runs to the end. */
  function Finish(a: seq<u8>, b: seq<u8>, w: nat): seq<u8>
    requires |a| == |b|
    decreases |a| - 4 * w
  {
    if 4 * w + 4 > |a| then b else Finish(a, Element(a, b, w), w + 1)
  }

  lemma ElementParts(a: seq<u8>, b: seq<u8>, w: nat)
    requires |a| == |b| && 4 * w + 4 <= |a|
    ensures Element(a, b, w)[..4 * w + 4] == b[..4 * w] + AddWord(a[4 * w..4 * w + 4], b[4 * w..4 * w + 4])
    ensures Element(a, b, w)[4 * w + 4..] == b[4 * w + 4..]
  {
  }

  lemma {:induction false} FinishIsAddWords(a: seq<u8>, b: seq<u8>, w: nat)
    requires |a| == |b| && |a| % 4 == 0 && 4 * w <= |a|
    ensures Finish(a, b, w) == b[..4 * w] + AddWords(a[4 * w..], b[4 * w..])
    decreases |a| - 4 * w
  {
    var i := 4 * w;
    if i + 4 <= |a| {
      FinishIsAddWords(a, Element(a, b, w), w + 1);
      ElementParts(a, b, w);
      assert a[i..][..4] == a[i..i + 4] && b[i..][..4] == b[i..i + 4];
      assert a[i..][4..] == a[i + 4..] && b[i..][4..] == b[i + 4..];
    }
  }

  method AddElement(source: array<u8>, destination: array<u8>, w: nat)
    requires source != destination && source.Length == destination.Length && 4 * w + 4 <= source.Length
    modifies destination
    ensures destination[..] == Element(source[..], old(destination[..]), w)
  {
    var index := 4 * w;
    assert source[..][index..index + 4] == source[index..index + 4];
    assert destination[..][index..index + 4] == destination[index..index + 4];
    var word := AddWord(source[index..index + 4], destination[index..index + 4]);
    destination[index] := word[0];
    destination[index + 1] := word[1];
    destination[index + 2] := word[2];
    destination[index + 3] := word[3];
  }

  /** The element loop of VECTOR_ADD, in place: every word of the destination becomes the sum of the two words. */
  method AddInto(source: array<u8>, destination: array<u8>)
    requires source != destination && source.Length == destination.Length && source.Length % 4 == 0
    modifies destination
    ensures destination[..] == AddWords(source[..], old(destination[..]))
  {
    var w := 0;
    ghost var a, b := source[..], destination[..];
    while 4 * w < source.Length
      invariant 4 * w <= source.Length
      invariant Finish(a, destination[..], w) == Finish(a, b, 0)
    {
      AddElement(source, destination, w);
      w := w + 1;
    }
    FinishIsAddWords(a, b, 0);
    assert a[0..] == a && b[0..] == b;
  }

  /** The vector turn on the two working buffers. */
  method Sum(a: seq<u8>, b: seq<u8>) returns (r: seq<u8>)
    requires |a| == |b| && |a| % 4 == 0
    ensures r == AddWords(a, b)
  {
    var source := new u8[|a|](i requires 0 <= i < |a| => a[i]);
    var destination := new u8[|b|](i requires 0 <= i < |b| => b[i]);
    assert source[..] == a && destination[..] == b;
    AddInto(source, destination);
    r := destination[..];
  }

  // ---------------------------------------------------------------- the chunked engine

  class Engine {
    var mem: Memory

    constructor (m: Memory)
      ensures mem == m
    {
      mem := m;
    }

    /** A DMA read; it may fail whatever the address. */
    method DmaRead(address: nat, n: nat) returns (ok: bool, data: seq<u8>)
      requires address + n <= TWO64
      ensures ok ==> data == Slice(mem, address, n)
    {
      ok := *;
      data := if ok then Slice(mem, address, n) else [];
    }

    /** A DMA write; a failed one may already have stored a prefix. */
    method DmaWrite(address: nat, data: seq<u8>) returns (ok: bool)
      requires address + |data| <= TWO64
      modifies this
      ensures ok ==> mem == WriteAt(old(mem), address, data)
      ensures forall a :: 0 <= a < TWO64 && !InRange(a, address, |data|) ==> mem[a] == old(mem)[a]
    {
      ok := *;
      var stored: nat :| stored <= |data| && (ok ==> stored == |data|);
      ghost var was := mem;
      mem := WriteAt(mem, address, data[..stored]);
      assert ok ==> data[..stored] == data;
      forall a | 0 <= a < TWO64 && !InRange(a, address, |data|) ensures mem[a] == was[a] {
        WriteElsewhere(was, address, data[..stored], a);
      }
    }

    /**
     `vams_pcie_execute_payload`. `error` is the source's local `dma_error`: NONE unless an
     allocation or a transfer failed.
     */
    method Execute(d: Submission, c: Completion) returns (r: Completion, error: u16)
      modifies this
      ensures Executed(old(mem), mem, d, c, r, error)
      ensures r.commandId == c.commandId && r.cookie == c.cookie
    {
      error := ERR_NONE;
      if c.status != STATUS_SUCCESS || !IsPayload(d.opcode) {
        return c, error;
      }
      if EndpointValidate(d) != ERR_NONE {
        return DmaError(c, ERR_ENGINE), error;
      }
      ValidatedIsRunnable(d);
      r, error := Run(d, c);
    }

    method Run(d: Submission, c: Completion) returns (r: Completion, error: u16)
      requires Runnable(d)
      modifies this
      ensures error == ERR_NONE ==> mem == WholeMemory(old(mem), d) && r == WholeCompletion(old(mem), d, c)
      ensures error != ERR_NONE ==>
                r == DmaError(c, error) && error in {ERR_ENGINE, ERR_DMA_READ, ERR_DMA_WRITE}
      ensures OnlyDestinationChanged(old(mem), mem, d)
    {
      var haveBuffer: bool := *;
      if !haveBuffer {
        return DmaError(c, ERR_ENGINE), ERR_ENGINE;
      }
      var fill: u8 := 0;
      if d.opcode == OP_MEM_FILL {
        var ok, data := DmaRead(d.source, 1);
        if !ok {
          return DmaError(c, ERR_DMA_READ), ERR_DMA_READ;
        }
        fill := data[0];
      } else if d.opcode == OP_VECTOR_ADD {
        var haveSecond: bool := *;
        if !haveSecond {
          return DmaError(c, ERR_ENGINE), ERR_ENGINE;
        }
      }
      var crc: Reg;
      error, crc := Chunks(d, fill);
      if error != ERR_NONE {
        return DmaError(c, error), error;
      }
      r := c;
      if d.opcode == OP_CRC32 {
        crc := Not(crc);
        r := r.(resultCrc := crc);
        if d.flags % 2 == 1 && crc != d.expectedCrc {
          r := r.(status := STATUS_FAILED, errorCode := ERR_CRC_MISMATCH, bytesProcessed := 0);
          return;
        }
      }
      r := r.(bytesProcessed := d.length);
    }

    /** The memory and the running checksum after `n` bytes of a command that found memory `m`. */
    ghost predicate Progress(m: Memory, d: Submission, n: nat, crc: Reg)
      requires Runnable(d)
      reads this
    {
      && n <= d.length
      && (d.opcode == OP_VECTOR_ADD ==> n % 4 == 0)
      && (if Writes(d.opcode) then crc == ONES && mem == WriteAt(m, d.destination, Produced(m, d, n))
          else crc == Update(ONES, Slice(m, d.source, n)) && mem == m)
    }

    /** The chunk loop: up to 64 KiB at a time until `length` bytes are done or a transfer fails. */
    method Chunks(d: Submission, fill: u8) returns (error: u16, crc: Reg)
      requires Runnable(d)
      requires d.opcode == OP_MEM_FILL ==> fill == mem[d.source]
      modifies this
      ensures error in {ERR_NONE, ERR_DMA_READ, ERR_DMA_WRITE}
      ensures error == ERR_NONE ==> Progress(old(mem), d, d.length, crc)
      ensures OnlyDestinationChanged(old(mem), mem, d)
    {
      ghost var m := mem;
      var offset: nat := 0;
      crc := ONES;
      error := ERR_NONE;
      if Writes(d.opcode) { assert Produced(m, d, 0) == []; }
      while offset < d.length
        invariant Progress(m, d, offset, crc)
        invariant OnlyDestinationChanged(m, mem, d)
        invariant error == ERR_NONE
      {
        var k := if d.length - offset < CHUNK then d.length - offset else CHUNK;
        if d.opcode == OP_CRC32 {
          error, crc := ReadChunk(m, d, offset, k, crc);
        } else {
          error := WriteChunk(m, d, fill, offset, k);
        }
        if error != ERR_NONE {
          return;
        }
        offset := offset + k;
      }
    }

    /** One turn of the loop for CRC32: read and fold in. */
    method ReadChunk(ghost m: Memory, d: Submission, offset: nat, k: nat, before: Reg)
      returns (error: u16, crc: Reg)
      requires Runnable(d) && d.opcode == OP_CRC32 && offset + k <= d.length
      requires Progress(m, d, offset, before)
      ensures error in {ERR_NONE, ERR_DMA_READ}
      ensures error == ERR_NONE ==> Progress(m, d, offset + k, crc)
    {
      var ok, buffer := DmaRead(d.source + offset, k);
      if !ok {
        return ERR_DMA_READ, before;
      }
      error := ERR_NONE;
      crc := UpdateBuffer(before, buffer);
      StreamStep(m, d, offset, k);
    }

    /** The bytes to store for one turn of the loop, from memory as it is now. */
    method Operands(d: Submission, fill: u8, offset: nat, k: nat) returns (error: u16, data: seq<u8>)
      requires Runnable(d) && Writes(d.opcode) && offset + k <= d.length
      requires d.opcode == OP_VECTOR_ADD ==> k % 4 == 0
      ensures error in {ERR_NONE, ERR_DMA_READ}
      ensures error == ERR_NONE && d.opcode == OP_MEM_COPY ==> data == Slice(mem, d.source + offset, k)
      ensures error == ERR_NONE && d.opcode == OP_MEM_FILL ==> data == Fill(fill, k)
      ensures error == ERR_NONE && d.opcode == OP_VECTOR_ADD ==>
                data == AddWords(Slice(mem, d.source + offset, k),
                                 Slice(mem, d.destination + offset, k))
    {
      error := ERR_NONE;
      if d.opcode == OP_MEM_FILL {
        data := Fill(fill, k);
        return;
      }
      var ok;
      ok, data := DmaRead(d.source + offset, k);
      if !ok {
        error := ERR_DMA_READ;
        return;
      }
      if d.opcode == OP_VECTOR_ADD {
        var operand;
        ok, operand := DmaRead(d.destination + offset, k);
        if !ok {
          error := ERR_DMA_READ;
          return;
        }
        data := Sum(data, operand);
      }
    }

    /** One turn of the loop for the storing opcodes: the stored chunk is the next piece of the result. */
    method WriteChunk(ghost m: Memory, d: Submission, fill: u8, offset: nat, k: nat) returns (error: u16)
      requires Runnable(d) && Writes(d.opcode) && offset + k <= d.length
      requires d.opcode == OP_VECTOR_ADD ==> k % 4 == 0
      requires d.opcode == OP_MEM_FILL ==> fill == m[d.source]
      requires Progress(m, d, offset, ONES) && OnlyDestinationChanged(m, mem, d)
      modifies this
      ensures error in {ERR_NONE, ERR_DMA_READ, ERR_DMA_WRITE}
      ensures error == ERR_NONE ==> Progress(m, d, offset + k, ONES)
      ensures OnlyDestinationChanged(m, mem, d)
    {
      var data;
      error, data := Operands(d, fill, offset, k);
      if error != ERR_NONE {
        return;
      }
      ChunkStores(m, d, fill, offset, k, mem, data);
      ghost var was := mem;
      var ok := DmaWrite(d.destination + offset, data);
      StaysInDestination(m, was, mem, d, offset, k);
      if !ok {
        error := ERR_DMA_WRITE;
      }
    }
  }

  lemma NextPiece(m: Memory, d: Submission, fill: u8, n: nat, k: nat, was: Memory, data: seq<u8>)
    requires Runnable(d) && Writes(d.opcode) && n + k <= d.length
    requires d.opcode == OP_VECTOR_ADD ==> n % 4 == 0 && k % 4 == 0 && (n + k) % 4 == 0
    requires was == WriteAt(m, d.destination, Produced(m, d, n))
    requires d.opcode == OP_MEM_COPY ==> data == Slice(was, d.source + n, k)
    requires d.opcode == OP_MEM_FILL ==> fill == m[d.source] && data == Fill(fill, k)
    requires d.opcode == OP_VECTOR_ADD ==>
               data == AddWords(Slice(was, d.source + n, k), Slice(was, d.destination + n, k))
    ensures |data| == k && Produced(m, d, n) + data == Produced(m, d, n + k)
  {
    if d.opcode == OP_MEM_FILL { FillAppend(fill, n, k); }
    else if d.opcode == OP_MEM_COPY { CopyStep(m, d, n, k, was); }
    else { VectorStep(m, d, n, k, was); }
  }

  lemma ChunkStores(m: Memory, d: Submission, fill: u8, n: nat, k: nat, was: Memory, data: seq<u8>)
    requires Runnable(d) && Writes(d.opcode) && n + k <= d.length
    requires d.opcode == OP_VECTOR_ADD ==> n % 4 == 0 && k % 4 == 0
    requires was == WriteAt(m, d.destination, Produced(m, d, n))
    requires d.opcode == OP_MEM_COPY ==> data == Slice(was, d.source + n, k)
    requires d.opcode == OP_MEM_FILL ==> fill == m[d.source] && data == Fill(fill, k)
    requires d.opcode == OP_VECTOR_ADD ==> data == AddWords(Slice(was, d.source + n, k),
                                                            Slice(was, d.destination + n, k))
    ensures d.opcode == OP_VECTOR_ADD ==> (n + k) % 4 == 0
    ensures |data| == k
    ensures WriteAt(was, d.destination + n, data) == WriteAt(m, d.destination, Produced(m, d, n + k))
  {
    NextPiece(m, d, fill, n, k, was, data);
    WriteAppend(m, d.destination, Produced(m, d, n), data);
  }

  /** A store inside the destination range, whole or partial, leaves the rest of memory alone. */
  lemma StaysInDestination(m: Memory, was: Memory, now: Memory, d: Submission, n: nat, k: nat)
    requires Writes(d.opcode) && n + k <= d.length && OnlyDestinationChanged(m, was, d)
    requires forall a :: 0 <= a < TWO64 && !InRange(a, d.destination + n, k) ==> now[a] == was[a]
    ensures OnlyDestinationChanged(m, now, d)
  {
  }

  // ---------------------------------------------------------------- what the one-shot engine means

  lemma {:induction false} WrittenAt(m: Memory, address: nat, data: seq<u8>, i: nat)
    requires address + |data| <= TWO64 && i < |data|
    ensures WriteAt(m, address, data)[address + i] == data[i]
    decreases |data|
  {
    if i == 0 {
      WriteElsewhere(m[address := data[0]], address + 1, data[1..], address);
    } else {
      WrittenAt(m[address := data[0]], address + 1, data[1..], i - 1);
    }
  }

  lemma {:induction false} SliceAt(m: Memory, address: nat, n: nat, i: nat)
    requires address + n <= TWO64 && i < n
    ensures Slice(m, address, n)[i] == m[address + i]
    decreases n
  {
    if i > 0 { SliceAt(m, address + 1, n - 1, i - 1); }
  }

  lemma {:induction false} LoadLeBytes(value: nat, n: nat)
    requires value < Pow2(8 * n)
    ensures Load(LeBytes(value, n)) == value
    decreases n
  {
    if n > 0 {
      assert Pow2(8 * n) == 0x100 * Pow2(8 * (n - 1)) by { Pow2Byte(8 * (n - 1)); }
      LoadLeBytes(value / 0x100, n - 1);
      assert LeBytes(value, n)[1..] == LeBytes(value / 0x100, n - 1);
    }
  }

  lemma Pow2Byte(n: nat)
    ensures Pow2(n + 8) == 0x100 * Pow2(n)
  {
    assert Pow2(n + 8) == 2 * Pow2(n + 7) && Pow2(n + 7) == 2 * Pow2(n + 6) && Pow2(n + 6) == 2 * Pow2(n + 5);
    assert Pow2(n + 5) == 2 * Pow2(n + 4) && Pow2(n + 4) == 2 * Pow2(n + 3) && Pow2(n + 3) == 2 * Pow2(n + 2);
    assert Pow2(n + 2) == 2 * Pow2(n + 1) && Pow2(n + 1) == 2 * Pow2(n);
  }

  lemma LoadStore(v: u32)
    ensures Load(WordBytes(v)) == v
  {
    Pow2Values();
    LoadLeBytes(v, 4);
  }

  /** Word number `w` of a vector, as its four bytes. */
  function WordAt(s: seq<u8>, w: nat): (r: seq<u8>)
    requires 4 * w + 4 <= |s|
    ensures |r| == 4
    decreases w, s
  {
    if w == 0 then s[..4] else WordAt(s[4..], w - 1)
  }

  lemma {:induction false} AddWordsParts(a: seq<u8>, b: seq<u8>)
    requires |a| == |b| && |a| % 4 == 0 && |a| >= 4
    ensures AddWords(a, b)[..4] == AddWord(a[..4], b[..4]) && AddWords(a, b)[4..] == AddWords(a[4..], b[4..])
  {
  }

  /** Word `w` of a vector sum is the sum of the words number `w`. */
  lemma {:induction false} AddWordsWordAt(a: seq<u8>, b: seq<u8>, w: nat)
    requires |a| == |b| && |a| % 4 == 0 && 4 * w + 4 <= |a|
    ensures WordAt(AddWords(a, b), w) == AddWord(WordAt(a, w), WordAt(b, w))
    decreases w
  {
    AddWordsParts(a, b);
    if w > 0 { AddWordsWordAt(a[4..], b[4..], w - 1); }
  }

  /** ... and two words are added modulo 2^32. */
  lemma {:induction false} AddWordMeaning(x: seq<u8>, y: seq<u8>)
    requires |x| == |y| == 4
    ensures Load(AddWord(x, y)) == Wrap32(Load(x) + Load(y))
  {
    LoadStore(Wrap32(Load(x) + Load(y)));
  }

  /** Byte by byte: a copy moves the source, a fill repeats one byte, a sum is the sum, and nothing else moves. */
  lemma {:induction false} WholeMemoryAt(m: Memory, d: Submission, a: nat)
    requires Runnable(d) && a < TWO64
    ensures !(Writes(d.opcode) && InRange(a, d.destination, d.length)) ==> WholeMemory(m, d)[a] == m[a]
    ensures d.opcode == OP_MEM_COPY && InRange(a, d.destination, d.length) ==>
              WholeMemory(m, d)[a] == m[d.source + (a - d.destination)]
    ensures d.opcode == OP_MEM_FILL && InRange(a, d.destination, d.length) ==> WholeMemory(m, d)[a] == m[d.source]
    ensures d.opcode == OP_VECTOR_ADD && InRange(a, d.destination, d.length) ==>
              var sum := AddWords(Slice(m, d.source, d.length), Slice(m, d.destination, d.length));
              WholeMemory(m, d)[a] == sum[a - d.destination]
  {
    if Writes(d.opcode) {
      var data := Produced(m, d, d.length);
      if InRange(a, d.destination, d.length) {
        WrittenAt(m, d.destination, data, a - d.destination);
        if d.opcode == OP_MEM_COPY { SliceAt(m, d.source, d.length, a - d.destination); }
      } else {
        WriteElsewhere(m, d.destination, data, a);
      }
    }
  }

  lemma {:induction false} SliceParts(m: Memory, address: nat, n: nat)
    requires address + n <= TWO64 && n >= 4
    ensures Slice(m, address, n)[..4] == Slice(m, address, 4)
    ensures Slice(m, address, n)[4..] == Slice(m, address + 4, n - 4)
  {
    SliceAppend(m, address, 4, n - 4);
  }

  lemma {:induction false} WordOfSlice(m: Memory, address: nat, n: nat, w: nat)
    requires address + n <= TWO64 && 4 * w + 4 <= n
    ensures WordAt(Slice(m, address, n), w) == Slice(m, address + 4 * w, 4)
    decreases w
  {
    SliceParts(m, address, n);
    if w > 0 {
      WordOfSlice(m, address + 4, n - 4, w - 1);
      assert WordAt(Slice(m, address, n), w) == WordAt(Slice(m, address, n)[4..], w - 1);
    }
  }

  lemma {:induction false} SliceOfWrite(m: Memory, address: nat, data: seq<u8>)
    requires address + |data| <= TWO64
    ensures Slice(WriteAt(m, address, data), address, |data|) == data
  {
    forall i | 0 <= i < |data|
      ensures Slice(WriteAt(m, address, data), address, |data|)[i] == data[i]
    {
      SliceAt(WriteAt(m, address, data), address, |data|, i);
      WrittenAt(m, address, data, i);
    }
  }

  lemma {:induction false} WordOfWrite(m: Memory, address: nat, data: seq<u8>, w: nat)
    requires address + |data| <= TWO64 && 4 * w + 4 <= |data|
    ensures Slice(WriteAt(m, address, data), address + 4 * w, 4) == WordAt(data, w)
  {
    SliceOfWrite(m, address, data);
    WordOfSlice(WriteAt(m, address, data), address, |data|, w);
  }

  /** Word `w` of a vector sum is, as a number, the sum modulo 2^32 of the two words. */
  lemma {:induction false} SumAt(a: seq<u8>, b: seq<u8>, w: nat)
    requires |a| == |b| && |a| % 4 == 0 && 4 * w + 4 <= |a|
    ensures Load(WordAt(AddWords(a, b), w)) == Wrap32(Load(WordAt(a, w)) + Load(WordAt(b, w)))
  {
    AddWordsWordAt(a, b, w);
    AddWordMeaning(WordAt(a, w), WordAt(b, w));
  }

  lemma {:induction false} StoredSumAt(m: Memory, source: nat, destination: nat, n: nat, w: nat)
    requires source + n <= TWO64 && destination + n <= TWO64 && n % 4 == 0 && 4 * w + 4 <= n
    ensures var sum := AddWords(Slice(m, source, n), Slice(m, destination, n));
            Load(Slice(WriteAt(m, destination, sum), destination + 4 * w, 4)) ==
            Wrap32(Load(Slice(m, source + 4 * w, 4)) + Load(Slice(m, destination + 4 * w, 4)))
  {
    var a, b := Slice(m, source, n), Slice(m, destination, n);
    SumAt(a, b, w);
    WordOfWrite(m, destination, AddWords(a, b), w);
    WordOfSlice(m, source, n, w);
    WordOfSlice(m, destination, n, w);
  }

  /** VECTOR_ADD, word by word: the destination word becomes the sum modulo 2^32 of the two words found. */
  lemma {:induction false} WholeVectorAt(m: Memory, d: Submission, w: nat)
    requires Runnable(d) && d.opcode == OP_VECTOR_ADD && 4 * w + 4 <= d.length
    ensures Load(Slice(WholeMemory(m, d), d.destination + 4 * w, 4)) ==
            Wrap32(Load(Slice(m, d.source + 4 * w, 4)) + Load(Slice(m, d.destination + 4 * w, 4)))
  {
    StoredSumAt(m, d.source, d.destination, d.length, w);
  }
}
