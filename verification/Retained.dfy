/**
 The CRC-protected crash record: its image in the retention window, its validation, and how it is
 kept across notes and warm resets.
 */
module RetainedImage {
  import opened Abi
  import opened Crc32

  const MAGIC: u32 := 0x56414d52
  const VERSION: u16 := 1
  const WORDS := 30
  const LENGTH: u16 := 120
  const CRC_WORD := 2
  const SLOTS := 4

  datatype Event = Event(id: u32, command: u32, generation: u32, timestamp: u32)

  const NO_EVENT := Event(0, 0, 0, 0)

  datatype Record = Record(
    magic: u32, version: u16, length: u16, crc: u32,
    bootCount: u32, resetReason: u32, resetGeneration: u32,
    stuckTask: u32, healthFailures: u32, commandId: u32, commandGeneration: u32,
    assertion: u32, stackFailure: u32, eventHead: u32, eventCount: u32,
    events: seq<Event>)

  // ---------------------------------------------------------------- the image

  function EventWords(events: seq<Event>): (words: seq<u32>)
    ensures |words| == 4 * |events|
  {
    if events == [] then []
    else [events[0].id, events[0].command, events[0].generation, events[0].timestamp] + EventWords(events[1..])
  }

  function WordEvents(words: seq<u32>): (events: seq<Event>)
    requires |words| % 4 == 0
    ensures 4 * |events| == |words|
  {
    if words == [] then [] else [Event(words[0], words[1], words[2], words[3])] + WordEvents(words[4..])
  }

  function Header(r: Record): (words: seq<u32>)
    ensures |words| == 14
  {
    [r.magic, r.version + 0x1_0000 * r.length, r.crc, r.bootCount, r.resetReason, r.resetGeneration, r.stuckTask,
     r.healthFailures, r.commandId, r.commandGeneration, r.assertion, r.stackFailure, r.eventHead, r.eventCount]
  }

  function Encode(r: Record): (words: seq<u32>)
    requires |r.events| == SLOTS
    ensures |words| == WORDS
  {
    Header(r) + EventWords(r.events)
  }

  function Decode(w: seq<u32>): (r: Record)
    requires |w| == WORDS
    ensures |r.events| == SLOTS
  {
    Record(w[0], w[1] % 0x1_0000, w[1] / 0x1_0000, w[2], w[3], w[4], w[5], w[6], w[7], w[8], w[9], w[10], w[11],
           w[12], w[13],
           WordEvents(w[14..]))
  }

  lemma {:induction false} EventsRoundTrip(events: seq<Event>)
    ensures WordEvents(EventWords(events)) == events
    decreases |events|
  {
    if events != [] {
      EventsRoundTrip(events[1..]);
      assert EventWords(events)[4..] == EventWords(events[1..]);
    }
  }

  lemma {:induction false} WordsRoundTrip(words: seq<u32>)
    requires |words| % 4 == 0
    ensures EventWords(WordEvents(words)) == words
    decreases |words|
  {
    if words != [] {
      WordsRoundTrip(words[4..]);
      assert words == [words[0], words[1], words[2], words[3]] + words[4..];
      assert WordEvents(words)[1..] == WordEvents(words[4..]);
    }
  }

  lemma {:induction false} EventLayout(events: seq<Event>, k: nat)
    requires k < |events|
    ensures EventWords(events)[4 * k..4 * k + 4] ==
            [events[k].id, events[k].command, events[k].generation, events[k].timestamp]
    decreases k
  {
    if k > 0 {
      EventLayout(events[1..], k - 1);
      assert EventWords(events)[4..] == EventWords(events[1..]);
      assert EventWords(events)[4 * k..4 * k + 4] == EventWords(events)[4..][4 * (k - 1)..4 * (k - 1) + 4];
    }
  }

  /** Where the window keeps what: the record's own words, and the k-th slot at word 14 + 4k. */
  lemma ImageLayout(r: Record, k: nat)
    requires |r.events| == SLOTS && k < SLOTS
    ensures var w := Encode(r);
            && w[0] == r.magic && w[1] % 0x1_0000 == r.version && w[1] / 0x1_0000 == r.length && w[2] == r.crc
            && w[3] == r.bootCount && w[4] == r.resetReason && w[5] == r.resetGeneration
            && w[6] == r.stuckTask && w[7] == r.healthFailures
            && w[8] == r.commandId && w[9] == r.commandGeneration && w[10] == r.assertion && w[11] == r.stackFailure
            && w[12] == r.eventHead && w[13] == r.eventCount
            && w[14 + 4 * k..18 + 4 * k] ==
               [r.events[k].id, r.events[k].command, r.events[k].generation, r.events[k].timestamp]
  {
    EventLayout(r.events, k);
    assert Encode(r)[14 + 4 * k..18 + 4 * k] == EventWords(r.events)[4 * k..4 * k + 4];
  }

  /** Nothing is lost between the record and the window, in either direction. */
  lemma RecordRoundTrip(r: Record)
    requires |r.events| == SLOTS
    ensures Decode(Encode(r)) == r
  {
    assert Encode(r)[14..] == EventWords(r.events);
    EventsRoundTrip(r.events);
  }

  lemma WindowRoundTrip(w: seq<u32>)
    requires |w| == WORDS
    ensures Encode(Decode(w)) == w
  {
    WordsRoundTrip(w[14..]);
    assert Header(Decode(w)) == w[..14];
    assert w == w[..14] + w[14..];
  }

  // ---------------------------------------------------------------- checksum and validation

  function Bytes(words: seq<u32>): (bytes: seq<u8>)
    ensures |bytes| == 4 * |words|
  {
    if words == [] then [] else WordBytes(words[0]) + Bytes(words[1..])
  }

  /** The checksum of an image, taken with its own field as zero. */
  function Seal(w: seq<u32>): Reg
    requires |w| == WORDS
  {
    Checksum(Bytes(w[CRC_WORD := 0]))
  }

  /** `vams_retained_crc32`: the byte loop reads the checksum's own four bytes as zero. */
  method ComputeSeal(bytes: seq<u8>, ghost w: seq<u32>) returns (crc: Reg)
    requires |w| == WORDS && bytes == Bytes(w)
    ensures crc == Seal(w)
  {
    ghost var zeroed := Bytes(w[CRC_WORD := 0]);
    crc := ONES;
    var index := 0;
    while index < |bytes|
      invariant 0 <= index <= |bytes| == |zeroed|
      invariant Update(crc, zeroed[index..]) == Update(ONES, zeroed)
    {
      var value := if 4 * CRC_WORD <= index < 4 * CRC_WORD + 4 then 0 else bytes[index];
      ZeroedAt(w, index);
      assert zeroed[index..][1..] == zeroed[index + 1..];
      crc := UpdateByte(crc, value);
      index := index + 1;
    }
    crc := Not(crc);
  }

  lemma {:induction false} BytesConcat(s: seq<u32>, t: seq<u32>)
    ensures Bytes(s + t) == Bytes(s) + Bytes(t)
    decreases |s|
  {
    if s == [] {
      assert s + t == t;
    } else {
      assert (s + t)[1..] == s[1..] + t;
      BytesConcat(s[1..], t);
    }
  }

  lemma {:induction false} BytesSplit(w: seq<u32>, i: nat)
    requires i < |w|
    ensures Bytes(w) == Bytes(w[..i]) + WordBytes(w[i]) + Bytes(w[i + 1..])
    decreases i
  {
    if i > 0 {
      var rest := w[1..];
      BytesSplit(rest, i - 1);
      assert rest[..i - 1] == w[..i][1..] && rest[i - 1 + 1..] == w[i + 1..];
    }
  }

  lemma ZeroBytes()
    ensures WordBytes(0) == [0, 0, 0, 0]
  {
  }

  lemma ZeroedAt(w: seq<u32>, k: nat)
    requires |w| == WORDS && k < 4 * WORDS
    ensures Bytes(w[CRC_WORD := 0])[k] == if 4 * CRC_WORD <= k < 4 * CRC_WORD + 4 then 0 else Bytes(w)[k]
  {
    var z := w[CRC_WORD := 0];
    BytesSplit(w, CRC_WORD);
    BytesSplit(z, CRC_WORD);
    assert z[..CRC_WORD] == w[..CRC_WORD] && z[CRC_WORD + 1..] == w[CRC_WORD + 1..];
    ZeroBytes();
  }

  /** `vams_retained_validate`. */
  predicate Validates(r: Record)
    requires |r.events| == SLOTS
  {
    r.magic == MAGIC && r.version == VERSION && r.length == LENGTH && WordBits(r.crc) == Seal(Encode(r))
  }

  /** A window is accepted when the record read from it validates. */
  predicate Accepted(w: seq<u32>)
    requires |w| == WORDS
  {
    Validates(Decode(w))
  }

  /** Exactly: the fixed words, and the checksum of everything else with its own word read as zero. */
  lemma AcceptedExactly(w: seq<u32>)
    requires |w| == WORDS
    ensures Accepted(w) <==>
            && w[0] == 0x56414d52 && w[1] == 0x0078_0001
            && WordBits(w[2]) == Checksum(Bytes(w[..2] + [0] + w[3..]))
  {
    WindowRoundTrip(w);
    assert w[CRC_WORD := 0] == w[..2] + [0] + w[3..];
  }

  /** `vams_retained_commit` up to the write: the record with its checksum set. */
  function Sealed(r: Record): Record
    requires |r.events| == SLOTS
  {
    r.(crc := WordOf(Seal(Encode(r))))
  }

  lemma SealIgnoresCrc(r: Record, crc: u32)
    requires |r.events| == SLOTS
    ensures Seal(Encode(r.(crc := crc))) == Seal(Encode(r))
  {
    assert Encode(r.(crc := crc))[CRC_WORD := 0] == Encode(r)[CRC_WORD := 0];
  }

  /** A sealed record validates, whatever it holds, once its fixed fields are right. */
  lemma SealedValidates(r: Record)
    requires |r.events| == SLOTS && r.magic == MAGIC && r.version == VERSION && r.length == LENGTH
    ensures Validates(Sealed(r)) && Accepted(Encode(Sealed(r)))
  {
    SealIgnoresCrc(r, Sealed(r).crc);
    RecordRoundTrip(Sealed(r));
  }

  // ---------------------------------------------------------------- detection

  lemma {:induction false} UpdateInjective(a: Reg, b: Reg, bytes: seq<u8>)
    requires Update(a, bytes) == Update(b, bytes)
    ensures a == b
  {
    UpdateIsFeed(a, bytes);
    UpdateIsFeed(b, bytes);
    FeedInjective(a, b, MessageBits(bytes));
  }

  lemma {:induction false} WordUpdateInjective(crc: Reg, x: u32, y: u32)
    requires Update(crc, WordBytes(x)) == Update(crc, WordBytes(y))
    ensures x == y
  {
    UpdateIsFeed(crc, WordBytes(x));
    UpdateIsFeed(crc, WordBytes(y));
    WordBytesBits(x);
    WordBytesBits(y);
    BlockFeedInjective(crc, WordBits(x), WordBits(y));
    WordBitsInjective(x, y);
  }

  lemma UpdateParts(crc: Reg, w: seq<u32>, i: nat)
    requires i < |w|
    ensures Update(crc, Bytes(w)) == Update(Update(Update(crc, Bytes(w[..i])), WordBytes(w[i])), Bytes(w[i + 1..]))
  {
    BytesSplit(w, i);
    UpdateConcat(crc, Bytes(w[..i]) + WordBytes(w[i]), Bytes(w[i + 1..]));
    UpdateConcat(crc, Bytes(w[..i]), WordBytes(w[i]));
  }

  /** Images that differ in one word have different checksums. */
  lemma OneWordChangesSeal(w: seq<u32>, i: nat, value: u32)
    requires |w| == WORDS && i < WORDS && i != CRC_WORD && value != w[i]
    ensures Seal(w[i := value]) != Seal(w)
  {
    var x, y := w[CRC_WORD := 0], w[i := value][CRC_WORD := 0];
    assert y[..i] == x[..i] && y[i + 1..] == x[i + 1..] && y[i] == value && x[i] == w[i];
    if Seal(w[i := value]) == Seal(w) {
      XorCancel(Update(ONES, Bytes(x)), Update(ONES, Bytes(y)), ONES);
      UpdateParts(ONES, x, i);
      UpdateParts(ONES, y, i);
      var before := Update(ONES, Bytes(x[..i]));
      UpdateInjective(Update(before, WordBytes(w[i])), Update(before, WordBytes(value)), Bytes(x[i + 1..]));
      WordUpdateInjective(before, w[i], value);
    }
  }

  /** An accepted window with any one word changed, the checksum word included, is never accepted. */
  lemma OneWordIsDetected(w: seq<u32>, i: nat, value: u32)
    requires |w| == WORDS && Accepted(w) && i < WORDS && value != w[i]
    ensures !Accepted(w[i := value])
  {
    var v := w[i := value];
    WindowRoundTrip(w);
    WindowRoundTrip(v);
    if i == CRC_WORD {
      assert v[CRC_WORD := 0] == w[CRC_WORD := 0];
      if WordBits(v[CRC_WORD]) == Seal(v) {
        WordBitsInjective(v[CRC_WORD], w[CRC_WORD]);
      }
    } else {
      OneWordChangesSeal(w, i, value);
    }
  }
}

/**
 What boots and notes make of the record, and what its four-slot event ring holds.
 */
module RetainedNotes {
  import opened Abi
  import opened RetainedImage

  /** Whatever is recorded between two cold boots. */
  datatype Note =
    | Health(stuckTask: u32, failures: u32)
    | Command(id: u32, generation: u32)
    | ClearCommand
    | Happened(event: Event)
    | WarmReset(reason: u32, generation: u32)

  /** `vams_retained_format` before its checksum is set. */
  function Formatted(reason: u32, generation: u32): Record {
    Record(MAGIC, VERSION, LENGTH, 0, 1, reason, generation, 0, 0, 0, 0, 0, 0, 0, 0,
           [NO_EVENT, NO_EVENT, NO_EVENT, NO_EVENT])
  }

  function Booted(r: Record, reason: u32, generation: u32): Record {
    r.(bootCount := SatInc(r.bootCount), resetReason := reason, resetGeneration := generation)
  }

  /** The record after an event: stored at the head, which moves on. */
  function Stored(r: Record, e: Event): Record
    requires |r.events| == SLOTS && r.eventHead < SLOTS
  {
    r.(events := r.events[r.eventHead := e], eventHead := (r.eventHead + 1) % SLOTS,
       eventCount := if r.eventCount < SLOTS then r.eventCount + 1 else r.eventCount)
  }

  /** The store a note makes, if it makes one, falls inside the ring. */
  predicate Lands(r: Record, note: Note) { note.Happened? ==> r.eventHead < SLOTS }

  /** What a note changes, before the checksum is set. */
  function Changed(r: Record, note: Note): (t: Record)
    requires |r.events| == SLOTS && Lands(r, note)
    ensures |t.events| == SLOTS
  {
    match note
    case Health(stuckTask, failures) => r.(stuckTask := stuckTask, healthFailures := failures)
    case Command(id, generation) => r.(commandId := id, commandGeneration := generation)
    case ClearCommand => r.(commandId := 0, commandGeneration := 0)
    case Happened(event) => Stored(r, event)
    case WarmReset(reason, generation) => Booted(r, reason, generation)
  }

  function Noted(r: Record, note: Note): (t: Record)
    requires |r.events| == SLOTS && Lands(r, note)
    ensures |t.events| == SLOTS
  {
    Sealed(Changed(r, note))
  }

  predicate AllLand(r: Record, notes: seq<Note>)
    requires |r.events| == SLOTS
    decreases |notes|
  {
    notes == [] || (Lands(r, notes[0]) && AllLand(Noted(r, notes[0]), notes[1..]))
  }

  /** The record after all of `notes`. */
  function After(r: Record, notes: seq<Note>): (t: Record)
    requires |r.events| == SLOTS && AllLand(r, notes)
    ensures |t.events| == SLOTS
    decreases |notes|
  {
    if notes == [] then r else After(Noted(r, notes[0]), notes[1..])
  }

  function EventOf(note: Note): (events: seq<Event>)
    ensures |events| <= 1
  {
    if note.Happened? then [note.event] else []
  }

  /** The events among the notes, in order. */
  function Events(notes: seq<Note>): (events: seq<Event>)
    ensures |events| <= |notes|
  {
    if notes == [] then [] else EventOf(notes[0]) + Events(notes[1..])
  }

  /** How often the machine was reset, and the last note of each kind. */
  function Boots(notes: seq<Note>): nat {
    if notes == [] then 0 else (if notes[0].WarmReset? then 1 else 0) + Boots(notes[1..])
  }

  /** The number, or 2^32 - 1 from there on. */
  function Capped(n: nat): nat { if n < 0xffff_ffff then n else 0xffff_ffff }

  /** Of a kind of note: the last of them, if there is one. */
  function Latest(notes: seq<Note>, kind: Note -> bool): Option<Note>
    decreases |notes|
  {
    if notes == [] then None
    else
      var later := Latest(notes[1..], kind);
      if later.None? && kind(notes[0]) then Some(notes[0]) else later
  }

  function OfHealth(note: Note): bool { note.Health? }
  function OfCommand(note: Note): bool { note.Command? || note.ClearCommand? }
  function OfReset(note: Note): bool { note.WarmReset? }

  /** The window holds the record, and would be accepted. */
  ghost predicate Kept(r: Record, w: seq<u32>) {
    |r.events| == SLOTS && Validates(r) && w == Encode(r) && Accepted(w)
  }

  // ---------------------------------------------------------------- what the ring holds

  /** Number `m` of the events counted from where the head stood at `start`. */
  predicate InRing(r: Record, start: nat, all: seq<Event>, m: nat)
    requires |r.events| == SLOTS && m < |all|
  {
    r.events[(start + m) % SLOTS] == all[m]
  }

  /** The ring holds exactly the last four of `all`. */
  ghost predicate HoldsLast(r: Record, start: nat, all: seq<Event>) {
    && |r.events| == SLOTS && |all| >= SLOTS
    && r.eventHead == (start + |all|) % SLOTS
    && forall m: nat :: |all| - SLOTS <= m < |all| ==> InRing(r, start, all, m)
  }

  /** The four slots, oldest first. */
  function Unrolled(r: Record): (events: seq<Event>)
    requires |r.events| == SLOTS && r.eventHead < SLOTS
    ensures |events| == SLOTS
  {
    seq(SLOTS, j requires 0 <= j < SLOTS => r.events[(r.eventHead + j) % SLOTS])
  }

  function Saturated(count: u32, n: nat): nat {
    if count >= SLOTS then count else if count + n < SLOTS then count + n else SLOTS
  }
}

/**
 When event stores land inside the ring, and what the ring then holds.
 */
module RetainedEvents {
  import opened Abi
  import opened RetainedImage
  import opened RetainedNotes

  // ---------------------------------------------------------------- acceptance and the head

  /** A cleared window is not accepted. */
  lemma ClearedIsRefused(w: seq<u32>)
    requires |w| == WORDS && forall i :: 0 <= i < WORDS ==> w[i] == 0
    ensures !Accepted(w)
  {
  }

  /** Acceptance does not bound the head: a window not kept by this code can be accepted with any head. */
  lemma AcceptedWithAnyHead(r: Record, head: u32)
    requires |r.events| == SLOTS && r.magic == MAGIC && r.version == VERSION && r.length == LENGTH
    ensures var w := Encode(Sealed(r.(eventHead := head)));
            Accepted(w) && Decode(w).eventHead == head
  {
    SealedValidates(r.(eventHead := head));
    RecordRoundTrip(Sealed(r.(eventHead := head)));
  }

  /** Over any notes and warm resets, every store lands exactly when the head starts inside or no event is noted. */
  lemma {:induction false} LandExactly(r: Record, notes: seq<Note>)
    requires |r.events| == SLOTS
    ensures AllLand(r, notes) <==> r.eventHead < SLOTS || Events(notes) == []
    decreases |notes|
  {
    if notes != [] && Lands(r, notes[0]) {
      LandExactly(Noted(r, notes[0]), notes[1..]);
    }
  }

  /** So after a boot that accepted `w`, the head the window holds decides. */
  lemma {:induction false} AcceptedLandsExactly(w: seq<u32>, reason: u32, generation: u32, notes: seq<Note>)
    requires |w| == WORDS && Accepted(w)
    ensures AllLand(Sealed(Booted(Decode(w), reason, generation)), notes) <==>
            Decode(w).eventHead < SLOTS || Events(notes) == []
  {
    LandExactly(Sealed(Booted(Decode(w), reason, generation)), notes);
  }

  // ---------------------------------------------------------------- what the ring holds

  lemma NextSlots(n: nat)
    ensures (n + 1) % SLOTS == (n % SLOTS + 1) % SLOTS
    ensures forall k :: n - SLOTS < k < n && k >= 0 ==> k % SLOTS != n % SLOTS
  {
  }

  lemma StoreKeepsLast(r: Record, start: nat, all: seq<Event>, e: Event)
    requires HoldsLast(r, start, all)
    ensures r.eventHead < SLOTS && HoldsLast(Stored(r, e), start, all + [e])
  {
    var t, more := Stored(r, e), all + [e];
    NextSlots(start + |all|);
    forall m: nat | |more| - SLOTS <= m < |more| ensures InRing(t, start, more, m) {
      if m < |all| {
        assert InRing(r, start, all, m);
      }
    }
  }

  lemma SameRing(r: Record, t: Record, start: nat, all: seq<Event>)
    requires HoldsLast(r, start, all) && t.events == r.events && t.eventHead == r.eventHead
    ensures HoldsLast(t, start, all)
  {
    forall m: nat | |all| - SLOTS <= m < |all| ensures InRing(t, start, all, m) {
      assert InRing(r, start, all, m);
    }
  }

  lemma NoteFollows(r: Record, start: nat, all: seq<Event>, note: Note)
    requires HoldsLast(r, start, all) && Lands(r, note)
    ensures HoldsLast(Noted(r, note), start, all + EventOf(note))
  {
    if note.Happened? {
      StoreKeepsLast(r, start, all, note.event);
      SameRing(Stored(r, note.event), Noted(r, note), start, all + [note.event]);
    } else {
      SameRing(r, Noted(r, note), start, all);
      assert all + EventOf(note) == all;
    }
  }

  lemma {:induction false} RingFollows(r: Record, start: nat, all: seq<Event>, notes: seq<Note>)
    requires HoldsLast(r, start, all) && AllLand(r, notes)
    ensures HoldsLast(After(r, notes), start, all + Events(notes))
    decreases |notes|
  {
    if notes == [] {
      assert all + Events(notes) == all;
    } else {
      var next, more := Noted(r, notes[0]), all + EventOf(notes[0]);
      NoteFollows(r, start, all, notes[0]);
      RingFollows(next, start, more, notes[1..]);
      assert Events(notes) == EventOf(notes[0]) + Events(notes[1..]);
      assert more + Events(notes[1..]) == all + Events(notes);
      assert After(r, notes) == After(next, notes[1..]);
    }
  }

  lemma {:induction false} CountFollows(r: Record, notes: seq<Note>)
    requires |r.events| == SLOTS && AllLand(r, notes)
    ensures After(r, notes).eventCount == Saturated(r.eventCount, |Events(notes)|)
    decreases |notes|
  {
    if notes != [] {
      CountFollows(Noted(r, notes[0]), notes[1..]);
    }
  }

  // ---------------------------------------------------------------- what the other fields hold

  /** Each field holds what the last note about it said; the boots are counted up to 2^32 - 1. */
  ghost predicate Follows(r: Record, t: Record, notes: seq<Note>) {
    var health, command, reset := Latest(notes, OfHealth), Latest(notes, OfCommand), Latest(notes, OfReset);
    && t.bootCount == Capped(r.bootCount + Boots(notes))
    && (match health
        case Some(Health(stuckTask, failures)) => t.stuckTask == stuckTask && t.healthFailures == failures
        case _ => t.stuckTask == r.stuckTask && t.healthFailures == r.healthFailures)
    && (match command
        case Some(Command(id, generation)) => t.commandId == id && t.commandGeneration == generation
        case Some(_) => t.commandId == 0 && t.commandGeneration == 0
        case None => t.commandId == r.commandId && t.commandGeneration == r.commandGeneration)
    && (match reset
        case Some(WarmReset(reason, generation)) => t.resetReason == reason && t.resetGeneration == generation
        case _ => t.resetReason == r.resetReason && t.resetGeneration == r.resetGeneration)
  }

  lemma {:induction false} LatestIsOfKind(notes: seq<Note>, kind: Note -> bool)
    ensures Latest(notes, kind).Some? ==> kind(Latest(notes, kind).value)
    decreases |notes|
  {
    if notes != [] {
      LatestIsOfKind(notes[1..], kind);
    }
  }

  lemma {:induction false} FieldsFollow(r: Record, notes: seq<Note>)
    requires |r.events| == SLOTS && AllLand(r, notes)
    ensures Follows(r, After(r, notes), notes)
    decreases |notes|
  {
    if notes != [] {
      FieldsFollow(Noted(r, notes[0]), notes[1..]);
      LatestIsOfKind(notes[1..], OfHealth);
      LatestIsOfKind(notes[1..], OfCommand);
      LatestIsOfKind(notes[1..], OfReset);
    }
  }

  /**
   From any record with its head inside: the ring goes on holding the last four of what it held,
   oldest first, followed by the events noted, and the count saturates at four.
   */
  lemma {:induction false} RingHoldsLast(r: Record, notes: seq<Note>)
    requires |r.events| == SLOTS && r.eventHead < SLOTS
    ensures AllLand(r, notes) && HoldsLast(After(r, notes), r.eventHead, Unrolled(r) + Events(notes))
    ensures After(r, notes).eventCount == Saturated(r.eventCount, |Events(notes)|)
  {
    LandExactly(r, notes);
    assert forall m: nat :: m < SLOTS ==> InRing(r, r.eventHead, Unrolled(r), m);
    RingFollows(r, r.eventHead, Unrolled(r), notes);
    CountFollows(r, notes);
  }

  lemma LastInRing(r: Record, found: seq<Event>, noted: seq<Event>, n: nat)
    requires HoldsLast(r, 0, found + noted) && |found| == SLOTS && n < |noted| <= n + SLOTS
    ensures r.events[n % SLOTS] == noted[n]
  {
    assert InRing(r, 0, found + noted, SLOTS + n);
  }

  /** From a formatted record: entry n of the events noted is in slot n modulo 4, for the last four. */
  lemma {:induction false} FormattedHoldsLast(reason: u32, generation: u32, notes: seq<Note>, n: nat)
    requires n < |Events(notes)| && |Events(notes)| <= n + SLOTS
    ensures var r := Sealed(Formatted(reason, generation));
            AllLand(r, notes) && After(r, notes).events[n % SLOTS] == Events(notes)[n]
  {
    var r := Sealed(Formatted(reason, generation));
    RingHoldsLast(r, notes);
    LastInRing(After(r, notes), Unrolled(r), Events(notes), n);
  }
}

/**
 The record across notes and warm resets, with commits to the window taken as atomic.
 */
module Retained {
  import opened Abi
  import opened RetainedImage
  import opened RetainedNotes
  import opened RetainedEvents

  method PutEvent(r: Record, e: Event) returns (next: Record)
    requires |r.events| == SLOTS && r.eventHead < SLOTS
    ensures next == Stored(r, e)
  {
    next := r.(events := r.events[r.eventHead := e]);
    next := next.(eventHead := (next.eventHead + 1) % SLOTS);
    if next.eventCount < SLOTS {
      next := next.(eventCount := next.eventCount + 1);
    }
  }

  class Keeper {
    var record: Record
    /** The retention window, which survives a warm reset. */
    var window: seq<u32>

    ghost predicate Valid()
      reads this
    {
      Kept(record, window)
    }

    /** `vams_retained_boot` over any window: a refused one is formatted, an accepted one kept but for boot fields. */
    constructor (found: seq<u32>, reason: u32, generation: u32)
      requires |found| == WORDS
      ensures Valid()
      ensures record == Sealed(if Accepted(found) then Booted(Decode(found), reason, generation)
                               else Formatted(reason, generation))
      ensures record.bootCount == (if Accepted(found) then Capped(Decode(found).bootCount + 1) else 1)
      ensures record.resetReason == reason && record.resetGeneration == generation
      ensures !Accepted(found) ==>
                && record.stuckTask == record.healthFailures == record.commandId == record.commandGeneration == 0
                && record.assertion == record.stackFailure == record.eventHead == record.eventCount == 0
    {
      var next := if Accepted(found) then Booted(Decode(found), reason, generation) else Formatted(reason, generation);
      SealedValidates(next);
      record := Sealed(next);
      window := Encode(Sealed(next));
    }

    /** `vams_retained_commit`: seal the record and write it out. */
    method Commit()
      requires |record.events| == SLOTS
      requires record.magic == MAGIC && record.version == VERSION && record.length == LENGTH
      modifies this`record, this`window
      ensures Valid() && record == Sealed(old(record))
    {
      SealedValidates(record);
      record := Sealed(record);
      window := Encode(record);
    }

    /**
     `vams_retained_boot` after a warm reset: the record in memory is gone and is read back from the
     window, which is accepted; only the boot count, the reason, the generation and the checksum change.
     */
    method Boot(reason: u32, generation: u32) returns (valid: bool)
      requires Valid()
      modifies this`record, this`window
      ensures Valid() && valid
      ensures record == Noted(old(record), WarmReset(reason, generation))
      ensures record == Booted(old(record), reason, generation).(crc := record.crc)
    {
      RecordRoundTrip(record);
      record := Decode(window);
      valid := Validates(record);
      if !valid {
        assert false;
      }
      record := record.(bootCount := SatInc(record.bootCount));
      record := record.(resetReason := reason);
      record := record.(resetGeneration := generation);
      Commit();
    }

    method NoteHealth(stuckTask: u32, failures: u32)
      requires Valid()
      modifies this`record, this`window
      ensures Valid() && record == Noted(old(record), Health(stuckTask, failures))
      ensures record == old(record).(stuckTask := stuckTask, healthFailures := failures, crc := record.crc)
    {
      record := record.(stuckTask := stuckTask, healthFailures := failures);
      Commit();
    }

    method NoteCommand(id: u32, generation: u32)
      requires Valid()
      modifies this`record, this`window
      ensures Valid() && record == Noted(old(record), Command(id, generation))
      ensures record == old(record).(commandId := id, commandGeneration := generation, crc := record.crc)
    {
      record := record.(commandId := id, commandGeneration := generation);
      Commit();
    }

    /** The ring is written at the head, which has to be inside it. */
    method NoteEvent(e: Event)
      requires Valid() && record.eventHead < SLOTS
      modifies this`record, this`window
      ensures Valid() && record.eventHead < SLOTS && record == Noted(old(record), Happened(e))
      ensures record.events == old(record).events[old(record).eventHead := e]
    {
      record := PutEvent(record, e);
      Commit();
    }

    method Note(note: Note)
      requires Valid() && Lands(record, note)
      modifies this
      ensures Valid() && record == Noted(old(record), note)
    {
      match note
      case Health(stuckTask, failures) => NoteHealth(stuckTask, failures);
      case Command(id, generation) => NoteCommand(id, generation);
      case ClearCommand => NoteCommand(0, 0);
      case Happened(event) => NoteEvent(event);
      case WarmReset(reason, generation) => var valid := Boot(reason, generation);
    }

    method Replay(notes: seq<Note>)
      requires Valid() && AllLand(record, notes)
      modifies this
      ensures Valid() && record == After(old(record), notes)
    {
      var i := 0;
      assert notes[0..] == notes;
      while i < |notes|
        invariant 0 <= i <= |notes| && Valid()
        invariant AllLand(record, notes[i..]) && After(record, notes[i..]) == After(old(record), notes)
      {
        assert notes[i..][1..] == notes[i + 1..];
        Note(notes[i]);
        i := i + 1;
      }
    }

    /**
     Over any sequence of notes and warm resets no store leaves the ring and the window is always
     accepted, provided the head is inside to begin with or no event is noted.
     */
    method Run(notes: seq<Note>)
      requires Valid() && (record.eventHead < SLOTS || Events(notes) == [])
      modifies this
      ensures Valid() && AllLand(old(record), notes) && record == After(old(record), notes)
      ensures Follows(old(record), Decode(window), notes)
      ensures old(record).eventHead < SLOTS ==>
                HoldsLast(Decode(window), old(record).eventHead, Unrolled(old(record)) + Events(notes))
    {
      LandExactly(record, notes);
      FieldsFollow(record, notes);
      if record.eventHead < SLOTS {
        RingHoldsLast(record, notes);
      }
      Replay(notes);
      RecordRoundTrip(record);
    }
  }
}
