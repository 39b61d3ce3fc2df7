/**
 The update archive (.axu): a header and up to 64 typed entries in any order. The parser walks the
 entries once, checking each; unknown entries are skipped unless their type says that a reader must
 understand them.
 */
module UpdateArchive {
  import opened Basics
  import opened ByteFormat
  import opened Checksums

  const MAGIC: Bytes := [65, 88, 85, 80, 68, 65, 84, 69]
  const HEADER: nat := 16
  const ENTRY_HEADER: nat := 16
  const ENTRY_LIMIT: nat := 64
  const REQUIRED: nat := 0x80000000
  const CONFIG_MAX: nat := 1048576
  const TEXT_MAX: nat := 4096
  const BLOCK: nat := 16384

  const CONFIG: nat := 1
  const PROGRAM: nat := 4
  const METADATA: nat := 5
  const CMDLINE: nat := 6

  /** One entry as it is stored. */
  datatype Entry = Entry(kind: nat, crc: nat, payload: Bytes)

  /** Where the payload of a known entry lies. */
  datatype Range = Range(crc: nat, size: nat, offset: nat)

  // ------------------------------------------------------------------------------------------
  // The format.

  predicate Stored(e: Entry) {
    e.kind < U32 && e.crc < U32 && |e.payload| < U64
  }

  function EncodeEntry(e: Entry): (r: Bytes)
    ensures |r| == ENTRY_HEADER + |e.payload|
  {
    Put(e.kind, 4) + Put(e.crc, 4) + Put(|e.payload|, 8) + e.payload
  }

  function EncodeAll(entries: seq<Entry>): Bytes {
    if entries == [] then [] else EncodeEntry(entries[0]) + EncodeAll(entries[1..])
  }

  function Encode(version: nat, entries: seq<Entry>): Bytes {
    MAGIC + Put(version, 4) + Put(|entries|, 4) + EncodeAll(entries)
  }

  function KindAt(bytes: Bytes): nat
    requires |bytes| >= ENTRY_HEADER
  {
    Get(bytes[..4])
  }

  function CrcAt(bytes: Bytes): nat
    requires |bytes| >= ENTRY_HEADER
  {
    Get(bytes[4..8])
  }

  function SizeAt(bytes: Bytes): nat
    requires |bytes| >= ENTRY_HEADER
  {
    Get(bytes[8..16])
  }

  /** The entry at the front, if it is all there. */
  function First(bytes: Bytes): (e: Option<Entry>)
    ensures e.Some? ==> ENTRY_HEADER + |e.value.payload| <= |bytes|
  {
    if |bytes| < ENTRY_HEADER || SizeAt(bytes) > |bytes| - ENTRY_HEADER then None
    else Some(Entry(KindAt(bytes), CrcAt(bytes), bytes[ENTRY_HEADER..ENTRY_HEADER + SizeAt(bytes)]))
  }

  /** Exactly `count` entries and nothing after them. */
  function Entries(bytes: Bytes, count: nat): (r: Option<seq<Entry>>)
    ensures r.Some? ==> |r.value| == count
    decreases count
  {
    if count == 0 then if bytes == [] then Some([]) else None
    else
      match First(bytes)
      case None => None
      case Some(e) =>
        match Entries(bytes[ENTRY_HEADER + |e.payload|..], count - 1)
        case None => None
        case Some(rest) => Some([e] + rest)
  }

  lemma FirstEncoded(e: Entry, rest: Bytes)
    requires Stored(e)
    ensures First(EncodeEntry(e) + rest) == Some(e)
    ensures (EncodeEntry(e) + rest)[ENTRY_HEADER + |e.payload|..] == rest
  {
    var bytes := EncodeEntry(e) + rest;
    Limits();
    assert bytes[..4] == Put(e.kind, 4);
    assert bytes[4..8] == Put(e.crc, 4);
    assert bytes[8..16] == Put(|e.payload|, 8);
    GetPut(e.kind, 4);
    GetPut(e.crc, 4);
    GetPut(|e.payload|, 8);
    assert bytes[ENTRY_HEADER..ENTRY_HEADER + |e.payload|] == e.payload;
  }

  lemma FirstEncodes(bytes: Bytes)
    requires First(bytes).Some?
    ensures var e := First(bytes).value;
            Stored(e) && EncodeEntry(e) + bytes[ENTRY_HEADER + |e.payload|..] == bytes
  {
    hide Put, Get, Checksum;
    Limits();
    PutGet(bytes[..4]);
    PutGet(bytes[4..8]);
    PutGet(bytes[8..16]);
    var e := First(bytes).value;
    assert EncodeEntry(e) == bytes[..4] + bytes[4..8] + bytes[8..16] + bytes[16..16 + |e.payload|];
  }

  /** Reading the entries back gives what was written. */
  lemma {:induction false} EntriesEncoded(entries: seq<Entry>)
    requires forall e :: e in entries ==> Stored(e)
    ensures Entries(EncodeAll(entries), |entries|) == Some(entries)
  {
    if entries != [] {
      FirstEncoded(entries[0], EncodeAll(entries[1..]));
      EntriesEncoded(entries[1..]);
      assert [entries[0]] + entries[1..] == entries;
    }
  }

  /** Only one entry list can have produced the bytes. */
  lemma {:induction false} EntriesEncode(bytes: Bytes, count: nat)
    requires Entries(bytes, count).Some?
    ensures EncodeAll(Entries(bytes, count).value) == bytes
    ensures forall e :: e in Entries(bytes, count).value ==> Stored(e)
  {
    if count > 0 {
      FirstEncodes(bytes);
      var e := First(bytes).value;
      EntriesEncode(bytes[ENTRY_HEADER + |e.payload|..], count - 1);
      var rest := Entries(bytes[ENTRY_HEADER + |e.payload|..], count - 1).value;
      assert ([e] + rest)[1..] == rest;
    }
  }

  // ------------------------------------------------------------------------------------------
  // What is accepted.

  function MaxKind(version: nat): nat {
    if version == 1 then PROGRAM else CMDLINE
  }

  predicate Known(version: nat, kind: nat) {
    1 <= kind <= MaxKind(version)
  }

  function MaxSize(kind: nat): nat {
    if kind == CONFIG then CONFIG_MAX else if kind == METADATA || kind == CMDLINE then TEXT_MAX else U64
  }

  /** An entry that can be accepted whatever else there is. */
  predicate EntryOk(version: nat, e: Entry) {
    && e.crc == Checksum(e.payload)
    && if !Known(version, e.kind) then version == 2 && e.kind < 0x8000_0000
       else if e.kind == 1 then 0 < |e.payload| <= 1_048_576
       else if e.kind == 5 || e.kind == 6 then 0 < |e.payload| <= 4096
       else 0 < |e.payload| <= U64
  }

  /** How many entries have the given type. */
  function Count(entries: seq<Entry>, kind: nat): nat {
    if entries == [] then 0 else (if entries[0].kind == kind then 1 else 0) + Count(entries[1..], kind)
  }

  /** An acceptable list: nothing here depends on the order. */
  ghost predicate Acceptable(version: nat, entries: seq<Entry>) {
    && (version == 1 || version == 2)
    && (if version == 1 then |entries| == 4 else 1 <= |entries| <= ENTRY_LIMIT)
    && (forall e :: e in entries ==> EntryOk(version, e))
    && (forall kind: nat :: Known(version, kind) ==> Count(entries, kind) <= 1)
    && (forall kind: nat :: CONFIG <= kind <= (if version == 1 then PROGRAM else METADATA) ==> Count(entries, kind) == 1)
  }

  function VersionAt(bytes: Bytes): nat
    requires |bytes| >= HEADER
  {
    Get(bytes[8..12])
  }

  function CountAt(bytes: Bytes): nat
    requires |bytes| >= HEADER
  {
    Get(bytes[12..16])
  }

  /** The archive is well formed and its entries are acceptable. */
  ghost predicate Accepted(bytes: Bytes) {
    && |bytes| >= HEADER && bytes[..8] == MAGIC
    && Entries(bytes[HEADER..], CountAt(bytes)).Some?
    && Acceptable(VersionAt(bytes), Entries(bytes[HEADER..], CountAt(bytes)).value)
  }

  lemma HeaderEncoded(version: nat, entries: seq<Entry>)
    requires version < U32 && |entries| < U32
    ensures var bytes := Encode(version, entries);
            && |bytes| >= HEADER && bytes[..8] == MAGIC && VersionAt(bytes) == version
            && CountAt(bytes) == |entries| && bytes[HEADER..] == EncodeAll(entries)
  {
    var bytes := Encode(version, entries);
    Limits();
    assert bytes[..8] == MAGIC;
    assert bytes[8..12] == Put(version, 4);
    assert bytes[12..16] == Put(|entries|, 4);
    GetPut(version, 4);
    GetPut(|entries|, 4);
    assert bytes[HEADER..] == EncodeAll(entries);
  }

  /** Writing an acceptable list gives an accepted archive, and every accepted archive is one. */
  lemma EncodedAccepted(version: nat, entries: seq<Entry>)
    requires version < U32 && |entries| < U32 && forall e :: e in entries ==> Stored(e)
    ensures Accepted(Encode(version, entries)) <==> Acceptable(version, entries)
  {
    HeaderEncoded(version, entries);
    EntriesEncoded(entries);
  }

  lemma AcceptedEncodes(bytes: Bytes) returns (version: nat, entries: seq<Entry>)
    requires Accepted(bytes)
    ensures bytes == Encode(version, entries) && Acceptable(version, entries)
    ensures version == VersionAt(bytes) && Entries(bytes[HEADER..], CountAt(bytes)) == Some(entries)
    ensures forall e :: e in entries ==> Stored(e)
  {
    version, entries := VersionAt(bytes), Entries(bytes[HEADER..], CountAt(bytes)).value;
    EntriesEncode(bytes[HEADER..], CountAt(bytes));
    PutGet(bytes[8..12]);
    PutGet(bytes[12..16]);
    assert bytes == bytes[..8] + bytes[8..12] + bytes[12..16] + bytes[16..];
  }

  // ------------------------------------------------------------------------------------------
  // Order and unknown entries do not matter.

  /** The payload of the entry of a type, empty if there is none. */
  function PayloadOf(entries: seq<Entry>, kind: nat): Bytes {
    if entries == [] then []
    else if entries[0].kind == kind then entries[0].payload else PayloadOf(entries[1..], kind)
  }

  lemma {:induction false} CountAppend(a: seq<Entry>, b: seq<Entry>, kind: nat)
    ensures Count(a + b, kind) == Count(a, kind) + Count(b, kind)
  {
    if a == [] {
      assert a + b == b;
    } else {
      assert (a + b)[1..] == a[1..] + b;
      CountAppend(a[1..], b, kind);
    }
  }

  lemma {:induction false} CountZero(entries: seq<Entry>, kind: nat)
    ensures Count(entries, kind) == 0 <==> forall e :: e in entries ==> e.kind != kind
  {
    if entries != [] {
      CountZero(entries[1..], kind);
    }
  }

  /** The payload is that of any entry of the type, if there is only one. */
  lemma {:induction false} PayloadUnique(entries: seq<Entry>, e: Entry)
    requires e in entries && Count(entries, e.kind) == 1
    ensures PayloadOf(entries, e.kind) == e.payload
  {
    if entries[0].kind == e.kind {
      CountZero(entries[1..], e.kind);
    } else {
      PayloadUnique(entries[1..], e);
    }
  }

  lemma {:induction false} PayloadAbsent(entries: seq<Entry>, kind: nat)
    requires Count(entries, kind) == 0
    ensures PayloadOf(entries, kind) == []
  {
    if entries != [] {
      PayloadAbsent(entries[1..], kind);
    }
  }

  function Inserted(entries: seq<Entry>, at: nat, extra: Entry): seq<Entry>
    requires at <= |entries|
  {
    entries[..at] + ([extra] + entries[at..])
  }

  lemma InsertedCount(entries: seq<Entry>, at: nat, extra: Entry, kind: nat)
    requires at <= |entries|
    ensures Count(Inserted(entries, at, extra), kind) == Count(entries, kind) + if extra.kind == kind then 1 else 0
  {
    assert entries[..at] + entries[at..] == entries;
    assert ([extra] + entries[at..])[1..] == entries[at..];
    CountAppend(entries[..at], [extra] + entries[at..], kind);
    CountAppend(entries[..at], entries[at..], kind);
  }

  lemma RemovedSame(a: seq<Entry>, b: seq<Entry>, i: nat)
    requires a != [] && i < |b| && b[i] == a[0] && multiset(a) == multiset(b)
    ensures multiset(a[1..]) == multiset(b[..i] + b[i + 1..])
  {
    assert a == [a[0]] + a[1..];
    assert b == b[..i] + ([a[0]] + b[i + 1..]);
    assert multiset(a) == multiset{a[0]} + multiset(a[1..]);
    assert multiset(b) == multiset(b[..i]) + (multiset{a[0]} + multiset(b[i + 1..]));
    assert multiset(a[1..]) == multiset(a) - multiset{a[0]};
    assert multiset(b[..i] + b[i + 1..]) == multiset(b) - multiset{a[0]};
  }

  lemma {:induction false} CountPermuted(a: seq<Entry>, b: seq<Entry>, kind: nat)
    requires multiset(a) == multiset(b)
    ensures Count(a, kind) == Count(b, kind)
    decreases |a|
  {
    if a == [] {
      assert |b| == |multiset(b)|;
    } else {
      assert a[0] in multiset(b);
      var i :| 0 <= i < |b| && b[i] == a[0];
      var rest := b[..i] + b[i + 1..];
      RemovedSame(a, b, i);
      CountPermuted(a[1..], rest, kind);
      InsertedCount(rest, i, a[0], kind);
      assert b == Inserted(rest, i, a[0]);
    }
  }

  /** An accepted list may be reordered: it stays accepted and no known payload changes. */
  lemma ReorderedAccepted(version: nat, a: seq<Entry>, b: seq<Entry>)
    requires Acceptable(version, a) && multiset(a) == multiset(b)
    ensures Acceptable(version, b)
    ensures forall kind: nat :: Known(version, kind) ==> PayloadOf(b, kind) == PayloadOf(a, kind)
  {
    forall kind: nat
      ensures Count(b, kind) == Count(a, kind)
    {
      CountPermuted(a, b, kind);
    }
    assert |a| == |multiset(a)| == |multiset(b)| == |b|;
    forall e | e in b
      ensures e in a
    {
      assert e in multiset(b);
    }
    forall kind: nat | Known(version, kind)
      ensures PayloadOf(b, kind) == PayloadOf(a, kind)
    {
      if Count(a, kind) == 0 {
        PayloadAbsent(a, kind);
        PayloadAbsent(b, kind);
      } else {
        CountZero(b, kind);
        var e :| e in b && e.kind == kind;
        PayloadUnique(b, e);
        PayloadUnique(a, e);
      }
    }
  }

  lemma InsertedMembers(entries: seq<Entry>, at: nat, extra: Entry)
    requires at <= |entries|
    ensures forall e :: e in Inserted(entries, at, extra) <==> e in entries || e == extra
  {
    assert entries[..at] + entries[at..] == entries;
  }

  lemma InsertedPayload(entries: seq<Entry>, at: nat, extra: Entry, kind: nat)
    requires at <= |entries| && extra.kind != kind && Count(entries, kind) <= 1
    ensures PayloadOf(Inserted(entries, at, extra), kind) == PayloadOf(entries, kind)
  {
    var more := Inserted(entries, at, extra);
    InsertedCount(entries, at, extra, kind);
    if Count(entries, kind) == 0 {
      PayloadAbsent(entries, kind);
      PayloadAbsent(more, kind);
    } else {
      CountZero(entries, kind);
      var e :| e in entries && e.kind == kind;
      InsertedMembers(entries, at, extra);
      PayloadUnique(entries, e);
      PayloadUnique(more, e);
    }
  }

  /** An unknown entry that no reader has to understand may be added anywhere. */
  lemma ExtendedAccepted(entries: seq<Entry>, at: nat, extra: Entry)
    requires Acceptable(2, entries) && at <= |entries| < ENTRY_LIMIT
    requires !Known(2, extra.kind) && extra.kind < REQUIRED && extra.crc == Checksum(extra.payload)
    ensures Acceptable(2, Inserted(entries, at, extra))
    ensures forall kind: nat :: Known(2, kind) ==> PayloadOf(Inserted(entries, at, extra), kind) == PayloadOf(entries, kind)
  {
    InsertedMembers(entries, at, extra);
    forall kind: nat
      ensures Count(Inserted(entries, at, extra), kind) == Count(entries, kind) + if extra.kind == kind then 1 else 0
    {
      InsertedCount(entries, at, extra, kind);
    }
    forall kind: nat | Known(2, kind)
      ensures PayloadOf(Inserted(entries, at, extra), kind) == PayloadOf(entries, kind)
    {
      InsertedPayload(entries, at, extra, kind);
    }
  }

  /** What an accepted archive holds for a type. */
  function ArchivePayload(bytes: Bytes, kind: nat): Bytes
    requires |bytes| >= HEADER && Entries(bytes[HEADER..], CountAt(bytes)).Some?
  {
    PayloadOf(Entries(bytes[HEADER..], CountAt(bytes)).value, kind)
  }

  lemma ArchiveOf(version: nat, entries: seq<Entry>)
    requires version < U32 && |entries| < U32 && forall e :: e in entries ==> Stored(e)
    ensures var bytes := Encode(version, entries);
            |bytes| >= HEADER && VersionAt(bytes) == version && Entries(bytes[HEADER..], CountAt(bytes)) == Some(entries)
  {
    HeaderEncoded(version, entries);
    EntriesEncoded(entries);
  }

  /** An accepted archive with its entries in any other order is accepted and means the same. */
  lemma ArchiveReordered(bytes: Bytes, entries: seq<Entry>, other: seq<Entry>)
    requires Accepted(bytes) && Entries(bytes[HEADER..], CountAt(bytes)) == Some(entries) && multiset(entries) == multiset(other)
    ensures var bytes' := Encode(VersionAt(bytes), other);
            Accepted(bytes') && forall kind: nat :: Known(VersionAt(bytes), kind) ==> ArchivePayload(bytes', kind) == ArchivePayload(bytes, kind)
  {
    var version, es := AcceptedEncodes(bytes);
    ReorderedAccepted(version, entries, other);
    forall e | e in other
      ensures Stored(e)
    {
      assert e in multiset(other);
    }
    EncodedAccepted(version, other);
    ArchiveOf(version, other);
  }

  /** So is one with an unknown, not required entry added at any boundary. */
  lemma ArchiveExtended(bytes: Bytes, entries: seq<Entry>, at: nat, extra: Entry)
    requires Accepted(bytes) && VersionAt(bytes) == 2 && Entries(bytes[HEADER..], CountAt(bytes)) == Some(entries)
    requires at <= |entries| < ENTRY_LIMIT && Stored(extra)
    requires !Known(2, extra.kind) && extra.kind < REQUIRED && extra.crc == Checksum(extra.payload)
    ensures var bytes' := Encode(2, Inserted(entries, at, extra));
            Accepted(bytes') && forall kind: nat :: Known(2, kind) ==> ArchivePayload(bytes', kind) == ArchivePayload(bytes, kind)
  {
    var version, es := AcceptedEncodes(bytes);
    ExtendedAccepted(entries, at, extra);
    InsertedMembers(entries, at, extra);
    EncodedAccepted(2, Inserted(entries, at, extra));
    ArchiveOf(2, Inserted(entries, at, extra));
  }

  // ------------------------------------------------------------------------------------------
  // The parser.

  /** Checks a payload in blocks, carrying the checksum along. */
  method CheckEntryCrc(payload: Bytes, crc: nat) returns (ok: bool)
    ensures ok <==> crc == Checksum(payload)
  {
    var done, running := 0, 0 as bv32;
    while done < |payload|
      invariant done <= |payload| && running == Crc32(0, payload[..done])
    {
      var want := if |payload| - done < BLOCK then |payload| - done else BLOCK;
      CrcContinues(0, payload[..done], payload[done..done + want]);
      assert payload[..done + want] == payload[..done] + payload[done..done + want];
      running := Crc32(running, payload[done..done + want]);
      done := done + want;
    }
    assert payload[..done] == payload;
    ok := Number(running) == crc;
  }

  /** What the parser has recorded for each known type after the given entries. */
  ghost predicate Recorded(bytes: Bytes, version: nat, done: seq<Entry>, ranges: seq<Option<Range>>) {
    && |ranges| == CMDLINE
    && forall k :: 0 <= k < CMDLINE ==> RecordedKind(bytes, version, done, ranges[k], k + CONFIG)
  }

  ghost predicate RecordedKind(bytes: Bytes, version: nat, done: seq<Entry>, range: Option<Range>, kind: nat) {
    if range.None? then Known(version, kind) ==> Count(done, kind) == 0
    else
      && Known(version, kind) && Count(done, kind) == 1 && range.value.offset + range.value.size <= |bytes|
      && bytes[range.value.offset..range.value.offset + range.value.size] == PayloadOf(done, kind)
      && range.value.crc == Checksum(PayloadOf(done, kind))
  }

  lemma {:induction false} PayloadAppend(done: seq<Entry>, e: Entry, kind: nat)
    ensures Count(done + [e], kind) == Count(done, kind) + if e.kind == kind then 1 else 0
    ensures Count(done, kind) > 0 ==> PayloadOf(done + [e], kind) == PayloadOf(done, kind)
    ensures Count(done, kind) == 0 && e.kind == kind ==> PayloadOf(done + [e], kind) == e.payload
  {
    if done != [] {
      assert (done + [e])[1..] == done[1..] + [e];
      PayloadAppend(done[1..], e, kind);
    }
  }

  /** The rest of the archive, once `done` has been read, decides whether it is accepted. */
  ghost predicate Remaining(bytes: Bytes, version: nat, count: nat, done: seq<Entry>, offset: nat) {
    && |done| <= count && HEADER <= offset <= |bytes|
    && (forall e :: e in done ==> EntryOk(version, e))
    && match Entries(bytes[offset..], count - |done|)
       case Some(rest) => Entries(bytes[HEADER..], count) == Some(done + rest)
       case None => Entries(bytes[HEADER..], count) == None
  }

  lemma RemainingNext(bytes: Bytes, version: nat, count: nat, done: seq<Entry>, offset: nat)
    requires Remaining(bytes, version, count, done, offset) && |done| < count
    ensures First(bytes[offset..]).None? ==> Entries(bytes[HEADER..], count).None?
    ensures First(bytes[offset..]).Some? ==>
              var e := First(bytes[offset..]).value;
              && (EntryOk(version, e) ==>
                    Remaining(bytes, version, count, done + [e], offset + ENTRY_HEADER + |e.payload|))
              && (Entries(bytes[HEADER..], count).Some? ==>
                    exists rest :: Entries(bytes[HEADER..], count) == Some(done + [e] + rest))
  {
    if First(bytes[offset..]).Some? {
      var e := First(bytes[offset..]).value;
      var next := offset + ENTRY_HEADER + |e.payload|;
      assert bytes[offset..][ENTRY_HEADER + |e.payload|..] == bytes[next..];
      match Entries(bytes[next..], count - |done| - 1) {
        case None =>
        case Some(rest) => assert done + ([e] + rest) == done + [e] + rest;
      }
    }
  }

  /** An entry that is wrong by itself, or a second one of a known type, spoils the archive. */
  lemma Spoiled(bytes: Bytes, version: nat, count: nat, done: seq<Entry>, e: Entry)
    requires |bytes| >= HEADER && VersionAt(bytes) == version && CountAt(bytes) == count
    requires Entries(bytes[HEADER..], count).Some? ==> exists rest :: Entries(bytes[HEADER..], count) == Some(done + [e] + rest)
    requires !EntryOk(version, e) || (Known(version, e.kind) && Count(done, e.kind) > 0)
    ensures !Accepted(bytes)
  {
    if Entries(bytes[HEADER..], count).Some? {
      var rest :| Entries(bytes[HEADER..], count) == Some(done + [e] + rest);
      assert e in done + [e] + rest;
      CountAppend(done, [e], e.kind);
      CountAppend(done + [e], rest, e.kind);
    }
  }

  ghost predicate Seen(version: nat, done: seq<Entry>, seen: set<nat>) {
    forall kind: nat :: if kind in seen then Known(version, kind) && Count(done, kind) == 1
                        else Known(version, kind) ==> Count(done, kind) == 0
  }

  lemma SeenNext(version: nat, done: seq<Entry>, seen: set<nat>, e: Entry)
    requires Seen(version, done, seen) && e.kind !in seen
    ensures Seen(version, done + [e], if Known(version, e.kind) then seen + {e.kind} else seen)
  {
    forall kind: nat
      ensures Count(done + [e], kind) == Count(done, kind) + if e.kind == kind then 1 else 0
    {
      PayloadAppend(done, e, kind);
    }
  }

  lemma RecordedNext(bytes: Bytes, version: nat, done: seq<Entry>, ranges: seq<Option<Range>>, e: Entry, offset: nat)
    requires Recorded(bytes, version, done, ranges) && EntryOk(version, e)
    requires Known(version, e.kind) ==> Count(done, e.kind) == 0
    requires offset + |e.payload| <= |bytes| && bytes[offset..offset + |e.payload|] == e.payload
    ensures Recorded(bytes, version, done + [e],
                     if Known(version, e.kind) then ranges[e.kind - 1 := Some(Range(e.crc, |e.payload|, offset))] else ranges)
  {
    forall kind: nat
      ensures Count(done + [e], kind) == Count(done, kind) + if e.kind == kind then 1 else 0
      ensures Count(done, kind) > 0 ==> PayloadOf(done + [e], kind) == PayloadOf(done, kind)
      ensures Count(done, kind) == 0 && e.kind == kind ==> PayloadOf(done + [e], kind) == e.payload
    {
      PayloadAppend(done, e, kind);
    }
  }

  /** The loop has read everything: what is left to check decides. */
  lemma Finished(bytes: Bytes, version: nat, count: nat, done: seq<Entry>, offset: nat, seen: set<nat>)
    requires |bytes| >= HEADER && bytes[..8] == MAGIC && VersionAt(bytes) == version && CountAt(bytes) == count == |done|
    requires (version == 1 && count == 4) || (version == 2 && 1 <= count <= ENTRY_LIMIT)
    requires Remaining(bytes, version, count, done, offset) && Seen(version, done, seen)
    ensures offset == |bytes| ==> Entries(bytes[HEADER..], count) == Some(done)
    ensures Accepted(bytes) <==>
            offset == |bytes| && forall kind: nat :: CONFIG <= kind <= (if version == 1 then PROGRAM else METADATA) ==> kind in seen
  {
    if offset == |bytes| {
      assert bytes[offset..] == [];
      assert done + [] == done;
    } else {
      assert bytes[offset..] != [];
    }
  }

  /** The next entry either keeps the archive acceptable so far or spoils it. */
  lemma EntryDecides(bytes: Bytes, version: nat, count: nat, done: seq<Entry>, offset: nat, seen: set<nat>)
    requires |bytes| >= HEADER && VersionAt(bytes) == version && CountAt(bytes) == count && |done| < count
    requires Remaining(bytes, version, count, done, offset) && Seen(version, done, seen)
    ensures match First(bytes[offset..])
            case None => !Accepted(bytes)
            case Some(e) =>
              if EntryOk(version, e) && e.kind !in seen
              then Remaining(bytes, version, count, done + [e], offset + ENTRY_HEADER + |e.payload|)
              else !Accepted(bytes)
  {
    RemainingNext(bytes, version, count, done, offset);
    match First(bytes[offset..])
    case None =>
    case Some(e) =>
      if !EntryOk(version, e) || e.kind in seen {
        Spoiled(bytes, version, count, done, e);
      }
  }

  method CheckEntry(version: nat, e: Entry, seen: set<nat>) returns (ok: bool)
    requires version == 1 || version == 2
    requires forall kind: nat :: kind in seen ==> Known(version, kind)
    ensures ok <==> EntryOk(version, e) && e.kind !in seen
  {
    if !Known(version, e.kind) {
      if version == 1 || e.kind >= REQUIRED {
        return false;
      }
    } else if e.kind in seen || |e.payload| == 0 || |e.payload| > MaxSize(e.kind) {
      return false;
    }
    ok := CheckEntryCrc(e.payload, e.crc);
  }

  lemma PayloadPlace(bytes: Bytes, offset: nat)
    requires offset <= |bytes| && First(bytes[offset..]).Some?
    ensures var e, start := First(bytes[offset..]).value, offset + ENTRY_HEADER;
            start + |e.payload| <= |bytes| && bytes[start..start + |e.payload|] == e.payload
  {
  }

  /** How far the parser has come. */
  datatype Progress = Progress(offset: nat, seen: set<nat>, ranges: seq<Option<Range>>)

  ghost predicate ProgressOk(bytes: Bytes, version: nat, count: nat, done: seq<Entry>, p: Progress) {
    Remaining(bytes, version, count, done, p.offset) && Seen(version, done, p.seen) && Recorded(bytes, version, done, p.ranges)
  }

  function Advanced(version: nat, e: Entry, p: Progress): Progress
    requires Known(version, e.kind) ==> e.kind <= |p.ranges|
  {
    var start := p.offset + ENTRY_HEADER;
    if Known(version, e.kind) then
      Progress(start + |e.payload|, p.seen + {e.kind}, p.ranges[e.kind - 1 := Some(Range(e.crc, |e.payload|, start))])
    else p.(offset := start + |e.payload|)
  }

  lemma ProgressNext(bytes: Bytes, version: nat, count: nat, done: seq<Entry>, p: Progress, e: Entry)
    requires ProgressOk(bytes, version, count, done, p) && First(bytes[p.offset..]) == Some(e)
    requires EntryOk(version, e) && e.kind !in p.seen
    requires Remaining(bytes, version, count, done + [e], p.offset + ENTRY_HEADER + |e.payload|)
    ensures ProgressOk(bytes, version, count, done + [e], Advanced(version, e, p))
  {
    hide EntryOk, First, Count, PayloadOf, RecordedKind;
    PayloadPlace(bytes, p.offset);
    SeenNext(version, done, p.seen, e);
    RecordedNext(bytes, version, done, p.ranges, e, p.offset + ENTRY_HEADER);
  }

  /** Reads and checks one entry; failure means that the archive cannot be accepted. */
  method ParseEntry(bytes: Bytes, version: nat, count: nat, p: Progress, ghost done: seq<Entry>)
    returns (ok: bool, next: Progress, ghost done': seq<Entry>)
    requires |bytes| >= HEADER && VersionAt(bytes) == version && CountAt(bytes) == count && |done| < count
    requires version == 1 || version == 2
    requires ProgressOk(bytes, version, count, done, p)
    ensures !ok ==> !Accepted(bytes)
    ensures ok ==> |done'| == |done| + 1 && ProgressOk(bytes, version, count, done', next)
  {
    next, done' := p, done;
    var entry := First(bytes[p.offset..]);
    EntryDecides(bytes, version, count, done, p.offset, p.seen);
    if entry.None? {
      return false, p, done;
    }
    ok := CheckEntry(version, entry.value, p.seen);
    if ok {
      ProgressNext(bytes, version, count, done, p, entry.value);
      next, done' := Advanced(version, entry.value, p), done + [entry.value];
    }
  }

  method RequiredSeen(version: nat, seen: set<nat>) returns (ok: bool)
    ensures ok <==> forall kind: nat :: CONFIG <= kind <= (if version == 1 then PROGRAM else METADATA) ==> kind in seen
  {
    ok := true;
    for kind := CONFIG to (if version == 1 then PROGRAM else METADATA) + 1
      invariant ok <==> forall k: nat :: CONFIG <= k < kind ==> k in seen
    {
      ok := ok && kind in seen;
    }
  }

  /**
   Reads an archive in one pass. It succeeds exactly for the accepted ones, and then the ranges
   point at the payloads of the known types.
   */
  method ParseArchive(bytes: Bytes) returns (ok: bool, ranges: seq<Option<Range>>)
    ensures ok <==> Accepted(bytes)
    ensures ok ==> Recorded(bytes, VersionAt(bytes), Entries(bytes[HEADER..], CountAt(bytes)).value, ranges)
  {
    ranges := seq(CMDLINE, _ => None);
    if |bytes| < HEADER || bytes[..8] != MAGIC {
      return false, ranges;
    }
    var version, count := VersionAt(bytes), CountAt(bytes);
    if !((version == 1 && count == 4) || (version == 2 && 1 <= count <= ENTRY_LIMIT)) {
      return false, ranges;
    }
    var p := Progress(HEADER, {}, ranges);
    ghost var done: seq<Entry> := [];
    Beginning(bytes, version, count, p);
    for i := 0 to count
      invariant |done| == i && ProgressOk(bytes, version, count, done, p)
    {
      ok, p, done := ParseEntry(bytes, version, count, p, done);
      if !ok {
        return false, p.ranges;
      }
    }
    ranges := p.ranges;
    Finished(bytes, version, count, done, p.offset, p.seen);
    ok := RequiredSeen(version, p.seen);
    ok := ok && p.offset == |bytes|;
  }

  lemma Beginning(bytes: Bytes, version: nat, count: nat, p: Progress)
    requires |bytes| >= HEADER && p == Progress(HEADER, {}, seq(CMDLINE, _ => None))
    ensures ProgressOk(bytes, version, count, [], p)
  {
    match Entries(bytes[HEADER..], count) {
      case None =>
      case Some(all) => assert [] + all == all;
    }
  }
}
