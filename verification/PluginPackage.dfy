/**
 Plugin packages (.axm): parsing, building, and the checksum manifest from which an installed
 plugin's archive is put together again. What metadata, modules and asset names have to look like
 inside is left open; the framing is not.
 */
module PluginPackage {
  import opened Basics
  import opened ByteFormat
  import opened Checksums

  const MAGIC: Bytes := [65, 88, 77, 79, 68, 85, 76, 69]
  const METADATA_NAME: Bytes := [97, 120, 109, 46, 116, 120, 116]
  const MODULE_NAME: Bytes := [109, 111, 100, 117, 108, 101, 46, 115, 111]
  const MANIFEST_NAME: Bytes := [46, 99, 104, 101, 99, 107, 115, 117, 109, 115]

  const HEADER: nat := 16
  const ENTRY_HEADER: nat := 20
  const MAX_ENTRIES: nat := 18
  const MAX_NAME: nat := 63
  const MAX_METADATA: nat := 16384
  const MAX_MODULE: nat := 8388608
  const MAX_ASSET: nat := 262144
  const MAX_PACKAGE: nat := 12582912
  const MAX_MANIFEST: nat := 2048

  const METADATA: nat := 1
  const MODULE: nat := 2
  const ASSET: nat := 3

  datatype Entry = Entry(kind: nat, name: Bytes, data: Bytes)

  /** The checksum and the checks inside the payloads; a native module is one for this machine. */
  datatype Checks = Checks(crc: Bytes -> nat, asset: Bytes -> bool, metadata: Bytes -> bool, elf: (Bytes, bool) -> bool)

  ghost predicate CrcOk(c: Checks) {
    forall data :: c.crc(data) < U32
  }

  /** The CRC-32 of every payload fits the four bytes it is stored in. */
  lemma Crc32Fits(c: Checks)
    requires forall data :: c.crc(data) == Checksum(data)
    ensures CrcOk(c)
  {
  }

  /** A native module is a module, and no asset may pose as the manifest. */
  ghost predicate ChecksOk(c: Checks) {
    && CrcOk(c)
    && (forall data :: c.elf(data, true) ==> c.elf(data, false)) && !c.asset(MANIFEST_NAME)
  }

  // ------------------------------------------------------------------------------------------
  // The format.

  predicate Storable(e: Entry) {
    e.kind < U32 && |e.name| < U32 && |e.data| < U64
  }

  /** What the archive and the manifest both hold of an entry. */
  function EncodeHeader(c: Checks, e: Entry): (r: Bytes)
    ensures |r| == ENTRY_HEADER + |e.name|
  {
    Put(e.kind, 4) + Put(|e.name|, 4) + Put(|e.data|, 8) + Put(c.crc(e.data), 4) + e.name
  }

  function EncodeEntry(c: Checks, e: Entry): Bytes {
    EncodeHeader(c, e) + e.data
  }

  function EncodeAll(c: Checks, entries: seq<Entry>): Bytes {
    if entries == [] then [] else EncodeEntry(c, entries[0]) + EncodeAll(c, entries[1..])
  }

  function Header(count: nat): (r: Bytes)
    ensures |r| == HEADER
  {
    MAGIC + Put(1, 4) + Put(count, 4)
  }

  function Archive(c: Checks, entries: seq<Entry>): Bytes {
    Header(|entries|) + EncodeAll(c, entries)
  }

  function KindAt(b: Bytes): nat
    requires |b| >= ENTRY_HEADER
  {
    Get(b[..4])
  }

  function NameSizeAt(b: Bytes): nat
    requires |b| >= ENTRY_HEADER
  {
    Get(b[4..8])
  }

  function SizeAt(b: Bytes): nat
    requires |b| >= ENTRY_HEADER
  {
    Get(b[8..16])
  }

  function CrcAt(b: Bytes): nat
    requires |b| >= ENTRY_HEADER
  {
    Get(b[16..20])
  }

  /** The entry at the front, if it is all there and its checksum is right. */
  function First(c: Checks, b: Bytes): (e: Option<Entry>)
    ensures e.Some? ==> ENTRY_HEADER + |e.value.name| + |e.value.data| <= |b|
  {
    if |b| < ENTRY_HEADER || NameSizeAt(b) > |b| - ENTRY_HEADER then None
    else
      var start := ENTRY_HEADER + NameSizeAt(b);
      if SizeAt(b) > |b| - start then None
      else
        var data := b[start..start + SizeAt(b)];
        if CrcAt(b) != c.crc(data) then None else Some(Entry(KindAt(b), b[ENTRY_HEADER..start], data))
  }

  function SizeOf(e: Entry): nat {
    ENTRY_HEADER + |e.name| + |e.data|
  }

  /** Exactly `count` entries and nothing after them. */
  function Entries(c: Checks, b: Bytes, count: nat): (r: Option<seq<Entry>>)
    ensures r.Some? ==> |r.value| == count
    decreases count
  {
    if count == 0 then if b == [] then Some([]) else None
    else
      match First(c, b)
      case None => None
      case Some(e) =>
        match Entries(c, b[SizeOf(e)..], count - 1)
        case None => None
        case Some(rest) => Some([e] + rest)
  }

  lemma HeaderFields(c: Checks, e: Entry, rest: Bytes)
    requires Storable(e) && CrcOk(c)
    ensures var b := EncodeHeader(c, e) + rest;
            && |b| >= ENTRY_HEADER + |e.name| && KindAt(b) == e.kind && NameSizeAt(b) == |e.name|
            && SizeAt(b) == |e.data| && CrcAt(b) == c.crc(e.data)
            && b[ENTRY_HEADER..ENTRY_HEADER + |e.name|] == e.name && b[ENTRY_HEADER + |e.name|..] == rest
  {
    var b := EncodeHeader(c, e) + rest;
    Limits();
    assert b[..4] == Put(e.kind, 4);
    assert b[4..8] == Put(|e.name|, 4);
    assert b[8..16] == Put(|e.data|, 8);
    assert b[16..20] == Put(c.crc(e.data), 4);
    GetPut(e.kind, 4);
    GetPut(|e.name|, 4);
    GetPut(|e.data|, 8);
    GetPut(c.crc(e.data), 4);
  }

  /** The bytes of a header are determined by its fields. */
  lemma HeaderBytes(c: Checks, b: Bytes, e: Entry)
    requires |b| >= ENTRY_HEADER + |e.name| && e.name == b[ENTRY_HEADER..ENTRY_HEADER + |e.name|]
    requires KindAt(b) == e.kind && NameSizeAt(b) == |e.name| && SizeAt(b) == |e.data| && CrcAt(b) == c.crc(e.data)
    ensures EncodeHeader(c, e) == b[..ENTRY_HEADER + |e.name|] && Storable(e)
  {
    Limits();
    PutGet(b[..4]);
    PutGet(b[4..8]);
    PutGet(b[8..16]);
    PutGet(b[16..20]);
    assert b[..ENTRY_HEADER + |e.name|] == b[..4] + b[4..8] + b[8..16] + b[16..20] + b[20..20 + |e.name|];
  }

  lemma FirstEncoded(c: Checks, e: Entry, rest: Bytes)
    requires Storable(e) && CrcOk(c)
    ensures First(c, EncodeEntry(c, e) + rest) == Some(e) && (EncodeEntry(c, e) + rest)[SizeOf(e)..] == rest
  {
    hide Put, Get, EncodeHeader;
    var b := EncodeEntry(c, e) + rest;
    assert b == EncodeHeader(c, e) + (e.data + rest);
    HeaderFields(c, e, e.data + rest);
    var start := ENTRY_HEADER + |e.name|;
    assert b[start..start + |e.data|] == b[start..][..|e.data|] == e.data;
  }

  lemma FirstEncodes(c: Checks, b: Bytes)
    requires First(c, b).Some?
    ensures var e := First(c, b).value;
            Storable(e) && EncodeEntry(c, e) + b[SizeOf(e)..] == b
  {
    var e := First(c, b).value;
    HeaderBytes(c, b, e);
    var start := ENTRY_HEADER + |e.name|;
    assert b == b[..start] + b[start..start + |e.data|] + b[start + |e.data|..];
  }

  lemma {:induction false} EntriesEncoded(c: Checks, entries: seq<Entry>)
    requires CrcOk(c) && forall e :: e in entries ==> Storable(e)
    ensures Entries(c, EncodeAll(c, entries), |entries|) == Some(entries)
  {
    if entries != [] {
      FirstEncoded(c, entries[0], EncodeAll(c, entries[1..]));
      EntriesEncoded(c, entries[1..]);
      assert [entries[0]] + entries[1..] == entries;
    }
  }

  lemma {:induction false} EntriesEncode(c: Checks, b: Bytes, count: nat)
    requires Entries(c, b, count).Some?
    ensures EncodeAll(c, Entries(c, b, count).value) == b
    ensures forall e :: e in Entries(c, b, count).value ==> Storable(e)
  {
    if count > 0 {
      FirstEncodes(c, b);
      var e := First(c, b).value;
      EntriesEncode(c, b[SizeOf(e)..], count - 1);
      assert ([e] + Entries(c, b[SizeOf(e)..], count - 1).value)[1..] == Entries(c, b[SizeOf(e)..], count - 1).value;
    }
  }

  // ------------------------------------------------------------------------------------------
  // What is accepted.

  function MaxSize(kind: nat): nat {
    if kind == METADATA then MAX_METADATA else if kind == MODULE then MAX_MODULE else MAX_ASSET
  }

  /** The name fits the kind. */
  predicate Named(c: Checks, kind: nat, name: Bytes) {
    && 0 < |name| <= 63
    && ((kind == METADATA && name == METADATA_NAME) || (kind == MODULE && name == MODULE_NAME) || (kind == ASSET && c.asset(name)))
  }

  predicate SizeOk(e: Entry) {
    |e.data| <= (if e.kind == METADATA then 16_384 else if e.kind == MODULE then 8_388_608 else 262_144)
  }

  predicate EntryOk(c: Checks, native: bool, e: Entry) {
    && Named(c, e.kind, e.name) && SizeOk(e)
    && (e.kind == METADATA ==> c.metadata(e.data)) && (e.kind == MODULE ==> c.elf(e.data, native))
  }

  predicate DistinctNames(entries: seq<Entry>) {
    forall i, j :: 0 <= i < j < |entries| ==> entries[i].name != entries[j].name
  }

  predicate HasKind(entries: seq<Entry>, kind: nat) {
    exists k :: 0 <= k < |entries| && entries[k].kind == kind
  }

  predicate Acceptable(c: Checks, native: bool, entries: seq<Entry>) {
    && 2 <= |entries| <= 18 && (forall k :: 0 <= k < |entries| ==> EntryOk(c, native, entries[k]))
    && DistinctNames(entries) && HasKind(entries, METADATA) && HasKind(entries, MODULE)
    && HEADER + |EncodeAll(c, entries)| <= 12_582_912
  }

  function CountAt(b: Bytes): nat
    requires |b| >= HEADER
  {
    Get(b[12..16])
  }

  predicate HeaderOk(b: Bytes) {
    |b| >= HEADER && b[..8] == MAGIC && Get(b[8..12]) == 1 && 2 <= CountAt(b) <= MAX_ENTRIES
  }

  /** What a package parses to. */
  function Parsed(c: Checks, native: bool, b: Bytes): Option<seq<Entry>> {
    if !HeaderOk(b) || |b| > MAX_PACKAGE then None
    else
      match Entries(c, b[HEADER..], CountAt(b))
      case None => None
      case Some(entries) => if Acceptable(c, native, entries) then Some(entries) else None
  }

  lemma HeaderEncoded(count: nat, rest: Bytes)
    requires 2 <= count <= MAX_ENTRIES
    ensures var b := Header(count) + rest;
            HeaderOk(b) && CountAt(b) == count && b[HEADER..] == rest
  {
    var b := Header(count) + rest;
    Limits();
    assert b[..8] == MAGIC && b[8..12] == Put(1, 4) && b[12..16] == Put(count, 4);
    GetPut(1, 4);
    GetPut(count, 4);
  }

  lemma HeaderDetermined(b: Bytes)
    requires HeaderOk(b)
    ensures b[..HEADER] == Header(CountAt(b))
  {
    hide Put, Get;
    PutGet(b[8..12]);
    PutGet(b[12..16]);
    assert b[..HEADER] == b[..8] + b[8..12] + b[12..16];
  }

  /** Exactly the archives of acceptable entry lists parse, each to its list. */
  lemma ParsedIffArchive(c: Checks, native: bool, b: Bytes, entries: seq<Entry>)
    requires CrcOk(c)
    ensures Parsed(c, native, b) == Some(entries) <==> Acceptable(c, native, entries) && b == Archive(c, entries)
  {
    if Parsed(c, native, b) == Some(entries) {
      HeaderDetermined(b);
      EntriesEncode(c, b[HEADER..], CountAt(b));
      assert b == b[..HEADER] + b[HEADER..];
    }
    if Acceptable(c, native, entries) && b == Archive(c, entries) {
      HeaderEncoded(|entries|, EncodeAll(c, entries));
      forall e | e in entries
        ensures Storable(e)
      {
        var k :| 0 <= k < |entries| && entries[k] == e;
        assert EntryOk(c, native, entries[k]);
      }
      EntriesEncoded(c, entries);
    }
  }

  // ------------------------------------------------------------------------------------------
  // Parsing.

  lemma {:induction false} EncodeAllAppend(c: Checks, a: seq<Entry>, b: seq<Entry>)
    ensures EncodeAll(c, a + b) == EncodeAll(c, a) + EncodeAll(c, b)
  {
    if a == [] {
      assert a + b == b;
    } else {
      assert (a + b)[1..] == a[1..] + b;
      EncodeAllAppend(c, a[1..], b);
    }
  }

  /** Once `done` has been read, the rest decides what the whole package is. */
  ghost predicate Remaining(c: Checks, b: Bytes, count: nat, done: seq<Entry>, pos: nat) {
    && |done| <= count && HEADER <= pos <= |b|
    && match Entries(c, b[pos..], count - |done|)
       case Some(rest) => Entries(c, b[HEADER..], count) == Some(done + rest)
       case None => Entries(c, b[HEADER..], count) == None
  }

  ghost predicate GoodSoFar(c: Checks, native: bool, done: seq<Entry>, names: set<Bytes>) {
    && (forall k :: 0 <= k < |done| ==> EntryOk(c, native, done[k])) && DistinctNames(done)
    && (forall name :: name in names <==> exists k :: 0 <= k < |done| && done[k].name == name)
  }

  lemma RemainingNext(c: Checks, b: Bytes, count: nat, done: seq<Entry>, pos: nat)
    requires Remaining(c, b, count, done, pos) && |done| < count
    ensures First(c, b[pos..]).None? ==> Entries(c, b[HEADER..], count).None?
    ensures First(c, b[pos..]).Some? ==>
              var e := First(c, b[pos..]).value;
              && Remaining(c, b, count, done + [e], pos + SizeOf(e))
              && (Entries(c, b[HEADER..], count).Some? ==> exists rest :: Entries(c, b[HEADER..], count) == Some(done + [e] + rest))
  {
    if First(c, b[pos..]).Some? {
      var e := First(c, b[pos..]).value;
      assert b[pos..][SizeOf(e)..] == b[pos + SizeOf(e)..];
      match Entries(c, b[pos + SizeOf(e)..], count - |done| - 1) {
        case None =>
        case Some(rest) => assert done + ([e] + rest) == done + [e] + rest;
      }
    }
  }

  lemma GoodNext(c: Checks, native: bool, done: seq<Entry>, names: set<Bytes>, e: Entry)
    requires GoodSoFar(c, native, done, names) && EntryOk(c, native, e) && e.name !in names
    ensures GoodSoFar(c, native, done + [e], names + {e.name})
  {
    var more := done + [e];
    assert more[|done|] == e && forall k :: 0 <= k < |done| ==> more[k] == done[k];
  }

  lemma Spoiled(c: Checks, native: bool, done: seq<Entry>, names: set<Bytes>, e: Entry, rest: seq<Entry>)
    requires GoodSoFar(c, native, done, names) && (!EntryOk(c, native, e) || e.name in names)
    ensures !Acceptable(c, native, done + [e] + rest)
  {
    var all := done + [e] + rest;
    assert all[|done|] == e && forall k :: 0 <= k < |done| ==> all[k] == done[k];
  }

  lemma EntryDecides(c: Checks, native: bool, b: Bytes, count: nat, done: seq<Entry>, names: set<Bytes>, pos: nat)
    requires HeaderOk(b) && CountAt(b) == count && |done| < count
    requires Remaining(c, b, count, done, pos) && GoodSoFar(c, native, done, names)
    ensures match First(c, b[pos..])
            case None => Parsed(c, native, b) == None
            case Some(e) =>
              if EntryOk(c, native, e) && e.name !in names
              then Remaining(c, b, count, done + [e], pos + SizeOf(e)) && GoodSoFar(c, native, done + [e], names + {e.name})
              else Parsed(c, native, b) == None
  {
    RemainingNext(c, b, count, done, pos);
    match First(c, b[pos..])
    case None =>
    case Some(e) =>
      if EntryOk(c, native, e) && e.name !in names {
        GoodNext(c, native, done, names, e);
      } else if Entries(c, b[HEADER..], count).Some? {
        var rest :| Entries(c, b[HEADER..], count) == Some(done + [e] + rest);
        Spoiled(c, native, done, names, e, rest);
      }
  }

  method ParsePackage(c: Checks, native: bool, b: Bytes) returns (r: Option<seq<Entry>>)
    ensures r == Parsed(c, native, b)
  {
    hide EntryOk, Entries, First, Parsed, GoodSoFar, HasKind;
    if |b| < HEADER || |b| > MAX_PACKAGE || !HeaderOk(b) {
      BadHeader(c, native, b);
      return None;
    }
    var count := CountAt(b);
    var pos: nat := HEADER;
    var done: seq<Entry>, names: set<Bytes> := [], {};
    var hasMetadata, hasModule := false, false;
    BeginParse(c, native, b, count);
    for i := 0 to count
      invariant |done| == i && Remaining(c, b, count, done, pos) && GoodSoFar(c, native, done, names)
      invariant (hasMetadata <==> HasKind(done, METADATA)) && (hasModule <==> HasKind(done, MODULE))
    {
      EntryDecides(c, native, b, count, done, names, pos);
      var entry := First(c, b[pos..]);
      if entry.None? || entry.value.name in names || !EntryOk(c, native, entry.value) {
        return None;
      }
      var e := entry.value;
      KindsNext(done, e);
      hasMetadata, hasModule := hasMetadata || e.kind == METADATA, hasModule || e.kind == MODULE;
      done, names, pos := done + [e], names + {e.name}, pos + SizeOf(e);
    }
    EndParse(c, native, b, count, done, names, pos);
    r := if hasMetadata && hasModule && pos == |b| then Some(done) else None;
  }

  lemma BadHeader(c: Checks, native: bool, b: Bytes)
    requires |b| > MAX_PACKAGE || !HeaderOk(b)
    ensures Parsed(c, native, b) == None
  {
  }

  lemma BeginParse(c: Checks, native: bool, b: Bytes, count: nat)
    requires |b| >= HEADER
    ensures Remaining(c, b, count, [], HEADER) && GoodSoFar(c, native, [], {})
    ensures !HasKind([], METADATA) && !HasKind([], MODULE)
  {
    match Entries(c, b[HEADER..], count) {
      case None =>
      case Some(all) => assert [] + all == all;
    }
  }

  lemma KindsNext(done: seq<Entry>, e: Entry)
    ensures forall kind :: HasKind(done + [e], kind) <==> HasKind(done, kind) || e.kind == kind
  {
    forall kind
      ensures HasKind(done + [e], kind) <==> HasKind(done, kind) || e.kind == kind
    {
      assert (done + [e])[|done|] == e;
      assert forall k :: 0 <= k < |done| ==> (done + [e])[k] == done[k];
    }
  }

  lemma EndParse(c: Checks, native: bool, b: Bytes, count: nat, done: seq<Entry>, names: set<Bytes>, pos: nat)
    requires HeaderOk(b) && |b| <= MAX_PACKAGE && CountAt(b) == count == |done|
    requires Remaining(c, b, count, done, pos) && GoodSoFar(c, native, done, names)
    ensures Parsed(c, native, b) ==
            if HasKind(done, METADATA) && HasKind(done, MODULE) && pos == |b| then Some(done) else None
  {
    if pos == |b| {
      assert done + [] == done;
      EntriesEncode(c, b[HEADER..], count);
    } else {
      assert b[pos..] != [];
    }
  }

  // ------------------------------------------------------------------------------------------
  // Building.

  lemma EncodedNext(c: Checks, entries: seq<Entry>, i: nat)
    requires i < |entries|
    ensures EncodeAll(c, entries[..i + 1]) == EncodeAll(c, entries[..i]) + EncodeEntry(c, entries[i])
    ensures |EncodeAll(c, entries[..i + 1])| <= |EncodeAll(c, entries)|
  {
    assert entries[..i + 1] == entries[..i] + [entries[i]];
    EncodeAllAppend(c, entries[..i], [entries[i]]);
    assert EncodeAll(c, [entries[i]]) == EncodeEntry(c, entries[i]) + [];
    assert entries == entries[..i + 1] + entries[i + 1..];
    EncodeAllAppend(c, entries[..i + 1], entries[i + 1..]);
  }

  predicate Fits(e: Entry) {
    |e.name| <= MAX_NAME && |e.data| <= MAX_MODULE
  }

  /** The sizes alone; everything else is left to the parser. */
  method CheckSizes(c: Checks, entries: seq<Entry>) returns (ok: bool)
    ensures ok ==> HEADER + |EncodeAll(c, entries)| <= MAX_PACKAGE && forall k :: 0 <= k < |entries| ==> Fits(entries[k])
    ensures !ok ==> !Acceptable(c, false, entries)
  {
    var size: nat := HEADER;
    for i := 0 to |entries|
      invariant size == HEADER + |EncodeAll(c, entries[..i])| <= MAX_PACKAGE
      invariant forall k :: 0 <= k < i ==> Fits(entries[k])
    {
      EncodedNext(c, entries, i);
      var e := entries[i];
      if !Fits(e) || SizeOf(e) > MAX_PACKAGE - size {
        assert Acceptable(c, false, entries) ==> EntryOk(c, false, entries[i]);
        return false;
      }
      size := size + SizeOf(e);
    }
    assert entries[..|entries|] == entries;
    return true;
  }

  method EncodeEntries(c: Checks, entries: seq<Entry>) returns (result: Bytes)
    ensures result == Archive(c, entries)
  {
    result := Header(|entries|);
    for i := 0 to |entries|
      invariant result == Header(|entries|) + EncodeAll(c, entries[..i])
    {
      EncodedNext(c, entries, i);
      result := result + EncodeHeader(c, entries[i]) + entries[i].data;
    }
    assert entries[..|entries|] == entries;
  }

  /** Builds the package of an entry list; it is one exactly if the list is acceptable. */
  method BuildPackage(c: Checks, entries: seq<Entry>) returns (r: Option<Bytes>)
    requires CrcOk(c) && forall k :: 0 <= k < |entries| ==> entries[k].kind < U32
    ensures r == if Acceptable(c, false, entries) then Some(Archive(c, entries)) else None
  {
    if |entries| < 2 || |entries| > MAX_ENTRIES {
      return None;
    }
    var ok := CheckSizes(c, entries);
    if !ok {
      return None;
    }
    var result := EncodeEntries(c, entries);
    var checked := ParsePackage(c, false, result);
    BuiltParses(c, entries);
    r := if checked.Some? then Some(result) else None;
  }

  lemma BuiltParses(c: Checks, entries: seq<Entry>)
    requires CrcOk(c) && 2 <= |entries| <= MAX_ENTRIES && HEADER + |EncodeAll(c, entries)| <= MAX_PACKAGE
    requires forall k :: 0 <= k < |entries| ==> entries[k].kind < U32 && Fits(entries[k])
    ensures Parsed(c, false, Archive(c, entries)) == if Acceptable(c, false, entries) then Some(entries) else None
  {
    HeaderEncoded(|entries|, EncodeAll(c, entries));
    EntriesEncoded(c, entries);
  }

  /** Building what an accepted package holds gives its exact bytes. */
  lemma RebuiltIsSame(c: Checks, native: bool, b: Bytes, entries: seq<Entry>)
    requires ChecksOk(c) && Parsed(c, native, b) == Some(entries)
    ensures Acceptable(c, false, entries) && Archive(c, entries) == b
  {
    ParsedIffArchive(c, native, b, entries);
    forall k | 0 <= k < |entries|
      ensures EntryOk(c, false, entries[k])
    {
      assert EntryOk(c, native, entries[k]);
    }
  }

  // ------------------------------------------------------------------------------------------
  // Installed plugins.

  function Headers(c: Checks, entries: seq<Entry>): Bytes {
    if entries == [] then [] else EncodeHeader(c, entries[0]) + Headers(c, entries[1..])
  }

  function Manifest(c: Checks, entries: seq<Entry>): Bytes {
    Header(|entries|) + Headers(c, entries)
  }

  function Files(entries: seq<Entry>): map<Bytes, Bytes> {
    if entries == [] then map[] else Files(entries[..|entries| - 1])[entries[|entries| - 1].name := entries[|entries| - 1].data]
  }

  /** What installing writes: each entry as a file, and the manifest. */
  function Directory(c: Checks, entries: seq<Entry>): map<Bytes, Bytes> {
    Files(entries)[MANIFEST_NAME := Manifest(c, entries)]
  }

  ghost predicate InstalledAs(c: Checks, dir: map<Bytes, Bytes>, entries: seq<Entry>) {
    Acceptable(c, true, entries) && dir == Directory(c, entries)
  }

  lemma {:induction false} FilesHold(entries: seq<Entry>)
    requires DistinctNames(entries)
    ensures forall name :: name in Files(entries) <==> exists k :: 0 <= k < |entries| && entries[k].name == name
    ensures forall k :: 0 <= k < |entries| ==> entries[k].name in Files(entries) && Files(entries)[entries[k].name] == entries[k].data
  {
    if entries != [] {
      var init := entries[..|entries| - 1];
      FilesHold(init);
      assert forall k :: 0 <= k < |init| ==> init[k] == entries[k];
    }
  }

  lemma {:induction false} HeadersSize(c: Checks, entries: seq<Entry>)
    requires forall k :: 0 <= k < |entries| ==> |entries[k].name| <= MAX_NAME
    ensures |Headers(c, entries)| <= |entries| * (ENTRY_HEADER + MAX_NAME)
  {
    if entries != [] {
      HeadersSize(c, entries[1..]);
    }
  }

  lemma {:induction false} HeadersAppend(c: Checks, a: seq<Entry>, b: seq<Entry>)
    ensures Headers(c, a + b) == Headers(c, a) + Headers(c, b)
  {
    if a == [] {
      assert a + b == b;
    } else {
      assert (a + b)[1..] == a[1..] + b;
      HeadersAppend(c, a[1..], b);
    }
  }

  /** The manifest always fits the size that reading it back allows. */
  lemma ManifestFits(c: Checks, entries: seq<Entry>)
    requires Acceptable(c, true, entries)
    ensures |Manifest(c, entries)| <= MAX_MANIFEST
  {
    forall k | 0 <= k < |entries|
      ensures |entries[k].name| <= MAX_NAME
    {
      assert EntryOk(c, true, entries[k]);
    }
    HeadersSize(c, entries);
    assert |entries| * (ENTRY_HEADER + MAX_NAME) <= 18 * 83;
  }

  /** An entry that the manifest may list next, given the file it names. */
  predicate Listable(c: Checks, dir: map<Bytes, Bytes>, e: Entry, names: set<Bytes>, total: nat) {
    && Named(c, e.kind, e.name) && SizeOk(e) && e.name !in names
    && e.name in dir && dir[e.name] == e.data && total + SizeOf(e) <= MAX_PACKAGE
  }

  /** Reads one file that the manifest lists: it has to be what the header says. */
  method ReadListed(c: Checks, dir: map<Bytes, Bytes>, rest: Bytes, names: set<Bytes>, total: nat) returns (entry: Option<Entry>)
    requires CrcOk(c)
    ensures entry.Some? ==>
              var e := entry.value;
              Listable(c, dir, e, names, total) && Storable(e) &&
              |EncodeHeader(c, e)| <= |rest| && rest == EncodeHeader(c, e) + After(c, rest, e)
    ensures entry.None? ==>
              forall e: Entry, more: Bytes ::
                Storable(e) && Listable(c, dir, e, names, total) ==> rest != EncodeHeader(c, e) + more
  {
    forall e: Entry, more: Bytes | Storable(e) && rest == EncodeHeader(c, e) + more
      ensures |rest| >= ENTRY_HEADER + |e.name| && KindAt(rest) == e.kind && NameSizeAt(rest) == |e.name|
      ensures SizeAt(rest) == |e.data| && CrcAt(rest) == c.crc(e.data) && rest[ENTRY_HEADER..ENTRY_HEADER + |e.name|] == e.name
    {
      HeaderFields(c, e, more);
    }
    if |rest| < ENTRY_HEADER {
      return None;
    }
    var kind, nameSize, size, crc := KindAt(rest), NameSizeAt(rest), SizeAt(rest), CrcAt(rest);
    if nameSize > |rest| - ENTRY_HEADER {
      return None;
    }
    var name := rest[ENTRY_HEADER..ENTRY_HEADER + nameSize];
    if !Named(c, kind, name) || size > MaxSize(kind) || total + size + nameSize + ENTRY_HEADER > MAX_PACKAGE || name in names {
      return None;
    }
    if name !in dir || |dir[name]| != size || c.crc(dir[name]) != crc {
      return None;
    }
    var e := Entry(kind, name, dir[name]);
    HeaderBytes(c, rest, e);
    return Some(e);
  }

  /** What of the manifest has been read, and what the archive has grown to. */
  ghost predicate Text(c: Checks, manifest: Bytes, count: nat, done: seq<Entry>, rest: Bytes, total: nat) {
    manifest == Header(count) + Headers(c, done) + rest && total == HEADER + |EncodeAll(c, done)|
  }

  /** The files of the entries read so far, under names that differ. */
  ghost predicate Listed(dir: map<Bytes, Bytes>, done: seq<Entry>, names: set<Bytes>) {
    && (forall k :: 0 <= k < |done| ==> Storable(done[k]) && done[k].name in dir && dir[done[k].name] == done[k].data)
    && DistinctNames(done)
    && (forall name :: name in names <==> name == MANIFEST_NAME || exists k :: 0 <= k < |done| && done[k].name == name)
    && (forall k :: 0 <= k < |done| ==> done[k].name != MANIFEST_NAME)
  }

  /** How far reading the manifest has come. */
  ghost predicate Reading(c: Checks, dir: map<Bytes, Bytes>, count: nat, done: seq<Entry>, rest: Bytes, names: set<Bytes>, total: nat) {
    MANIFEST_NAME in dir && Text(c, dir[MANIFEST_NAME], count, done, rest, total) && Listed(dir, done, names)
  }

  lemma HeadersNext(c: Checks, done: seq<Entry>, e: Entry)
    ensures Headers(c, done + [e]) == Headers(c, done) + EncodeHeader(c, e)
    ensures EncodeAll(c, done + [e]) == EncodeAll(c, done) + EncodeHeader(c, e) + e.data
  {
    hide EncodeHeader;
    HeadersAppend(c, done, [e]);
    EncodeAllAppend(c, done, [e]);
    assert Headers(c, [e]) == EncodeHeader(c, e) + [] && EncodeAll(c, [e]) == EncodeEntry(c, e) + [];
  }

  lemma Regroup(a: Bytes, b: Bytes, m: Bytes, d: Bytes)
    ensures a + b + (m + d) == a + (b + m) + d
  {
  }

  lemma TextNext(c: Checks, manifest: Bytes, count: nat, done: seq<Entry>, rest: Bytes, total: nat, e: Entry, after: Bytes)
    requires Text(c, manifest, count, done, rest, total) && rest == EncodeHeader(c, e) + after
    ensures Text(c, manifest, count, done + [e], after, total + SizeOf(e))
  {
    HeadersNext(c, done, e);
    Regroup(Header(count), Headers(c, done), EncodeHeader(c, e), after);
  }

  lemma ListedNext(dir: map<Bytes, Bytes>, done: seq<Entry>, names: set<Bytes>, e: Entry)
    requires Listed(dir, done, names) && Storable(e) && e.name !in names && e.name in dir && dir[e.name] == e.data
    ensures Listed(dir, done + [e], names + {e.name})
  {
    var more := done + [e];
    assert more[|done|] == e && forall k :: 0 <= k < |done| ==> more[k] == done[k];
    assert forall k :: 0 <= k < |done| ==> done[k].name in names;
  }

  /** The rest of the manifest, given that the first header in it has been recognized. */
  function After(c: Checks, rest: Bytes, e: Entry): Bytes
    requires |EncodeHeader(c, e)| <= |rest|
  {
    rest[|EncodeHeader(c, e)|..]
  }

  lemma ReadingNext(c: Checks, dir: map<Bytes, Bytes>, count: nat, done: seq<Entry>, rest: Bytes, names: set<Bytes>, total: nat, e: Entry)
    requires Reading(c, dir, count, done, rest, names, total) && Listable(c, dir, e, names, total) && Storable(e)
    requires |EncodeHeader(c, e)| <= |rest| && rest == EncodeHeader(c, e) + After(c, rest, e)
    ensures Reading(c, dir, count, done + [e], After(c, rest, e), names + {e.name}, total + SizeOf(e))
  {
    TextNext(c, dir[MANIFEST_NAME], count, done, rest, total, e, After(c, rest, e));
    ListedNext(dir, done, names, e);
  }

  /** If the directory was installed from `entries`, what has been read is their beginning. */
  ghost predicate Agrees(c: Checks, dir: map<Bytes, Bytes>, count: nat, done: seq<Entry>) {
    forall entries :: InstalledAs(c, dir, entries) ==> |entries| == count && done <= entries
  }

  lemma InstalledFiles(c: Checks, dir: map<Bytes, Bytes>, entries: seq<Entry>)
    requires InstalledAs(c, dir, entries) && ChecksOk(c)
    ensures MANIFEST_NAME in dir && dir[MANIFEST_NAME] == Manifest(c, entries)
    ensures forall k :: 0 <= k < |entries| ==>
              && entries[k].name != MANIFEST_NAME && entries[k].name in dir && dir[entries[k].name] == entries[k].data
              && Storable(entries[k]) && EntryOk(c, true, entries[k])
    ensures forall name :: name in dir <==> name == MANIFEST_NAME || exists k :: 0 <= k < |entries| && entries[k].name == name
  {
    FilesHold(entries);
    assert MANIFEST_NAME != METADATA_NAME && MANIFEST_NAME != MODULE_NAME by {
      assert MANIFEST_NAME[0] != METADATA_NAME[0] && MANIFEST_NAME[0] != MODULE_NAME[0];
    }
    forall k | 0 <= k < |entries|
      ensures entries[k].name != MANIFEST_NAME && Storable(entries[k]) && EntryOk(c, true, entries[k])
    {
      assert EntryOk(c, true, entries[k]);
    }
  }

  lemma InstalledRest(c: Checks, manifest: Bytes, count: nat, done: seq<Entry>, rest: Bytes, total: nat, entries: seq<Entry>)
    requires Text(c, manifest, count, done, rest, total) && manifest == Manifest(c, entries) && |entries| == count && done <= entries
    ensures rest == Headers(c, entries[|done|..])
  {
    assert entries == done + entries[|done|..];
    HeadersAppend(c, done, entries[|done|..]);
    var front := Header(count) + Headers(c, done);
    assert front + rest == front + Headers(c, entries[|done|..]);
    assert rest == (front + rest)[|front|..] == (front + Headers(c, entries[|done|..]))[|front|..];
  }

  /** The next listed entry of an installed directory is the next of the entries it came from. */
  lemma InstalledNext(c: Checks, dir: map<Bytes, Bytes>, count: nat, done: seq<Entry>, rest: Bytes, names: set<Bytes>, total: nat, entries: seq<Entry>)
    requires ChecksOk(c) && Reading(c, dir, count, done, rest, names, total) && |done| < count
    requires InstalledAs(c, dir, entries) && |entries| == count && done <= entries
    ensures Storable(entries[|done|]) && Listable(c, dir, entries[|done|], names, total)
    ensures rest == EncodeHeader(c, entries[|done|]) + Headers(c, entries[|done| + 1..])
  {
    InstalledFiles(c, dir, entries);
    InstalledRest(c, dir[MANIFEST_NAME], count, done, rest, total, entries);
    var i := |done|;
    assert entries[i..][0] == entries[i] && entries[i..][1..] == entries[i + 1..];
    NextListable(c, dir, done, names, total, entries);
  }

  lemma NextListable(c: Checks, dir: map<Bytes, Bytes>, done: seq<Entry>, names: set<Bytes>, total: nat, entries: seq<Entry>)
    requires Listed(dir, done, names) && total == HEADER + |EncodeAll(c, done)| && |done| < |entries| && done <= entries
    requires Acceptable(c, true, entries)
    requires forall k :: 0 <= k < |entries| ==>
               && entries[k].name != MANIFEST_NAME && entries[k].name in dir && dir[entries[k].name] == entries[k].data
               && EntryOk(c, true, entries[k])
    ensures Listable(c, dir, entries[|done|], names, total)
  {
    var i := |done|;
    var e := entries[i];
    assert EntryOk(c, true, e);
    EncodedNext(c, entries, i);
    assert entries[..i] == done;
    forall k | 0 <= k < |done|
      ensures done[k].name != e.name
    {
      assert entries[k] == done[k];
    }
  }

  lemma SameHeader(c: Checks, a: Entry, b: Entry, more: Bytes, other: Bytes, dir: map<Bytes, Bytes>)
    requires CrcOk(c) && Storable(a) && Storable(b) && EncodeHeader(c, a) + more == EncodeHeader(c, b) + other
    requires a.name in dir && dir[a.name] == a.data && b.name in dir && dir[b.name] == b.data
    ensures a == b
  {
    HeaderFields(c, a, more);
    HeaderFields(c, b, other);
  }

  lemma AgreesNext(c: Checks, dir: map<Bytes, Bytes>, count: nat, done: seq<Entry>, rest: Bytes, names: set<Bytes>, total: nat, e: Entry)
    requires ChecksOk(c) && Reading(c, dir, count, done, rest, names, total) && |done| < count && Agrees(c, dir, count, done)
    requires Storable(e) && Listable(c, dir, e, names, total)
    requires |EncodeHeader(c, e)| <= |rest| && rest == EncodeHeader(c, e) + After(c, rest, e)
    ensures Agrees(c, dir, count, done + [e])
  {
    forall entries | InstalledAs(c, dir, entries)
      ensures |entries| == count && done + [e] <= entries
    {
      AgreesWith(c, dir, count, done, rest, names, total, e, entries);
    }
  }

  lemma AgreesWith(c: Checks, dir: map<Bytes, Bytes>, count: nat, done: seq<Entry>, rest: Bytes, names: set<Bytes>, total: nat, e: Entry, entries: seq<Entry>)
    requires ChecksOk(c) && Reading(c, dir, count, done, rest, names, total) && |done| < count
    requires Storable(e) && Listable(c, dir, e, names, total)
    requires |EncodeHeader(c, e)| <= |rest| && rest == EncodeHeader(c, e) + After(c, rest, e)
    requires InstalledAs(c, dir, entries) && |entries| == count && done <= entries
    ensures done + [e] <= entries
  {
    InstalledNext(c, dir, count, done, rest, names, total, entries);
    var next := entries[|done|];
    SameHeader(c, e, next, After(c, rest, e), Headers(c, entries[|done| + 1..]), dir);
    assert entries[..|done| + 1] == done + [e];
  }

  /** A list that is read back from its own archive is what was written. */
  lemma ArchiveDetermines(c: Checks, done: seq<Entry>)
    requires CrcOk(c) && 2 <= |done| <= MAX_ENTRIES && forall k :: 0 <= k < |done| ==> Storable(done[k])
    ensures Parsed(c, true, Archive(c, done)).Some? ==> Parsed(c, true, Archive(c, done)) == Some(done) && Acceptable(c, true, done)
  {
    HeaderEncoded(|done|, EncodeAll(c, done));
    EntriesEncoded(c, done);
  }

  lemma DirectoryIs(c: Checks, dir: map<Bytes, Bytes>, count: nat, done: seq<Entry>, names: set<Bytes>, total: nat)
    requires Reading(c, dir, count, done, [], names, total) && |done| == count && dir.Keys == names
    ensures dir == Directory(c, done)
  {
    FilesHold(done);
    assert dir[MANIFEST_NAME] == Manifest(c, done);
    forall name | name in dir
      ensures name in Directory(c, done) && dir[name] == Directory(c, done)[name]
    {
      assert name in names;
    }
    forall name | name in Directory(c, done)
      ensures name in dir
    {
      assert name in names;
    }
  }

  lemma DoneInstalled(c: Checks, dir: map<Bytes, Bytes>, count: nat, done: seq<Entry>, rest: Bytes, names: set<Bytes>, total: nat, entries: seq<Entry>)
    requires ChecksOk(c) && Reading(c, dir, count, done, rest, names, total) && |done| == count
    requires InstalledAs(c, dir, entries) && |entries| == count && done <= entries
    ensures entries == done && rest == [] && dir.Keys == names && Parsed(c, true, Archive(c, done)) == Some(done)
  {
    InstalledFiles(c, dir, entries);
    InstalledRest(c, dir[MANIFEST_NAME], count, done, rest, total, entries);
    assert done == entries && entries[|done|..] == [];
    ParsedIffArchive(c, true, Archive(c, done), done);
  }

  /** Everything has been read: the directory is installed exactly if nothing else is there. */
  lemma ReadingDone(c: Checks, dir: map<Bytes, Bytes>, count: nat, done: seq<Entry>, rest: Bytes, names: set<Bytes>, total: nat)
    requires ChecksOk(c) && Reading(c, dir, count, done, rest, names, total) && Agrees(c, dir, count, done)
    requires |done| == count && 2 <= count <= MAX_ENTRIES
    ensures forall entries :: InstalledAs(c, dir, entries) ==>
              entries == done && rest == [] && dir.Keys == names && Parsed(c, true, Archive(c, done)) == Some(done)
    ensures rest == [] && dir.Keys == names && Parsed(c, true, Archive(c, done)).Some? ==> InstalledAs(c, dir, done)
  {
    forall entries | InstalledAs(c, dir, entries)
      ensures entries == done && rest == [] && dir.Keys == names && Parsed(c, true, Archive(c, done)) == Some(done)
    {
      DoneInstalled(c, dir, count, done, rest, names, total, entries);
    }
    if rest == [] && dir.Keys == names && Parsed(c, true, Archive(c, done)).Some? {
      ArchiveDetermines(c, done);
      DirectoryIs(c, dir, count, done, names, total);
    }
  }

  lemma StartReading(c: Checks, dir: map<Bytes, Bytes>, manifest: Bytes)
    requires ChecksOk(c) && MANIFEST_NAME in dir && dir[MANIFEST_NAME] == manifest && HeaderOk(manifest)
    ensures Reading(c, dir, CountAt(manifest), [], manifest[HEADER..], {MANIFEST_NAME}, HEADER)
    ensures Agrees(c, dir, CountAt(manifest), [])
  {
    HeaderDetermined(manifest);
    assert manifest == Header(CountAt(manifest)) + Headers(c, []) + manifest[HEADER..];
    forall entries | InstalledAs(c, dir, entries)
      ensures |entries| == CountAt(manifest)
    {
      InstalledFiles(c, dir, entries);
      HeaderEncoded(|entries|, Headers(c, entries));
    }
  }

  lemma NoManifest(c: Checks, dir: map<Bytes, Bytes>)
    requires ChecksOk(c)
    requires MANIFEST_NAME !in dir || |dir[MANIFEST_NAME]| > MAX_MANIFEST || !HeaderOk(dir[MANIFEST_NAME])
    ensures forall entries :: !InstalledAs(c, dir, entries)
  {
    forall entries | InstalledAs(c, dir, entries)
      ensures false
    {
      InstalledFiles(c, dir, entries);
      ManifestFits(c, entries);
      HeaderEncoded(|entries|, Headers(c, entries));
    }
  }

  /** A listed entry that cannot be read rules out that the directory was installed at all. */
  lemma NotListed(c: Checks, dir: map<Bytes, Bytes>, count: nat, done: seq<Entry>, rest: Bytes, names: set<Bytes>, total: nat)
    requires ChecksOk(c) && Reading(c, dir, count, done, rest, names, total) && |done| < count && Agrees(c, dir, count, done)
    requires forall e: Entry, more: Bytes :: Storable(e) && Listable(c, dir, e, names, total) ==> rest != EncodeHeader(c, e) + more
    ensures forall entries :: !InstalledAs(c, dir, entries)
  {
    forall entries | InstalledAs(c, dir, entries)
      ensures false
    {
      InstalledNext(c, dir, count, done, rest, names, total, entries);
    }
  }

  /** Reads the listed files one by one; failure means that the directory was not installed. */
  method ReadEntries(c: Checks, dir: map<Bytes, Bytes>, count: nat, start: Bytes)
    returns (ok: bool, rest: Bytes, names: set<Bytes>, entries: Bytes, ghost done: seq<Entry>, total: nat)
    requires ChecksOk(c) && Reading(c, dir, count, [], start, {MANIFEST_NAME}, HEADER) && Agrees(c, dir, count, [])
    ensures !ok ==> forall es :: !InstalledAs(c, dir, es)
    ensures ok ==> Reading(c, dir, count, done, rest, names, total) && Agrees(c, dir, count, done)
    ensures ok ==> |done| == count && entries == EncodeAll(c, done)
  {
    rest, names, entries, done, total := start, {MANIFEST_NAME}, [], [], HEADER;
    for i := 0 to count
      invariant |done| == i && Reading(c, dir, count, done, rest, names, total) && Agrees(c, dir, count, done)
      invariant entries == EncodeAll(c, done)
    {
      var entry := ReadListed(c, dir, rest, names, total);
      if entry.None? {
        NotListed(c, dir, count, done, rest, names, total);
        ok := false;
        return;
      }
      var e := entry.value;
      AgreesNext(c, dir, count, done, rest, names, total, e);
      ReadingNext(c, dir, count, done, rest, names, total, e);
      HeadersNext(c, done, e);
      entries := entries + EncodeHeader(c, e) + e.data;
      rest, names, total, done := After(c, rest, e), names + {e.name}, total + SizeOf(e), done + [e];
    }
    ok := true;
  }

  /**
   Puts the archive of an installed plugin together again. This works for exactly the directories
   that installing some package leaves behind, and gives that package.
   */
  method ReadInstalled(c: Checks, dir: map<Bytes, Bytes>) returns (archive: Option<Bytes>)
    requires ChecksOk(c)
    ensures archive.Some? <==> exists entries :: InstalledAs(c, dir, entries)
    ensures forall entries :: InstalledAs(c, dir, entries) ==> archive == Some(Archive(c, entries))
  {
    if MANIFEST_NAME !in dir || |dir[MANIFEST_NAME]| > MAX_MANIFEST || !HeaderOk(dir[MANIFEST_NAME]) {
      NoManifest(c, dir);
      return None;
    }
    var manifest := dir[MANIFEST_NAME];
    var count := CountAt(manifest);
    StartReading(c, dir, manifest);
    var ok, rest, names, encoded, done, total := ReadEntries(c, dir, count, manifest[HEADER..]);
    if !ok {
      return None;
    }
    ReadingDone(c, dir, count, done, rest, names, total);
    if rest != [] || dir.Keys != names {
      return None;
    }
    HeaderDetermined(manifest);
    var parsed := ParsePackage(c, true, manifest[..HEADER] + encoded);
    return if parsed.Some? then Some(manifest[..HEADER] + encoded) else None;
  }

  /** Installing a package and reading it back gives the package. */
  lemma InstalledRoundTrip(c: Checks, b: Bytes, entries: seq<Entry>)
    requires ChecksOk(c) && Parsed(c, true, b) == Some(entries)
    ensures InstalledAs(c, Directory(c, entries), entries) && Archive(c, entries) == b
  {
    ParsedIffArchive(c, true, b, entries);
  }

  /** Read back from the directory its installation leaves, a package is the same to the byte. */
  method ReadBack(c: Checks, b: Bytes, entries: seq<Entry>) returns (archive: Option<Bytes>)
    requires ChecksOk(c) && Parsed(c, true, b) == Some(entries)
    ensures archive == Some(b)
  {
    InstalledRoundTrip(c, b, entries);
    archive := ReadInstalled(c, Directory(c, entries));
  }
}
