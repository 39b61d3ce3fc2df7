/**
 The service discovery server (Core Specification volume 3 part B). It has two records and answers
 searches and attribute requests. An answer longer than the client asked for is fetched in parts: the
 server keeps nothing in between, the offset travels in the continuation state of section 4.3.
 */
module SdpServer {
  import opened Basics
  import opened ByteFormat

  const ERROR_RESPONSE: Byte := 1
  const SEARCH: Byte := 2
  const ATTRIBUTES: Byte := 4
  const SEARCH_ATTRIBUTES: Byte := 6
  const INVALID_HANDLE: nat := 2
  const INVALID_SYNTAX: nat := 3
  const INVALID_SIZE: nat := 4
  const INVALID_CONTINUATION: nat := 5
  const MAX_RANGES: nat := 32
  const MAX_PATTERN: nat := 12
  const LEAST_MAXIMUM: nat := 7
  const LEAST_CAPACITY: nat := 16
  const BODY_CAPACITY: nat := 256
  const LISTS_CAPACITY: nat := 600
  const FULL_CAPACITY: nat := 640
  const UINT: nat := 1
  const UUID: nat := 3
  const SEQUENCE: nat := 6

  // ------------------------------------------------------------------------------------------
  // Data elements.

  /** The kind of a data element, what is in it and how many bytes it takes. */
  datatype Element = Element(kind: nat, data: Bytes, total: nat)

  function Big(bytes: Bytes): nat {
    if bytes == [] then 0 else Big(bytes[..|bytes| - 1]) * 0x100 + bytes[|bytes| - 1]
  }

  /** Bytes that give the length, for the sizes that are not fixed. */
  function LengthBytes(kind: nat, code: nat): nat {
    if kind == 0 || code < 5 then 0 else if code == 5 then 1 else if code == 6 then 2 else 4
  }

  function FixedLength(code: nat): (n: nat)
    ensures code <= 4 ==> n == [1, 2, 4, 8, 16][code]
  {
    if code == 0 then 1 else if code == 1 then 2 else if code == 2 then 4 else if code == 3 then 8 else 16
  }

  /** The data element that the bytes begin with. */
  function ElementAt(p: Bytes): (e: Option<Element>)
    ensures e.Some? ==> 0 < e.value.total <= |p| && |e.value.data| < e.value.total
  {
    if p == [] then None
    else
      var kind, code := p[0] / 8, p[0] % 8;
      var wide := LengthBytes(kind, code);
      if |p| < 1 + wide then None
      else
        var length := if kind == 0 then 0 else if code < 5 then FixedLength(code) else Big(p[1..1 + wide]);
        if length > |p| - 1 - wide then None
        else Some(Element(kind, p[1 + wide..1 + wide + length], 1 + wide + length))
  }

  /** The bytes are one data element. */
  predicate IsElement(p: Bytes) {
    ElementAt(p).Some? && ElementAt(p).value.total == |p|
  }

  /** An element is read the same whatever follows it. */
  lemma ElementFirst(p: Bytes, rest: Bytes)
    requires IsElement(p)
    ensures ElementAt(p + rest) == ElementAt(p)
  {
    var e, wide := ElementAt(p).value, LengthBytes(p[0] / 8, p[0] % 8);
    assert (p + rest)[1..1 + wide] == p[1..1 + wide];
    assert (p + rest)[1 + wide..e.total] == p[1 + wide..e.total];
  }

  function SequenceHeader(n: nat): (h: Bytes)
    ensures 2 <= |h| <= 3
  {
    if n <= 0xff then [0x35, n] else [0x36] + Word(n)
  }

  function Sequence(body: Bytes): Bytes {
    SequenceHeader(|body|) + body
  }

  lemma BigByte(b: Byte)
    ensures Big([b]) == b
  {
    assert [b][..0] == [];
  }

  lemma BigWord(v: nat)
    requires v < U16
    ensures Big(Word(v)) == v && (v < 0x100 ==> Big([v]) == v)
  {
    var high: Byte := v / 0x100;
    assert Word(v) == [high, v % 0x100] && Word(v)[..1] == [high];
    BigByte(high);
    if v < 0x100 {
      BigByte(v);
    }
  }

  /** What is put into a sequence is found in it again. */
  lemma SequenceRead(body: Bytes)
    requires |body| < U16
    ensures ElementAt(Sequence(body)) == Some(Element(SEQUENCE, body, |Sequence(body)|))
  {
    var p, n := Sequence(body), |body|;
    BigWord(n);
    if n <= 0xff {
      assert p[1..2] == [n] && p[2..2 + n] == body;
    } else {
      assert p[1..3] == Word(n) && p[3..3 + n] == body;
    }
  }

  // ------------------------------------------------------------------------------------------
  // The records.

  datatype Attribute = Attribute(id: nat, value: Bytes)

  datatype Record = Record(handle: nat, attributes: seq<Attribute>, uuids: seq<nat>)

  const BROWSE_GROUPS: Bytes := [0x35, 0x03, 0x19, 0x10, 0x02]
  const SERVICE_NAME: Bytes := [0x25, 0x06, 65, 117, 100, 105, 111, 88]

  const AUDIO_SINK: Record := Record(0x10000, [
      Attribute(0x0000, [0x0a, 0x00, 0x01, 0x00, 0x00]),
      Attribute(0x0001, [0x35, 0x03, 0x19, 0x11, 0x0b]),
      Attribute(0x0004, [0x35, 0x10, 0x35, 0x06, 0x19, 0x01, 0x00, 0x09, 0x00, 0x19, 0x35, 0x06, 0x19, 0x00, 0x19, 0x09, 0x01, 0x03]),
      Attribute(0x0005, BROWSE_GROUPS),
      Attribute(0x0009, [0x35, 0x08, 0x35, 0x06, 0x19, 0x11, 0x0d, 0x09, 0x01, 0x03]),
      Attribute(0x0100, SERVICE_NAME),
      Attribute(0x0311, [0x09, 0x00, 0x02])],
    [0x110b, 0x110d, 0x0100, 0x0019, 0x1002])

  const REMOTE_TARGET: Record := Record(0x10001, [
      Attribute(0x0000, [0x0a, 0x00, 0x01, 0x00, 0x01]),
      Attribute(0x0001, [0x35, 0x03, 0x19, 0x11, 0x0c]),
      Attribute(0x0004, [0x35, 0x10, 0x35, 0x06, 0x19, 0x01, 0x00, 0x09, 0x00, 0x17, 0x35, 0x06, 0x19, 0x00, 0x17, 0x09, 0x01, 0x00]),
      Attribute(0x0005, BROWSE_GROUPS),
      Attribute(0x0009, [0x35, 0x08, 0x35, 0x06, 0x19, 0x11, 0x0e, 0x09, 0x01, 0x00]),
      Attribute(0x0100, SERVICE_NAME),
      Attribute(0x0311, [0x09, 0x00, 0x03])],
    [0x110c, 0x110e, 0x0100, 0x0017, 0x1002])

  const RECORDS: seq<Record> := [AUDIO_SINK, REMOTE_TARGET]

  // ------------------------------------------------------------------------------------------
  // Search patterns.

  const UNKNOWN: nat := 0xffff_ffff
  const BASE_UUID: Bytes := [0x00, 0x00, 0x10, 0x00, 0x80, 0x00, 0x00, 0x80, 0x5f, 0x9b, 0x34, 0xfb]

  /** A short service identifier; a long one that is not based on the common one is none we know. */
  function UuidValue(data: Bytes): Option<nat> {
    if |data| == 2 || |data| == 4 then Some(Big(data))
    else if |data| == 16 then Some(if data[4..] == BASE_UUID then Big(data[..4]) else UNKNOWN)
    else None
  }

  /**
   A long identifier on the common base means what its first four bytes mean; any other long one is in
   no record.
   */
  lemma LongUuids(data: Bytes)
    requires |data| == 16
    ensures data[4..] == [0, 0, 0x10, 0, 0x80, 0, 0, 0x80, 0x5f, 0x9b, 0x34, 0xfb] ==> UuidValue(data) == UuidValue(data[..4]) == Some(Big(data[..4]))
    ensures data[4..] != [0, 0, 0x10, 0, 0x80, 0, 0, 0x80, 0x5f, 0x9b, 0x34, 0xfb] ==>
              UuidValue(data).Some? && UuidValue(data).value !in AUDIO_SINK.uuids && UuidValue(data).value !in REMOTE_TARGET.uuids
  {
  }

  function UuidsIn(data: Bytes, count: nat): Option<seq<nat>>
    decreases |data|
  {
    if data == [] then Some([])
    else
      match ElementAt(data)
      case None => None
      case Some(e) =>
        if e.kind != UUID || count >= 12 || UuidValue(e.data).None? then None
        else
          match UuidsIn(data[e.total..], count + 1)
          case None => None
          case Some(rest) => Some([UuidValue(e.data).value] + rest)
  }

  /** The identifiers of a search pattern, if it is one. */
  function Pattern(e: Element): Option<seq<nat>> {
    if e.kind != SEQUENCE || e.data == [] then None else UuidsIn(e.data, 0)
  }

  predicate HasAll(record: Record, uuids: seq<nat>) {
    forall k :: 0 <= k < |uuids| ==> uuids[k] in record.uuids
  }

  lemma HasOneMore(record: Record, uuids: seq<nat>, uuid: nat)
    ensures HasAll(record, uuids + [uuid]) <==> HasAll(record, uuids) && uuid in record.uuids
    ensures HasAll(record, [])
  {
    var more := uuids + [uuid];
    assert more[|uuids|] == uuid && forall k :: 0 <= k < |uuids| ==> more[k] == uuids[k];
  }

  lemma {:induction false} UuidsStep(data: Bytes, count: nat)
    requires data != []
    ensures var e := ElementAt(data);
            if e.None? || e.value.kind != UUID || count >= MAX_PATTERN || UuidValue(e.value.data).None? then UuidsIn(data, count) == None
            else
              var rest := UuidsIn(data[e.value.total..], count + 1);
              UuidsIn(data, count) == if rest.None? then None else Some([UuidValue(e.value.data).value] + rest.value)
  {
  }

  /** Whether a pattern is well-formed, and whether the record has every identifier in it. */
  method MatchPattern(pattern: Element, record: Record) returns (ok: bool, matches: bool)
    ensures ok <==> Pattern(pattern).Some?
    ensures ok ==> (matches <==> HasAll(record, Pattern(pattern).value))
  {
    hide ElementAt, UuidsIn, UuidValue, HasAll;
    ok, matches := false, false;
    if pattern.kind != SEQUENCE {
      return;
    }
    var count, offset: nat, all := 0, 0, true;
    HasOneMore(record, [], 0);
    ghost var uuids: seq<nat> := [];
    ghost var found := UuidsIn(pattern.data, 0);
    assert pattern.data[0..] == pattern.data;
    assert found.Some? ==> [] + found.value == found.value;
    while offset < |pattern.data|
      invariant offset <= |pattern.data| && count == |uuids| && (offset > 0 ==> count > 0) && (offset == 0 ==> count == 0)
      invariant all <==> HasAll(record, uuids)
      invariant var rest := UuidsIn(pattern.data[offset..], count);
                found == if rest.None? then None else Some(uuids + rest.value)
      decreases |pattern.data| - offset
    {
      var data := pattern.data[offset..];
      UuidsStep(data, count);
      var e := ElementAt(data);
      if e.None? || e.value.kind != UUID {
        return;
      }
      offset := offset + e.value.total;
      count := count + 1;
      if count > MAX_PATTERN {
        return;
      }
      var value := UuidValue(e.value.data);
      if value.None? {
        return;
      }
      all := all && value.value in record.uuids;
      HasOneMore(record, uuids, value.value);
      ghost var rest := UuidsIn(pattern.data[offset..], count);
      assert data[e.value.total..] == pattern.data[offset..];
      assert rest.Some? ==> uuids + ([value.value] + rest.value) == (uuids + [value.value]) + rest.value;
      uuids := uuids + [value.value];
    }
    NoUuids(count);
    assert uuids + [] == uuids && pattern.data[offset..] == [];
    if count == 0 {
      return;
    }
    ok, matches := true, all;
  }

  lemma NoUuids(count: nat)
    ensures UuidsIn([], count) == Some([])
  {
  }

  // ------------------------------------------------------------------------------------------
  // Requested attributes.

  datatype Range = Range(low: nat, high: nat)

  /** One attribute or a range of them. */
  function RangeOf(data: Bytes): Option<Range> {
    if |data| == 2 then Some(Range(WordAt(data, 0), WordAt(data, 0)))
    else if |data| == 4 then Some(Range(WordAt(data, 0), WordAt(data, 2)))
    else None
  }

  /** Both forms of a range are read back. */
  lemma RangesRead(low: nat, high: nat)
    requires low < U16 && high < U16
    ensures RangeOf(Word(low)) == Some(Range(low, low)) && RangeOf(Word(low) + Word(high)) == Some(Range(low, high))
  {
    WordRead([], low, []);
    WordRead([], low, Word(high));
    WordRead(Word(low), high, []);
    assert [] + Word(low) + [] == Word(low) && [] + Word(low) + Word(high) == Word(low) + Word(high) + [] == Word(low) + Word(high);
  }

  function RangesIn(data: Bytes, count: nat): Option<seq<Range>>
    decreases |data|
  {
    if data == [] then Some([])
    else
      match ElementAt(data)
      case None => None
      case Some(e) =>
        if e.kind != UINT || count >= 32 || RangeOf(e.data).None? then None
        else
          match RangesIn(data[e.total..], count + 1)
          case None => None
          case Some(rest) => Some([RangeOf(e.data).value] + rest)
  }

  function Ranges(e: Element): Option<seq<Range>> {
    if e.kind != SEQUENCE || e.data == [] then None else RangesIn(e.data, 0)
  }

  lemma {:induction false} RangesStep(data: Bytes, count: nat)
    requires data != []
    ensures var e := ElementAt(data);
            if e.None? || e.value.kind != UINT || count >= MAX_RANGES || RangeOf(e.value.data).None? then RangesIn(data, count) == None
            else
              var rest := RangesIn(data[e.value.total..], count + 1);
              RangesIn(data, count) == if rest.None? then None else Some([RangeOf(e.value.data).value] + rest.value)
  {
  }

  lemma NoRanges(count: nat)
    ensures RangesIn([], count) == Some([])
  {
  }

  method ParseAttributeList(list: Element) returns (ranges: Option<seq<Range>>)
    ensures ranges == Ranges(list)
  {
    hide ElementAt, RangesIn, RangeOf;
    if list.kind != SEQUENCE {
      return None;
    }
    var found: seq<Range>, offset: nat := [], 0;
    ghost var all := RangesIn(list.data, 0);
    assert list.data[0..] == list.data;
    assert all.Some? ==> [] + all.value == all.value;
    while offset < |list.data|
      invariant offset <= |list.data| && (found == [] <==> offset == 0)
      invariant var rest := RangesIn(list.data[offset..], |found|);
                all == if rest.None? then None else Some(found + rest.value)
      decreases |list.data| - offset
    {
      var data := list.data[offset..];
      RangesStep(data, |found|);
      var e := ElementAt(data);
      if e.None? || e.value.kind != UINT || |found| >= MAX_RANGES {
        return None;
      }
      offset := offset + e.value.total;
      var range := RangeOf(e.value.data);
      if range.None? {
        return None;
      }
      ghost var rest := RangesIn(list.data[offset..], |found| + 1);
      assert data[e.value.total..] == list.data[offset..];
      assert rest.Some? ==> found + ([range.value] + rest.value) == (found + [range.value]) + rest.value;
      found := found + [range.value];
    }
    NoRanges(|found|);
    assert found + [] == found && list.data[offset..] == [];
    return if found == [] then None else Some(found);
  }

  predicate Wanted(ranges: seq<Range>, id: nat) {
    exists k :: 0 <= k < |ranges| && ranges[k].low <= id <= ranges[k].high
  }

  /** The attributes that are asked for, in the record's order. */
  function Chosen(attributes: seq<Attribute>, ranges: seq<Range>): seq<Attribute> {
    if attributes == [] then []
    else (if Wanted(ranges, attributes[0].id) then [attributes[0]] else []) + Chosen(attributes[1..], ranges)
  }

  /** An identifier and its value. */
  function Pair(a: Attribute): Bytes {
    [0x09] + Word(a.id) + a.value
  }

  function Pairs(attributes: seq<Attribute>): Bytes {
    if attributes == [] then [] else Pair(attributes[0]) + Pairs(attributes[1..])
  }

  /** Reads identifiers and values; the values stay as they are. */
  function ReadPairs(body: Bytes): Option<seq<Attribute>>
    decreases |body|
  {
    if body == [] then Some([])
    else
      match ElementAt(body)
      case None => None
      case Some(id) =>
        if id.kind != UINT || |id.data| != 2 then None
        else
          match ElementAt(body[id.total..])
          case None => None
          case Some(value) =>
            match ReadPairs(body[id.total + value.total..])
            case None => None
            case Some(rest) => Some([Attribute(WordAt(id.data, 0), body[id.total..id.total + value.total])] + rest)
  }

  predicate AttributeOk(a: Attribute) {
    a.id < U16 && IsElement(a.value)
  }

  lemma {:induction false} PairFirst(a: Attribute, rest: Bytes)
    requires AttributeOk(a)
    ensures var body := Pair(a) + rest;
            && ElementAt(body) == Some(Element(UINT, Word(a.id), 3)) && ElementAt(body[3..]).Some?
            && ElementAt(body[3..]).value.total == |a.value|
            && body[3..3 + |a.value|] == a.value && body[3 + |a.value|..] == rest && WordAt(Word(a.id), 0) == a.id
  {
    var body := Pair(a) + rest;
    assert body[3..] == a.value + rest;
    ElementFirst(a.value, rest);
    assert body[1..3] == Word(a.id);
    assert body[0] == 0x09;
  }

  /** A list of attributes can be read back. */
  lemma {:induction false} PairsRead(attributes: seq<Attribute>)
    requires forall k :: 0 <= k < |attributes| ==> AttributeOk(attributes[k])
    ensures ReadPairs(Pairs(attributes)) == Some(attributes)
  {
    hide ElementAt, Pair, WordAt, Word;
    if attributes != [] {
      PairFirst(attributes[0], Pairs(attributes[1..]));
      PairsRead(attributes[1..]);
      assert attributes == [attributes[0]] + attributes[1..];
    }
  }
  lemma {:induction false} PairsAppend(a: seq<Attribute>, b: seq<Attribute>)
    ensures Pairs(a + b) == Pairs(a) + Pairs(b)
  {
    if a == [] {
      assert a + b == b;
    } else {
      assert (a + b)[1..] == a[1..] + b;
      PairsAppend(a[1..], b);
    }
  }

  lemma {:induction false} ChosenAppend(a: seq<Attribute>, b: seq<Attribute>, ranges: seq<Range>)
    ensures Chosen(a + b, ranges) == Chosen(a, ranges) + Chosen(b, ranges)
  {
    hide Wanted;
    if a == [] {
      assert a + b == b;
    } else {
      assert (a + b)[1..] == a[1..] + b;
      ChosenAppend(a[1..], b, ranges);
    }
  }

  /** The list of a record's attributes that are asked for. */
  function ListOf(record: Record, ranges: seq<Range>): Bytes {
    Sequence(Pairs(Chosen(record.attributes, ranges)))
  }

  lemma {:induction false} OneChosen(attributes: seq<Attribute>, i: nat, ranges: seq<Range>)
    requires i < |attributes|
    ensures var a := attributes[i];
            Pairs(Chosen(attributes[..i + 1], ranges)) ==
            Pairs(Chosen(attributes[..i], ranges)) + if Wanted(ranges, a.id) then Pair(a) else []
  {
    var a := attributes[i];
    assert attributes[..i + 1] == attributes[..i] + [a];
    ChosenAppend(attributes[..i], [a], ranges);
    assert [a][1..] == [];
    var one := if Wanted(ranges, a.id) then [a] else [];
    assert Chosen([a], ranges) == one;
    PairsAppend(Chosen(attributes[..i], ranges), one);
  }

  lemma {:induction false} PrefixShorter(attributes: seq<Attribute>, i: nat, ranges: seq<Range>)
    requires i <= |attributes|
    ensures |Pairs(Chosen(attributes[..i], ranges))| <= |Pairs(Chosen(attributes, ranges))|
  {
    assert attributes == attributes[..i] + attributes[i..];
    ChosenAppend(attributes[..i], attributes[i..], ranges);
    PairsAppend(Chosen(attributes[..i], ranges), Chosen(attributes[i..], ranges));
  }

  method IsWanted(ranges: seq<Range>, id: nat) returns (wanted: bool)
    ensures wanted == Wanted(ranges, id)
  {
    wanted := false;
    for i := 0 to |ranges|
      invariant wanted <==> exists k :: 0 <= k < i && ranges[k].low <= id <= ranges[k].high
    {
      wanted := wanted || ranges[i].low <= id <= ranges[i].high;
    }
  }

  /** Appends the list if it fits into the buffer for its content and into what is left of the output. */
  method AppendAttributeList(record: Record, ranges: seq<Range>, out: Bytes, capacity: nat) returns (longer: Option<Bytes>)
    requires |out| <= capacity
    ensures longer == if |Pairs(Chosen(record.attributes, ranges))| <= BODY_CAPACITY && |out| + |ListOf(record, ranges)| <= capacity
                      then Some(out + ListOf(record, ranges)) else None
  {
    hide Wanted, Pairs, Chosen;
    var body: Bytes := [];
    NothingChosen(ranges);
    for i := 0 to |record.attributes|
      invariant body == Pairs(Chosen(record.attributes[..i], ranges)) && |body| <= BODY_CAPACITY
    {
      var a := record.attributes[i];
      OneChosen(record.attributes, i, ranges);
      PrefixShorter(record.attributes, i + 1, ranges);
      var wanted := IsWanted(ranges, a.id);
      if !wanted {
        continue;
      }
      var id := [0x09] + Word(a.id);
      if |id| > BODY_CAPACITY - |body| || |a.value| > BODY_CAPACITY - |body| - |id| {
        return None;
      }
      assert body + (id + a.value) == body + id + a.value;
      body := body + id + a.value;
    }
    assert record.attributes[..|record.attributes|] == record.attributes;
    var header := SequenceHeader(|body|);
    if |header| > capacity - |out| || |body| > capacity - |out| - |header| {
      return None;
    }
    assert out + header + body == out + (header + body);
    return Some(out + header + body);
  }

  lemma NothingChosen(ranges: seq<Range>)
    ensures Pairs(Chosen([], ranges)) == []
    ensures forall attributes: seq<Attribute> :: attributes[..0] == []
  {
  }

  // ------------------------------------------------------------------------------------------
  // The full answer.

  function Lists(records: seq<Record>, ranges: seq<Range>): Bytes {
    if records == [] then [] else ListOf(records[0], ranges) + Lists(records[1..], ranges)
  }

  /** The answer to one record's request, or to a search: a list of lists. */
  function Full(nested: bool, records: seq<Record>, ranges: seq<Range>): Bytes {
    if nested then Sequence(Lists(records, ranges)) else Lists(records, ranges)
  }

  /** The records that have every identifier. */
  function Matching(uuids: seq<nat>): seq<Record> {
    (if HasAll(AUDIO_SINK, uuids) then [AUDIO_SINK] else []) + (if HasAll(REMOTE_TARGET, uuids) then [REMOTE_TARGET] else [])
  }

  predicate RecordOk(record: Record) {
    |Pairs(record.attributes)| <= 75 && forall k :: 0 <= k < |record.attributes| ==> AttributeOk(record.attributes[k])
  }

  /** Some of the server's records, each at most once. */
  predicate Offered(records: seq<Record>) {
    records == [] || records == [AUDIO_SINK] || records == [REMOTE_TARGET] || records == [AUDIO_SINK, REMOTE_TARGET]
  }

  /** A value whose first byte says a fixed length, or whose second byte says its length. */
  predicate Simple(a: Attribute) {
    && a.id < U16 && |a.value| >= 2
    && match a.value[0]
       case 0x09 => |a.value| == 3
       case 0x0a => |a.value| == 5
       case 0x25 => a.value[1] == |a.value| - 2
       case 0x35 => a.value[1] == |a.value| - 2
       case _ => false
  }

  lemma SimpleOk(a: Attribute)
    requires Simple(a)
    ensures AttributeOk(a)
  {
    assert a.value[1..2] == [a.value[1]];
    BigByte(a.value[1]);
  }

  lemma {:induction false} SevenPairs(a: seq<Attribute>)
    requires |a| == 7
    ensures |Pairs(a)| == 21 + |a[0].value| + |a[1].value| + |a[2].value| + |a[3].value| + |a[4].value| + |a[5].value| + |a[6].value|
  {
    assert a[1..][1..] == a[2..] && a[2..][1..] == a[3..] && a[3..][1..] == a[4..] && a[4..][1..] == a[5..] && a[5..][1..] == a[6..];
    assert a[6..][1..] == [] && Pairs([]) == [];
    assert |Pairs(a[6..])| == 3 + |a[6].value|;
    assert |Pairs(a[5..])| == 3 + |a[5].value| + |Pairs(a[6..])|;
    assert |Pairs(a[4..])| == 3 + |a[4].value| + |Pairs(a[5..])|;
    assert |Pairs(a[3..])| == 3 + |a[3].value| + |Pairs(a[4..])|;
    assert |Pairs(a[2..])| == 3 + |a[2].value| + |Pairs(a[3..])|;
    assert |Pairs(a[1..])| == 3 + |a[1].value| + |Pairs(a[2..])|;
  }

  lemma SevenOk(record: Record)
    requires var a := record.attributes;
             && |a| == 7 && Simple(a[0]) && Simple(a[1]) && Simple(a[2]) && Simple(a[3]) && Simple(a[4]) && Simple(a[5]) && Simple(a[6])
             && |a[0].value| + |a[1].value| + |a[2].value| + |a[3].value| + |a[4].value| + |a[5].value| + |a[6].value| <= 54
    ensures RecordOk(record)
  {
    hide Simple, AttributeOk, Pairs;
    var a := record.attributes;
    SevenPairs(a);
    forall k | 0 <= k < |a|
      ensures AttributeOk(a[k])
    {
      SimpleOk(a[k]);
    }
  }

  /** Every value is one data element, and a record's whole list is far smaller than the buffers. */
  lemma RecordsOk()
    ensures RecordOk(AUDIO_SINK) && RecordOk(REMOTE_TARGET)
  {
    hide RecordOk;
    SevenOk(AUDIO_SINK);
    SevenOk(REMOTE_TARGET);
  }

  lemma {:induction false} ChosenOk(attributes: seq<Attribute>, ranges: seq<Range>)
    requires forall k :: 0 <= k < |attributes| ==> AttributeOk(attributes[k])
    ensures |Pairs(Chosen(attributes, ranges))| <= |Pairs(attributes)|
    ensures forall k :: 0 <= k < |Chosen(attributes, ranges)| ==> AttributeOk(Chosen(attributes, ranges)[k])
  {
    hide AttributeOk, Pair, Wanted;
    if attributes != [] {
      ChosenOk(attributes[1..], ranges);
      var one := if Wanted(ranges, attributes[0].id) then [attributes[0]] else [];
      PairsAppend(one, Chosen(attributes[1..], ranges));
      PairsAppend([attributes[0]], attributes[1..]);
      assert [attributes[0]] + attributes[1..] == attributes;
    }
  }
  lemma {:induction false} ListSize(record: Record, ranges: seq<Range>)
    requires RecordOk(record)
    ensures |Pairs(Chosen(record.attributes, ranges))| <= 75 && 2 <= |ListOf(record, ranges)| <= 77
  {
    ChosenOk(record.attributes, ranges);
  }

  /** The full answer fits every buffer it is put together in. */
  lemma {:induction false} FullSize(nested: bool, records: seq<Record>, ranges: seq<Range>)
    requires Offered(records) && (!nested ==> |records| == 1)
    ensures |Lists(records, ranges)| <= 154 && 2 <= |Full(nested, records, ranges)| <= 156
  {
    hide Pairs, Chosen, ListOf, RecordOk;
    RecordsOk();
    ListSize(AUDIO_SINK, ranges);
    ListSize(REMOTE_TARGET, ranges);
    ListsOfTwo(AUDIO_SINK, REMOTE_TARGET, ranges);
  }

  lemma {:induction false} ListsOfTwo(a: Record, b: Record, ranges: seq<Range>)
    ensures Lists([], ranges) == [] && Lists([a], ranges) == ListOf(a, ranges) && Lists([b], ranges) == ListOf(b, ranges)
    ensures Lists([a, b], ranges) == ListOf(a, ranges) + ListOf(b, ranges)
  {
    assert [a][1..] == [] && [b][1..] == [] && [a, b][1..] == [b];
  }

  // ------------------------------------------------------------------------------------------
  // Requests and replies.

  function Finish(pdu: Byte, transaction: nat, body: Bytes): Bytes {
    [pdu] + Word(transaction) + Word(|body|) + body
  }

  function ErrorReply(transaction: nat, code: nat): Bytes {
    Finish(ERROR_RESPONSE, transaction, Word(code))
  }

  /** The records a request is about and how many bytes say so. */
  datatype Selection = Selected(records: seq<Record>, size: nat) | Refused(code: nat)

  function Select(pdu: Byte, params: Bytes): (s: Selection)
    ensures s.Selected? ==> Offered(s.records) && s.size <= |params| && (pdu == ATTRIBUTES ==> |s.records| == 1)
  {
    if pdu == SEARCH || pdu == SEARCH_ATTRIBUTES then
      match ElementAt(params)
      case None => Refused(INVALID_SYNTAX)
      case Some(e) =>
        match Pattern(e)
        case None => Refused(INVALID_SYNTAX)
        case Some(uuids) => Selected(Matching(uuids), e.total)
    else if pdu == ATTRIBUTES then
      if |params| < 4 then Refused(INVALID_SYNTAX)
      else if Big(params[..4]) == AUDIO_SINK.handle then Selected([AUDIO_SINK], 4)
      else if Big(params[..4]) == REMOTE_TARGET.handle then Selected([REMOTE_TARGET], 4)
      else Refused(INVALID_HANDLE)
    else Refused(INVALID_SYNTAX)
  }

  function Handles(records: seq<Record>, count: nat): Bytes {
    if records == [] || count == 0 then []
    else Word(records[0].handle / U16) + Word(records[0].handle % U16) + Handles(records[1..], count - 1)
  }

  function SearchReply(transaction: nat, records: seq<Record>, maximum: nat, rest: Bytes, capacity: nat): Option<Bytes> {
    if rest == [] || rest[0] != 0 then Some(ErrorReply(transaction, INVALID_CONTINUATION))
    else
      var count := Least(|records|, maximum);
      if capacity < 10 + 4 * count then None
      else Some(Finish(SEARCH + 1, transaction, Word(|records|) + Word(count) + Handles(records, count) + [0]))
  }

  /** Which attributes are asked for and where the answer is to go on, or what is wrong. */
  datatype Wish = Wish(ranges: seq<Range>, resume: nat) | Malformed(code: nat)

  function WishOf(rest: Bytes, maximum: nat): Wish {
    match ElementAt(rest)
    case None => Malformed(INVALID_SYNTAX)
    case Some(list) =>
      if Ranges(list).None? || maximum < 7 || list.total == |rest| then Malformed(INVALID_SYNTAX)
      else
        var state := rest[list.total..];
        if state[0] == 2 && |state| >= 3 then Wish(Ranges(list).value, WordAt(state, 1))
        else if state[0] == 0 then Wish(Ranges(list).value, 0)
        else Malformed(INVALID_CONTINUATION)
  }

  /** Where the client goes on, if it has to. */
  function Continuation(resume: nat): Bytes {
    if resume == 0 then [0] else [2] + Word(resume)
  }

  /** Some bytes of the answer from an offset on, as many as are asked for, and where it goes on. */
  function PartFrom(full: Bytes, resume: nat, maximum: nat): Bytes
    requires resume < |full|
  {
    var end := resume + Least(|full| - resume, maximum);
    Word(end - resume) + full[resume..end] + Continuation(if end < |full| then end else 0)
  }

  function PartReply(pdu: Byte, transaction: nat, full: Bytes, maximum: nat, resume: nat, capacity: nat): Option<Bytes>
    requires pdu < 0xff
  {
    if resume >= |full| then Some(ErrorReply(transaction, INVALID_CONTINUATION))
    else if capacity < 10 + Least(|full| - resume, maximum) then None
    else Some(Finish(pdu + 1, transaction, PartFrom(full, resume, maximum)))
  }

  function AttributeReply(pdu: Byte, transaction: nat, records: seq<Record>, maximum: nat, rest: Bytes, capacity: nat): Option<Bytes>
    requires pdu < 0xff
  {
    match WishOf(rest, maximum)
    case Malformed(code) => Some(ErrorReply(transaction, code))
    case Wish(ranges, resume) =>
      PartReply(pdu, transaction, Full(pdu == SEARCH_ATTRIBUTES, records, ranges), maximum, resume, capacity)
  }

  /** The server's reply to a request, if there is one. */
  function Respond(request: Bytes, capacity: nat): Option<Bytes> {
    if |request| < 5 || capacity < LEAST_CAPACITY then None
    else
      var pdu, transaction, params := request[0], WordAt(request, 1), request[5..];
      if WordAt(request, 3) != |params| then Some(ErrorReply(transaction, INVALID_SIZE))
      else
        match Select(pdu, params)
        case Refused(code) => Some(ErrorReply(transaction, code))
        case Selected(records, size) =>
          if |params| - size < 2 then Some(ErrorReply(transaction, INVALID_SYNTAX))
          else
            var maximum, rest := WordAt(params, size), params[size + 2..];
            if pdu == SEARCH then SearchReply(transaction, records, maximum, rest, capacity)
            else AttributeReply(pdu, transaction, records, maximum, rest, capacity)
  }

  lemma Framed(pdu: Byte, transaction: nat, body: Bytes)
    requires transaction < U16 && |body| < U16
    ensures var r := Finish(pdu, transaction, body);
            && |r| == 5 + |body| && r[0] == pdu && WordAt(r, 1) == transaction && WordAt(r, 3) == |body| && r[5..] == body
  {
    WordRead([pdu], transaction, Word(|body|) + body);
    WordRead([pdu] + Word(transaction), |body|, body);
    assert Finish(pdu, transaction, body) == [pdu] + Word(transaction) + (Word(|body|) + body);
    assert Finish(pdu, transaction, body) == [pdu] + Word(transaction) + Word(|body|) + body;
  }

  /** What is wrong with a request is said in the reply: its length, the record it names, or its form. */
  lemma RefusalsSay(request: Bytes, capacity: nat)
    requires |request| >= 5 && capacity >= 16
    ensures var refused := (code: nat) => [1] + Word(WordAt(request, 1)) + Word(2) + Word(code);
            && (WordAt(request, 3) != |request| - 5 ==> Respond(request, capacity) == Some(refused(4)))
            && (WordAt(request, 3) == |request| - 5 && request[0] !in {2, 4, 6} ==> Respond(request, capacity) == Some(refused(3)))
            && (WordAt(request, 3) == |request| - 5 >= 4 && request[0] == 4 && Big(request[5..][..4]) !in {0x10000, 0x10001} ==>
                  Respond(request, capacity) == Some(refused(2)))
            && (WordAt(request, 3) == |request| - 5 && request[0] == 4 && |request| < 9 ==> Respond(request, capacity) == Some(refused(3)))
  {
    hide Big, ElementAt, AttributeReply, SearchReply, WordAt;
  }

  lemma {:induction false} HandlesSize(records: seq<Record>, count: nat)
    requires count <= |records|
    ensures |Handles(records, count)| == 4 * count
  {
    if count > 0 {
      HandlesSize(records[1..], count - 1);
    }
  }

  /** The reply fits, has the request's transaction and its own length, and is an error or of the kind that answers. */
  predicate IsReply(r: Bytes, pdu: Byte, transaction: nat, capacity: nat) {
    && 5 <= |r| <= capacity && WordAt(r, 1) == transaction && WordAt(r, 3) == |r| - 5
    && (r[0] == ERROR_RESPONSE || ((pdu == SEARCH || pdu == ATTRIBUTES || pdu == SEARCH_ATTRIBUTES) && r[0] == pdu + 1))
  }

  lemma {:induction false} ErrorFramed(pdu: Byte, transaction: nat, code: nat, capacity: nat)
    requires transaction < U16 && capacity >= LEAST_CAPACITY
    ensures IsReply(ErrorReply(transaction, code), pdu, transaction, capacity)
  {
    Framed(ERROR_RESPONSE, transaction, Word(code));
  }

  lemma {:induction false} SearchFramed(transaction: nat, records: seq<Record>, maximum: nat, rest: Bytes, capacity: nat)
    requires transaction < U16 && capacity >= LEAST_CAPACITY && |records| <= 2
    ensures var r := SearchReply(transaction, records, maximum, rest, capacity);
            r.Some? ==> IsReply(r.value, SEARCH, transaction, capacity)
  {
    hide Handles;
    ErrorFramed(SEARCH, transaction, INVALID_CONTINUATION, capacity);
    var count := Least(|records|, maximum);
    HandlesSize(records, count);
    Framed(SEARCH + 1, transaction, Word(|records|) + Word(count) + Handles(records, count) + [0]);
  }

  lemma {:induction false} PartFramed(pdu: Byte, transaction: nat, full: Bytes, resume: nat, maximum: nat, capacity: nat)
    requires transaction < U16 && resume < |full| <= 156 && capacity >= 10 + Least(|full| - resume, maximum)
    requires pdu == ATTRIBUTES || pdu == SEARCH_ATTRIBUTES
    ensures IsReply(Finish(pdu + 1, transaction, PartFrom(full, resume, maximum)), pdu, transaction, capacity)
  {
    Framed(pdu + 1, transaction, PartFrom(full, resume, maximum));
  }

  lemma {:induction false} AttributesFramed(pdu: Byte, transaction: nat, records: seq<Record>, maximum: nat, rest: Bytes, capacity: nat)
    requires transaction < U16 && capacity >= LEAST_CAPACITY && Offered(records) && (pdu == ATTRIBUTES ==> |records| == 1)
    requires pdu == ATTRIBUTES || pdu == SEARCH_ATTRIBUTES
    ensures var r := AttributeReply(pdu, transaction, records, maximum, rest, capacity);
            r.Some? ==> IsReply(r.value, pdu, transaction, capacity)
  {
    hide Full, Finish, IsReply, PartFrom, WishOf, Offered, ErrorReply;
    match WishOf(rest, maximum) {
      case Malformed(code) =>
        ErrorFramed(pdu, transaction, code, capacity);
      case Wish(ranges, resume) =>
        var full := Full(pdu == SEARCH_ATTRIBUTES, records, ranges);
        ErrorFramed(pdu, transaction, INVALID_CONTINUATION, capacity);
        FullSize(pdu == SEARCH_ATTRIBUTES, records, ranges);
        if resume < |full| && capacity >= 10 + Least(|full| - resume, maximum) {
          PartFramed(pdu, transaction, full, resume, maximum, capacity);
        }
    }
  }

  lemma SomeSelected(pdu: Byte, params: Bytes)
    requires Select(pdu, params).Selected?
    ensures pdu == SEARCH || pdu == ATTRIBUTES || pdu == SEARCH_ATTRIBUTES
    ensures |Select(pdu, params).records| <= 2
  {
  }

  /** Whatever the request, a reply is well-formed and meant for it. */
  lemma {:induction false} RepliesFramed(request: Bytes, capacity: nat)
    requires Respond(request, capacity).Some?
    ensures IsReply(Respond(request, capacity).value, request[0], WordAt(request, 1), capacity)
  {
    hide Select, IsReply, SearchReply, AttributeReply, ErrorReply, WordAt;
    var pdu, transaction, params := request[0], WordAt(request, 1), request[5..];
    ErrorFramed(pdu, transaction, INVALID_SIZE, capacity);
    ErrorFramed(pdu, transaction, INVALID_SYNTAX, capacity);
    match Select(pdu, params) {
      case Refused(code) =>
        ErrorFramed(pdu, transaction, code, capacity);
      case Selected(records, size) =>
        SomeSelected(pdu, params);
        if |params| - size >= 2 {
          var maximum, rest := WordAt(params, size), params[size + 2..];
          if pdu == SEARCH {
            SearchFramed(transaction, records, maximum, rest, capacity);
          } else {
            AttributesFramed(pdu, transaction, records, maximum, rest, capacity);
          }
        }
    }
  }

  // ------------------------------------------------------------------------------------------
  // The server.

  /** The records that match, as flags in the order of the records; none for a malformed pattern. */
  method MatchRecords(pattern: Element) returns (records: Option<seq<Record>>)
    ensures records == match Pattern(pattern) case None => None case Some(uuids) => Some(Matching(uuids))
  {
    hide Pattern, HasAll;
    var ok, first := MatchPattern(pattern, AUDIO_SINK);
    if !ok {
      return None;
    }
    var again, second := MatchPattern(pattern, REMOTE_TARGET);
    if !again {
      return None;
    }
    return Some((if first then [AUDIO_SINK] else []) + (if second then [REMOTE_TARGET] else []));
  }

  /** Puts the whole answer together; it always fits. */
  method BuildFull(nested: bool, records: seq<Record>, ranges: seq<Range>) returns (full: Option<Bytes>)
    requires Offered(records) && (!nested ==> |records| == 1)
    ensures full == Some(Full(nested, records, ranges))
  {
    hide Pairs, Chosen, ListOf, RecordOk;
    RecordsOk();
    ListSize(AUDIO_SINK, ranges);
    ListSize(REMOTE_TARGET, ranges);
    ListsOfTwo(AUDIO_SINK, REMOTE_TARGET, ranges);
    FullSize(nested, records, ranges);
    if !nested {
      full := AppendAttributeList(records[0], ranges, [], FULL_CAPACITY);
      assert [] + ListOf(records[0], ranges) == ListOf(records[0], ranges);
      return;
    }
    var lists: Bytes := [];
    for i := 0 to |records|
      invariant |lists| <= 77 * i && lists == Lists(records[..i], ranges)
    {
      FirstLists(records, i, ranges);
      var longer := AppendAttributeList(records[i], ranges, lists, LISTS_CAPACITY);
      if longer.None? {
        return None;
      }
      lists := longer.value;
    }
    assert records[..|records|] == records;
    var header := SequenceHeader(|lists|);
    if |header| > FULL_CAPACITY || |lists| > FULL_CAPACITY - |header| {
      return None;
    }
    return Some(header + lists);
  }

  lemma {:induction false} FirstLists(records: seq<Record>, i: nat, ranges: seq<Range>)
    requires Offered(records) && i < |records|
    ensures Lists(records[..i + 1], ranges) == Lists(records[..i], ranges) + ListOf(records[i], ranges)
  {
    hide ListOf;
    ListsOfTwo(records[0], records[|records| - 1], ranges);
    assert records[..0] == [] && records[..1] == [records[0]] && (|records| == 2 ==> records[..2] == [records[0], records[1]]);
    assert [] + ListOf(records[0], ranges) == ListOf(records[0], ranges);
  }

  /** Answers a request as specified. */
  method BuildSdpResponse(request: Bytes, capacity: nat) returns (reply: Option<Bytes>)
    ensures reply == Respond(request, capacity)
  {
    hide ElementAt, Pattern, Ranges, Matching, Full, Finish, Handles, Big, Offered;
    if |request| < 5 || capacity < LEAST_CAPACITY {
      return None;
    }
    var pdu, transaction, params := request[0], WordAt(request, 1), request[5..];
    if WordAt(request, 3) != |params| {
      return Some(ErrorReply(transaction, INVALID_SIZE));
    }
    ghost var selection := Select(pdu, params);
    var records: seq<Record>, offset: nat;
    if pdu == SEARCH || pdu == SEARCH_ATTRIBUTES {
      var pattern := ElementAt(params);
      if pattern.None? {
        return Some(ErrorReply(transaction, INVALID_SYNTAX));
      }
      var matching := MatchRecords(pattern.value);
      if matching.None? {
        return Some(ErrorReply(transaction, INVALID_SYNTAX));
      }
      records, offset := matching.value, pattern.value.total;
    } else if pdu == ATTRIBUTES {
      if |params| < 4 {
        return Some(ErrorReply(transaction, INVALID_SYNTAX));
      }
      var handle := Big(params[..4]);
      if handle == AUDIO_SINK.handle {
        records := [AUDIO_SINK];
      } else if handle == REMOTE_TARGET.handle {
        records := [REMOTE_TARGET];
      } else {
        return Some(ErrorReply(transaction, INVALID_HANDLE));
      }
      offset := 4;
    } else {
      return Some(ErrorReply(transaction, INVALID_SYNTAX));
    }
    assert selection == Selected(records, offset);
    if |params| - offset < 2 {
      return Some(ErrorReply(transaction, INVALID_SYNTAX));
    }
    var maximum, rest := WordAt(params, offset), params[offset + 2..];
    if pdu == SEARCH {
      reply := ReplyToSearch(transaction, records, maximum, rest, capacity);
    } else {
      reply := ReplyWithAttributes(pdu, transaction, records, maximum, rest, capacity);
    }
  }

  method ReplyToSearch(transaction: nat, records: seq<Record>, maximum: nat, rest: Bytes, capacity: nat) returns (reply: Option<Bytes>)
    ensures reply == SearchReply(transaction, records, maximum, rest, capacity)
  {
    hide Handles, Finish, Word, ErrorReply;
    if rest == [] || rest[0] != 0 {
      return Some(ErrorReply(transaction, INVALID_CONTINUATION));
    }
    var count := if |records| < maximum then |records| else maximum;
    if capacity < 10 + 4 * count {
      return None;
    }
    var handles: Bytes, i: nat := [], 0;
    assert records[0..] == records;
    while i < |records| && i < count
      invariant i <= count <= |records| && Handles(records, count) == handles + Handles(records[i..], count - i)
      decreases |records| - i
    {
      HandlesStep(records[i..], count - i);
      assert records[i..][1..] == records[i + 1..];
      var handle := Word(records[i].handle / U16) + Word(records[i].handle % U16);
      assert handles + (handle + Handles(records[i + 1..], count - i - 1)) == handles + handle + Handles(records[i + 1..], count - i - 1);
      handles, i := handles + handle, i + 1;
    }
    HandlesStep(records[i..], count - i);
    assert handles + [] == handles;
    return Some(Finish(SEARCH + 1, transaction, Word(|records|) + Word(count) + handles + [0]));
  }

  lemma HandlesStep(records: seq<Record>, count: nat)
    ensures Handles(records, count) ==
            if records == [] || count == 0 then []
            else Word(records[0].handle / U16) + Word(records[0].handle % U16) + Handles(records[1..], count - 1)
  {
  }

  method ReplyWithAttributes(pdu: Byte, transaction: nat, records: seq<Record>, maximum: nat, rest: Bytes, capacity: nat)
    returns (reply: Option<Bytes>)
    requires Offered(records) && (pdu == ATTRIBUTES ==> |records| == 1) && (pdu == ATTRIBUTES || pdu == SEARCH_ATTRIBUTES)
    ensures reply == AttributeReply(pdu, transaction, records, maximum, rest, capacity)
  {
    hide ElementAt, Ranges, Full, PartReply, Offered;
    var list := ElementAt(rest);
    if list.None? {
      return Some(ErrorReply(transaction, INVALID_SYNTAX));
    }
    var ranges := ParseAttributeList(list.value);
    if ranges.None? || maximum < LEAST_MAXIMUM {
      return Some(ErrorReply(transaction, INVALID_SYNTAX));
    }
    var offset := list.value.total;
    if |rest| - offset < 1 {
      return Some(ErrorReply(transaction, INVALID_SYNTAX));
    }
    var resume: nat, length := 0, rest[offset];
    assert rest[offset..][0] == length && |rest[offset..]| == |rest| - offset;
    if length == 2 && |rest| - offset - 1 >= 2 {
      resume := WordAt(rest, offset + 1);
      assert WordAt(rest[offset..], 1) == resume;
    } else if length != 0 {
      return Some(ErrorReply(transaction, INVALID_CONTINUATION));
    }
    reply := ReplyWithPart(pdu, transaction, records, ranges.value, maximum, resume, capacity);
  }

  /** The part of the answer from an offset on. */
  method ReplyWithPart(pdu: Byte, transaction: nat, records: seq<Record>, ranges: seq<Range>, maximum: nat, resume: nat, capacity: nat)
    returns (reply: Option<Bytes>)
    requires Offered(records) && (pdu == ATTRIBUTES ==> |records| == 1) && (pdu == ATTRIBUTES || pdu == SEARCH_ATTRIBUTES)
    requires maximum >= LEAST_MAXIMUM
    ensures reply == PartReply(pdu, transaction, Full(pdu == SEARCH_ATTRIBUTES, records, ranges), maximum, resume, capacity)
  {
    hide Full, Finish, Offered, Word;
    var full := BuildFull(pdu == SEARCH_ATTRIBUTES, records, ranges);
    if full.None? {
      return None;
    }
    if resume >= |full.value| && !(resume == 0 && full.value == []) {
      return Some(ErrorReply(transaction, INVALID_CONTINUATION));
    }
    FullSize(pdu == SEARCH_ATTRIBUTES, records, ranges);
    var chunk := |full.value| - resume;
    if chunk > maximum {
      chunk := maximum;
    }
    var more := resume + chunk < |full.value|;
    if capacity < 5 + 2 + chunk + 3 {
      return None;
    }
    var body := Word(chunk) + full.value[resume..resume + chunk];
    body := body + if more then [2] + Word(resume + chunk) else [0];
    assert body == PartFrom(full.value, resume, maximum);
    return Some(Finish(pdu + 1, transaction, body));
  }

  // ------------------------------------------------------------------------------------------
  // A client that fetches an answer part by part.

  /** An attribute request: what it is about, how much is wanted, which attributes, and where to go on. */
  function Request(pdu: Byte, transaction: nat, subject: Bytes, list: Bytes, maximum: nat, resume: nat): Bytes {
    Finish(pdu, transaction, subject + (Word(maximum) + (list + Continuation(resume))))
  }

  /** A part of an answer, and where the next one begins if there is one. */
  datatype Part = Part(bytes: Bytes, next: Option<nat>)

  function PartOf(body: Bytes): Option<Part> {
    if |body| < 3 || |body| < 3 + WordAt(body, 0) then None
    else
      var end := 2 + WordAt(body, 0);
      if body[end] == 0 && |body| == end + 1 then Some(Part(body[2..end], None))
      else if body[end] == 2 && |body| == end + 3 then Some(Part(body[2..end], Some(WordAt(body, end + 1))))
      else None
  }

  function ReadPart(reply: Bytes, pdu: Byte): Option<Part>
    requires pdu < 0xff
  {
    if |reply| < 5 || reply[0] != pdu + 1 then None else PartOf(reply[5..])
  }

  /** Asks again with what the last reply said, each time for as much as it likes, until all is there. */
  function Fetch(pdu: Byte, transaction: nat, subject: Bytes, list: Bytes, maxima: seq<nat>, resume: nat, capacity: nat): Option<Bytes>
    requires pdu < 0xff
    decreases |maxima|
  {
    if maxima == [] then None
    else
      match Respond(Request(pdu, transaction, subject, list, maxima[0], resume), capacity)
      case None => None
      case Some(reply) =>
        match ReadPart(reply, pdu)
        case None => None
        case Some(part) =>
          if part.next.None? then Some(part.bytes)
          else
            match Fetch(pdu, transaction, subject, list, maxima[1..], part.next.value, capacity)
            case None => None
            case Some(rest) => Some(part.bytes + rest)
  }

  /** The bytes say, by themselves, which records an attribute request is about. */
  predicate IsSubject(pdu: Byte, subject: Bytes) {
    && (pdu == ATTRIBUTES || pdu == SEARCH_ATTRIBUTES)
    && Select(pdu, subject).Selected? && Select(pdu, subject).size == |subject|
  }

  /** The bytes are a list of attributes and ranges. */
  predicate IsList(list: Bytes) {
    IsElement(list) && Ranges(ElementAt(list).value).Some?
  }

  /** Everything that is asked for. */
  function Answer(pdu: Byte, subject: Bytes, list: Bytes): Bytes
    requires IsSubject(pdu, subject) && IsList(list)
  {
    Full(pdu == SEARCH_ATTRIBUTES, Select(pdu, subject).records, Ranges(ElementAt(list).value).value)
  }

  lemma {:induction false} SubjectFirst(pdu: Byte, subject: Bytes, rest: Bytes)
    requires IsSubject(pdu, subject)
    ensures Select(pdu, subject + rest) == Select(pdu, subject)
  {
    hide ElementAt, Pattern, Matching;
    if pdu == ATTRIBUTES {
      assert (subject + rest)[..4] == subject[..4];
    } else {
      ElementFirst(subject, rest);
    }
  }

  lemma {:induction false} WishFirst(list: Bytes, maximum: nat, resume: nat)
    requires IsList(list) && maximum >= LEAST_MAXIMUM && resume < U16
    ensures WishOf(list + Continuation(resume), maximum) == Wish(Ranges(ElementAt(list).value).value, resume)
  {
    hide ElementAt, Ranges;
    ElementFirst(list, Continuation(resume));
    var state := (list + Continuation(resume))[|list|..];
    assert state == Continuation(resume);
    if resume > 0 {
      WordRead([2], resume, []);
      assert [2] + Word(resume) + [] == state;
    }
  }

  lemma {:induction false} RequestRead(pdu: Byte, transaction: nat, subject: Bytes, list: Bytes, maximum: nat, resume: nat, capacity: nat)
    requires IsSubject(pdu, subject) && IsList(list) && |subject| + |list| + 5 < U16 && transaction < U16
    requires LEAST_MAXIMUM <= maximum < U16 && resume < U16 && capacity >= LEAST_CAPACITY
    ensures Respond(Request(pdu, transaction, subject, list, maximum, resume), capacity) ==
            AttributeReply(pdu, transaction, Select(pdu, subject).records, maximum, list + Continuation(resume), capacity)
  {
    hide Select, AttributeReply, Finish, IsList, WordAt, IsSubject, ErrorReply, Continuation, Word;
    SizeOfState(resume);
    var rest := list + Continuation(resume);
    var params := subject + (Word(maximum) + rest);
    Framed(pdu, transaction, params);
    SubjectFirst(pdu, subject, Word(maximum) + rest);
    SubjectSize(pdu, subject);
    WordRead(subject, maximum, rest);
    assert subject + Word(maximum) + rest == params;
    assert params[|subject| + 2..] == rest;
  }

  lemma SizeOfState(resume: nat)
    ensures 1 <= |Continuation(resume)| <= 3
  {
  }

  lemma SubjectSize(pdu: Byte, subject: Bytes)
    requires IsSubject(pdu, subject)
    ensures Select(pdu, subject).Selected? && Select(pdu, subject).size == |subject| && pdu != SEARCH
    ensures Offered(Select(pdu, subject).records) && (pdu == ATTRIBUTES ==> |Select(pdu, subject).records| == 1)
    ensures pdu == ATTRIBUTES || pdu == SEARCH_ATTRIBUTES
  {
  }

  lemma {:induction false} PartFound(full: Bytes, resume: nat, maximum: nat)
    requires resume < |full| <= 156 && 0 < maximum
    ensures var end := resume + Least(|full| - resume, maximum);
            PartOf(PartFrom(full, resume, maximum)) == Some(Part(full[resume..end], if end < |full| then Some(end) else None))
  {
    hide Word, WordAt;
    var end := resume + Least(|full| - resume, maximum);
    var body := PartFrom(full, resume, maximum);
    var n, bytes, state := end - resume, full[resume..end], Continuation(if end < |full| then end else 0);
    WordRead([], n, bytes + state);
    assert [] + Word(n) + (bytes + state) == body;
    assert body[2..2 + n] == bytes && body[2 + n] == state[0];
    if end < |full| {
      WordRead(Word(n) + bytes + [2], end, []);
      assert Word(n) + bytes + [2] + Word(end) + [] == body;
    }
  }

  lemma {:induction false} PartRead(pdu: Byte, transaction: nat, full: Bytes, resume: nat, maximum: nat)
    requires pdu < 0xff && transaction < U16 && resume < |full| <= 156 && 0 < maximum
    ensures var end := resume + Least(|full| - resume, maximum);
            ReadPart(Finish(pdu + 1, transaction, PartFrom(full, resume, maximum)), pdu) ==
            Some(Part(full[resume..end], if end < |full| then Some(end) else None))
  {
    hide PartOf, Finish;
    PartFound(full, resume, maximum);
    PartSize(full, resume, maximum);
    Framed(pdu + 1, transaction, PartFrom(full, resume, maximum));
  }

  lemma PartSize(full: Bytes, resume: nat, maximum: nat)
    requires resume < |full|
    ensures |PartFrom(full, resume, maximum)| <= |full| + 5
  {
  }

  /** One exchange: the client gets the next bytes of the full answer and where to go on. */
  lemma {:induction false} OneExchange(pdu: Byte, transaction: nat, subject: Bytes, list: Bytes, maximum: nat, resume: nat, capacity: nat)
    requires IsSubject(pdu, subject) && IsList(list) && |subject| + |list| + 5 < U16 && transaction < U16
    requires LEAST_MAXIMUM <= maximum < U16 && capacity >= 166
    requires resume < |Answer(pdu, subject, list)|
    ensures var full := Answer(pdu, subject, list);
            var end := resume + Least(|full| - resume, maximum);
            var reply := Respond(Request(pdu, transaction, subject, list, maximum, resume), capacity);
            reply.Some? && ReadPart(reply.value, pdu) == Some(Part(full[resume..end], if end < |full| then Some(end) else None))
  {
    hide Select, Finish, Respond, Request, ReadPart, PartFrom, Full, WishOf, Offered, ElementAt, Ranges;
    SubjectSize(pdu, subject);
    var records, ranges := Select(pdu, subject).records, Ranges(ElementAt(list).value).value;
    var full := Answer(pdu, subject, list);
    FullSize(pdu == SEARCH_ATTRIBUTES, records, ranges);
    RequestRead(pdu, transaction, subject, list, maximum, resume, capacity);
    WishFirst(list, maximum, resume);
    PartRead(pdu, transaction, full, resume, maximum);
  }

  /**
   Whatever the client asks for each time, following the continuation state gives the full answer:
   every part is at least as long as the least maximum or the last.
   */
  lemma {:induction false} PartsJoin(pdu: Byte, transaction: nat, subject: Bytes, list: Bytes, maxima: seq<nat>, resume: nat, capacity: nat)
    requires IsSubject(pdu, subject) && IsList(list) && |subject| + |list| + 5 < U16 && transaction < U16 && capacity >= 166
    requires forall k :: 0 <= k < |maxima| ==> LEAST_MAXIMUM <= maxima[k] < U16
    requires var full := Answer(pdu, subject, list);
             resume < |full| <= resume + LEAST_MAXIMUM * |maxima|
    ensures var full := Answer(pdu, subject, list);
            Fetch(pdu, transaction, subject, list, maxima, resume, capacity) == Some(full[resume..])
    decreases |maxima|
  {
    hide Respond, Request, ReadPart, Answer, IsSubject, IsList;
    var full := Answer(pdu, subject, list);
    OneExchange(pdu, transaction, subject, list, maxima[0], resume, capacity);
    var end := resume + Least(|full| - resume, maxima[0]);
    if end < |full| {
      PartsJoin(pdu, transaction, subject, list, maxima[1..], end, capacity);
      assert full[resume..end] + full[end..] == full[resume..];
    } else {
      assert full[resume..end] == full[resume..];
    }
  }

  // ------------------------------------------------------------------------------------------
  // What a client learns.

  /** The attributes in one list. */
  function ReadList(e: Element): Option<seq<Attribute>> {
    if e.kind != SEQUENCE then None else ReadPairs(e.data)
  }

  function ReadLists(data: Bytes): Option<seq<seq<Attribute>>>
    decreases |data|
  {
    if data == [] then Some([])
    else
      match ElementAt(data)
      case None => None
      case Some(e) =>
        if ReadList(e).None? then None
        else
          match ReadLists(data[e.total..])
          case None => None
          case Some(rest) => Some([ReadList(e).value] + rest)
  }

  /** The attributes of one record, or of all the records that were searched for. */
  function ReadAnswer(nested: bool, answer: Bytes): Option<seq<seq<Attribute>>> {
    match ElementAt(answer)
    case None => None
    case Some(e) =>
      if e.total != |answer| then None
      else if nested then (if e.kind != SEQUENCE then None else ReadLists(e.data))
      else if ReadList(e).None? then None
      else Some([ReadList(e).value])
  }

  function ChosenOf(records: seq<Record>, ranges: seq<Range>): seq<seq<Attribute>> {
    if records == [] then [] else [Chosen(records[0].attributes, ranges)] + ChosenOf(records[1..], ranges)
  }

  lemma {:induction false} ListRead(record: Record, ranges: seq<Range>)
    requires RecordOk(record)
    ensures var list := ListOf(record, ranges);
            && ElementAt(list).Some? && ElementAt(list).value.total == |list|
            && ReadList(ElementAt(list).value) == Some(Chosen(record.attributes, ranges))
  {
    hide AttributeOk, ElementAt, Sequence;
    ChosenOk(record.attributes, ranges);
    SequenceRead(Pairs(Chosen(record.attributes, ranges)));
    PairsRead(Chosen(record.attributes, ranges));
  }

  lemma {:induction false} ListsRead(records: seq<Record>, ranges: seq<Range>)
    requires forall k :: 0 <= k < |records| ==> RecordOk(records[k])
    ensures ReadLists(Lists(records, ranges)) == Some(ChosenOf(records, ranges))
  {
    hide RecordOk, ElementAt, ReadList, ListOf, Chosen;
    if records != [] {
      var list, rest := ListOf(records[0], ranges), Lists(records[1..], ranges);
      ListRead(records[0], ranges);
      ElementFirst(list, rest);
      ListsRead(records[1..], ranges);
      assert (list + rest)[|list|..] == rest;
    }
  }

  /** The answer is read back as the attributes that are asked for, of each record that is asked for. */
  lemma {:induction false} AnswerRead(nested: bool, records: seq<Record>, ranges: seq<Range>)
    requires Offered(records) && (!nested ==> |records| == 1)
    ensures ReadAnswer(nested, Full(nested, records, ranges)) == Some(ChosenOf(records, ranges))
  {
    hide RecordOk, ElementAt, ReadList, ReadLists, ListOf, Chosen, Sequence;
    RecordsOk();
    FullSize(nested, records, ranges);
    if nested {
      ListsRead(records, ranges);
      SequenceRead(Lists(records, ranges));
    } else {
      ListRead(records[0], ranges);
      ListsOfTwo(records[0], records[0], ranges);
      assert records == [records[0]] && records[1..] == [];
      assert Full(false, records, ranges) == ListOf(records[0], ranges);
      assert ChosenOf(records, ranges) == [Chosen(records[0].attributes, ranges)];
    }
  }

  /**
   A client that asks part by part, as much as it likes at a time, ends up with exactly the attributes
   it asked for, of the records it asked for, in their order.
   */
  lemma {:induction false} ClientLearns(pdu: Byte, transaction: nat, subject: Bytes, list: Bytes, maxima: seq<nat>, capacity: nat)
    requires IsSubject(pdu, subject) && IsList(list) && |subject| + |list| + 5 < U16 && transaction < U16 && capacity >= 166
    requires (forall k :: 0 <= k < |maxima| ==> LEAST_MAXIMUM <= maxima[k] < U16) && |maxima| >= 23
    ensures var fetched := Fetch(pdu, transaction, subject, list, maxima, 0, capacity);
            && fetched.Some?
            && ReadAnswer(pdu == SEARCH_ATTRIBUTES, fetched.value) ==
               Some(ChosenOf(Select(pdu, subject).records, Ranges(ElementAt(list).value).value))
  {
    hide Fetch, ReadAnswer, ChosenOf, Full, ElementAt, Ranges, Offered;
    SubjectSize(pdu, subject);
    var records, ranges := Select(pdu, subject).records, Ranges(ElementAt(list).value).value;
    FullSize(pdu == SEARCH_ATTRIBUTES, records, ranges);
    PartsJoin(pdu, transaction, subject, list, maxima, 0, capacity);
    assert Answer(pdu, subject, list)[0..] == Answer(pdu, subject, list);
    AnswerRead(pdu == SEARCH_ATTRIBUTES, records, ranges);
  }
}
