/**
 The replies of the multicast DNS responder. It owns one host name with one IPv4 address, and the
 matching reverse name: every reply carries the address record and the record that says that there
 is nothing else (section 6.1 of RFC 6762), each once, as answer or as additional record.
 */
module MdnsReply {
  import opened Basics
  import opened ByteFormat
  import opened DnsName

  const TYPE_A: nat := 1
  const TYPE_PTR: nat := 12
  const TYPE_NSEC: nat := 47
  const TYPE_ANY: nat := 255
  const CLASS_IN: nat := 1
  const CLASS_ANY: nat := 255
  const TOP_BIT: nat := 0x8000
  const REPLY_FLAGS: nat := 0x8400
  const HEADER: nat := 12
  const MAX_QUESTIONS: nat := 32
  const TTL: nat := 120
  const LEGACY_TTL: nat := 10

  datatype Question = Question(name: Bytes, kind: nat, klass: nat)

  datatype Record = Record(name: Bytes, kind: nat, klass: nat, ttl: nat, data: Bytes)

  datatype Message = Message(id: nat, flags: nat, questions: seq<Question>, answers: seq<Record>, additional: seq<Record>)

  /** An item and the offset behind it. */
  datatype At<T> = At(item: T, next: nat)

  // ------------------------------------------------------------------------------------------
  // The wire format.

  lemma WordFound(packet: Bytes, offset: nat, v: nat)
    requires v < U16 && Found(packet, offset, Word(v))
    ensures offset + 2 <= |packet| && WordAt(packet, offset) == v
  {
    assert packet[offset] == packet[offset..offset + 2][0];
    assert packet[offset + 1] == packet[offset..offset + 2][1];
  }

  function Wire(name: Bytes): Bytes {
    match Written(name)
    case Some(w) => w
    case None => []
  }

  predicate Sendable(name: Bytes) {
    NameOk(name) && Written(name).Some?
  }

  function EncodeQuestion(q: Question): Bytes {
    Wire(q.name) + (Word(q.kind) + Word(q.klass))
  }

  function EncodeTail(r: Record): (b: Bytes)
    ensures |b| == 10
  {
    Word(r.kind) + Word(r.klass) + Word(r.ttl / U16) + Word(r.ttl % U16) + Word(|r.data|)
  }

  function EncodeRecord(r: Record): Bytes {
    Wire(r.name) + (EncodeTail(r) + r.data)
  }

  predicate QuestionOk(q: Question) {
    Sendable(q.name) && q.kind < U16 && q.klass < U16
  }

  predicate RecordOk(r: Record) {
    Sendable(r.name) && r.kind < U16 && r.klass < U16 && r.ttl < U32 && |r.data| < U16
  }

  function QuestionAt(packet: Bytes, offset: nat): Option<At<Question>> {
    match NameAt(packet, offset, [], None, MAX_NAME + 1)
    case None => None
    case Some(n) =>
      if n.next + 4 > |packet| then None
      else Some(At(Question(n.text, WordAt(packet, n.next), WordAt(packet, n.next + 2)), n.next + 4))
  }

  /** The rest of a record whose name has been read. */
  function RecordFrom(packet: Bytes, name: Bytes, next: nat): Option<At<Record>> {
    if next + 10 > |packet| || next + 10 + WordAt(packet, next + 8) > |packet| then None
    else
      var end := next + 10 + WordAt(packet, next + 8);
      Some(At(Record(name, WordAt(packet, next), WordAt(packet, next + 2),
                     WordAt(packet, next + 4) * U16 + WordAt(packet, next + 6), packet[next + 10..end]), end))
  }

  function RecordAt(packet: Bytes, offset: nat): Option<At<Record>> {
    match NameAt(packet, offset, [], None, MAX_NAME + 1)
    case None => None
    case Some(n) => RecordFrom(packet, n.text, n.next)
  }

  lemma {:induction false} WordsRead(packet: Bytes, next: nat, a: nat, b: nat)
    requires a < U16 && b < U16 && Found(packet, next, Word(a) + Word(b))
    ensures next + 4 <= |packet| && WordAt(packet, next) == a && WordAt(packet, next + 2) == b
  {
    FoundParts(packet, next, Word(a), Word(b));
    WordFound(packet, next, a);
    WordFound(packet, next + 2, b);
  }

  lemma {:induction false} QuestionIsRead(packet: Bytes, offset: nat, q: Question)
    requires QuestionOk(q) && Found(packet, offset, EncodeQuestion(q))
    ensures QuestionAt(packet, offset) == Some(At(q, offset + |EncodeQuestion(q)|))
  {
    hide NameAt, Wire, WordAt, Word, NameOk, Written, Found;
    WireIsRead(packet, offset, q.name, Word(q.kind) + Word(q.klass));
    WordsRead(packet, offset + |Wire(q.name)|, q.kind, q.klass);
  }

  lemma TailFound(packet: Bytes, offset: nat, r: Record)
    requires RecordOk(r) && Found(packet, offset, EncodeTail(r))
    ensures offset + 10 <= |packet| && WordAt(packet, offset) == r.kind && WordAt(packet, offset + 2) == r.klass
    ensures WordAt(packet, offset + 4) * U16 + WordAt(packet, offset + 6) == r.ttl && WordAt(packet, offset + 8) == |r.data|
  {
    var a, b, c, d, e := Word(r.kind), Word(r.klass), Word(r.ttl / U16), Word(r.ttl % U16), Word(|r.data|);
    FoundParts(packet, offset, a + b + c + d, e);
    FoundParts(packet, offset, a + b + c, d);
    FoundParts(packet, offset, a + b, c);
    FoundParts(packet, offset, a, b);
    WordFound(packet, offset, r.kind);
    WordFound(packet, offset + 2, r.klass);
    WordFound(packet, offset + 4, r.ttl / U16);
    WordFound(packet, offset + 6, r.ttl % U16);
    WordFound(packet, offset + 8, |r.data|);
  }

  lemma RestOfRecord(packet: Bytes, next: nat, r: Record)
    requires RecordOk(r) && Found(packet, next, EncodeTail(r) + r.data)
    ensures RecordFrom(packet, r.name, next) == Some(At(r, next + 10 + |r.data|))
  {
    FoundParts(packet, next, EncodeTail(r), r.data);
    TailFound(packet, next, r);
  }

  lemma RecordAfterName(packet: Bytes, offset: nat, n: Name)
    requires NameAt(packet, offset, [], None, MAX_NAME + 1) == Some(n)
    ensures RecordAt(packet, offset) == RecordFrom(packet, n.text, n.next)
  {
  }

  lemma WireIsRead(packet: Bytes, offset: nat, name: Bytes, rest: Bytes)
    requires Sendable(name) && Found(packet, offset, Wire(name) + rest)
    ensures NameAt(packet, offset, [], None, MAX_NAME + 1) == Some(Name(name, offset + |Wire(name)|))
    ensures Found(packet, offset + |Wire(name)|, rest)
  {
    FoundParts(packet, offset, Wire(name), rest);
    WrittenIsRead(packet, offset, name, MAX_NAME + 1);
  }

  lemma RecordSize(r: Record)
    ensures |EncodeRecord(r)| == |Wire(r.name)| + 10 + |r.data|
  {
  }

  lemma RecordIsRead(packet: Bytes, offset: nat, r: Record)
    requires RecordOk(r) && Found(packet, offset, EncodeRecord(r))
    ensures RecordAt(packet, offset) == Some(At(r, offset + |EncodeRecord(r)|))
  {
    hide NameAt, RecordAt, RecordFrom, Wire, EncodeTail, WordAt, NameOk, Written;
    var rest := EncodeTail(r) + r.data;
    WireIsRead(packet, offset, r.name, rest);
    var next := offset + |Wire(r.name)|;
    RestOfRecord(packet, next, r);
    RecordSize(r);
    RecordAfterName(packet, offset, Name(r.name, next));
  }

  /** Items one after the other. */
  function EncodeList<T>(encode: T -> Bytes, items: seq<T>): Bytes {
    if items == [] then [] else encode(items[0]) + EncodeList(encode, items[1..])
  }

  function ListAt<T>(read: (Bytes, nat) -> Option<At<T>>, packet: Bytes, offset: nat, count: nat): Option<At<seq<T>>>
    decreases count
  {
    if count == 0 then Some(At([], offset))
    else
      match read(packet, offset)
      case None => None
      case Some(first) =>
        match ListAt(read, packet, first.next, count - 1)
        case None => None
        case Some(rest) => Some(At([first.item] + rest.item, rest.next))
  }

  /** Wherever the item stands in the packet, reading there gives it back. */
  ghost predicate ReadsBack<T>(encode: T -> Bytes, read: (Bytes, nat) -> Option<At<T>>, packet: Bytes, item: T) {
    forall offset: nat :: Found(packet, offset, encode(item)) ==> read(packet, offset) == Some(At(item, offset + |encode(item)|))
  }

  ghost predicate AllReadBack<T>(encode: T -> Bytes, read: (Bytes, nat) -> Option<At<T>>, packet: Bytes, items: seq<T>) {
    items != [] ==> ReadsBack(encode, read, packet, items[0]) && AllReadBack(encode, read, packet, items[1..])
  }

  lemma {:induction false} ListIsRead<T>(encode: T -> Bytes, read: (Bytes, nat) -> Option<At<T>>, packet: Bytes, offset: nat, items: seq<T>)
    requires AllReadBack(encode, read, packet, items) && Found(packet, offset, EncodeList(encode, items))
    ensures ListAt(read, packet, offset, |items|) == Some(At(items, offset + |EncodeList(encode, items)|))
    decreases |items|
  {
    if items != [] {
      var rest := EncodeList(encode, items[1..]);
      FoundParts(packet, offset, encode(items[0]), rest);
      ListIsRead(encode, read, packet, offset + |encode(items[0])|, items[1..]);
      assert [items[0]] + items[1..] == items;
    }
  }

  predicate QuestionsOk(questions: seq<Question>) {
    questions != [] ==> QuestionOk(questions[0]) && QuestionsOk(questions[1..])
  }

  predicate RecordsOk(records: seq<Record>) {
    records != [] ==> RecordOk(records[0]) && RecordsOk(records[1..])
  }

  lemma {:induction false} QuestionReadsBack(packet: Bytes, q: Question)
    requires QuestionOk(q)
    ensures ReadsBack(EncodeQuestion, QuestionAt, packet, q)
  {
    hide QuestionOk, QuestionAt, EncodeQuestion;
    forall offset: nat | Found(packet, offset, EncodeQuestion(q))
      ensures QuestionAt(packet, offset) == Some(At(q, offset + |EncodeQuestion(q)|))
    {
      QuestionIsRead(packet, offset, q);
    }
  }

  lemma {:induction false} QuestionsReadBack(packet: Bytes, questions: seq<Question>)
    requires QuestionsOk(questions)
    ensures AllReadBack(EncodeQuestion, QuestionAt, packet, questions)
  {
    hide QuestionOk, QuestionAt, EncodeQuestion, ReadsBack;
    if questions != [] {
      QuestionsReadBack(packet, questions[1..]);
      QuestionReadsBack(packet, questions[0]);
    }
  }

  lemma {:induction false} RecordReadsBack(packet: Bytes, r: Record)
    requires RecordOk(r)
    ensures ReadsBack(EncodeRecord, RecordAt, packet, r)
  {
    hide RecordOk, RecordAt, EncodeRecord;
    forall offset: nat | Found(packet, offset, EncodeRecord(r))
      ensures RecordAt(packet, offset) == Some(At(r, offset + |EncodeRecord(r)|))
    {
      RecordIsRead(packet, offset, r);
    }
  }

  lemma {:induction false} RecordsReadBack(packet: Bytes, records: seq<Record>)
    requires RecordsOk(records)
    ensures AllReadBack(EncodeRecord, RecordAt, packet, records)
  {
    hide RecordOk, RecordAt, EncodeRecord, ReadsBack;
    if records != [] {
      RecordsReadBack(packet, records[1..]);
      RecordReadsBack(packet, records[0]);
    }
  }

  function EncodeHeader(m: Message): (b: Bytes)
    ensures |b| == HEADER
  {
    Word(m.id) + Word(m.flags) + Word(|m.questions|) + Word(|m.answers|) + Word(0) + Word(|m.additional|)
  }

  function Encode(m: Message): Bytes {
    EncodeHeader(m) + (EncodeList(EncodeQuestion, m.questions) + (EncodeList(EncodeRecord, m.answers) + EncodeList(EncodeRecord, m.additional)))
  }

  predicate MessageOk(m: Message) {
    && m.id < U16 && m.flags < U16 && |m.questions| < U16 && |m.answers| < U16 && |m.additional| < U16
    && QuestionsOk(m.questions) && RecordsOk(m.answers) && RecordsOk(m.additional)
  }

  /** Reads a whole message: as many records as the header counts, and nothing after them. */
  function Decode(packet: Bytes): Option<Message> {
    if |packet| < HEADER || WordAt(packet, 8) != 0 then None
    else
      match ListAt(QuestionAt, packet, HEADER, WordAt(packet, 4))
      case None => None
      case Some(q) =>
        match ListAt(RecordAt, packet, q.next, WordAt(packet, 6))
        case None => None
        case Some(a) =>
          match ListAt(RecordAt, packet, a.next, WordAt(packet, 10))
          case None => None
          case Some(e) =>
            if e.next != |packet| then None
            else Some(Message(WordAt(packet, 0), WordAt(packet, 2), q.item, a.item, e.item))
  }

  lemma HeaderFound(packet: Bytes, m: Message)
    requires MessageOk(m) && Found(packet, 0, EncodeHeader(m))
    ensures |packet| >= HEADER && WordAt(packet, 0) == m.id && WordAt(packet, 2) == m.flags && WordAt(packet, 4) == |m.questions|
    ensures WordAt(packet, 6) == |m.answers| && WordAt(packet, 8) == 0 && WordAt(packet, 10) == |m.additional|
  {
    var a, b, c, d, e, f := Word(m.id), Word(m.flags), Word(|m.questions|), Word(|m.answers|), Word(0), Word(|m.additional|);
    FoundParts(packet, 0, a + b + c + d + e, f);
    FoundParts(packet, 0, a + b + c + d, e);
    FoundParts(packet, 0, a + b + c, d);
    FoundParts(packet, 0, a + b, c);
    FoundParts(packet, 0, a, b);
    WordFound(packet, 0, m.id);
    WordFound(packet, 2, m.flags);
    WordFound(packet, 4, |m.questions|);
    WordFound(packet, 6, |m.answers|);
    WordFound(packet, 8, 0);
    WordFound(packet, 10, |m.additional|);
  }

  lemma PartsFound(h: Bytes, q: Bytes, a: Bytes, e: Bytes)
    ensures var packet := h + (q + (a + e));
            && Found(packet, 0, h) && Found(packet, |h|, q) && Found(packet, |h| + |q|, a) && Found(packet, |h| + |q| + |a|, e)
  {
    var packet := h + (q + (a + e));
    assert Found(packet, 0, packet);
    FoundParts(packet, 0, h, q + (a + e));
    FoundParts(packet, |h|, q, a + e);
    FoundParts(packet, |h| + |q|, a, e);
  }

  /** Three lists one after the other, whatever they are lists of. */
  lemma SectionsRead<Q, R>(encodeQ: Q -> Bytes, readQ: (Bytes, nat) -> Option<At<Q>>, encodeR: R -> Bytes, readR: (Bytes, nat) -> Option<At<R>>,
                           h: Bytes, qs: seq<Q>, answers: seq<R>, more: seq<R>)
    requires var packet := h + (EncodeList(encodeQ, qs) + (EncodeList(encodeR, answers) + EncodeList(encodeR, more)));
             && AllReadBack(encodeQ, readQ, packet, qs) && AllReadBack(encodeR, readR, packet, answers)
             && AllReadBack(encodeR, readR, packet, more)
    ensures var packet := h + (EncodeList(encodeQ, qs) + (EncodeList(encodeR, answers) + EncodeList(encodeR, more)));
            var first := |h| + |EncodeList(encodeQ, qs)|;
            var second := first + |EncodeList(encodeR, answers)|;
            && ListAt(readQ, packet, |h|, |qs|) == Some(At(qs, first))
            && ListAt(readR, packet, first, |answers|) == Some(At(answers, second))
            && ListAt(readR, packet, second, |more|) == Some(At(more, |packet|))
  {
    hide *;
    var q, a, e := EncodeList(encodeQ, qs), EncodeList(encodeR, answers), EncodeList(encodeR, more);
    var packet := h + (q + (a + e));
    PartsFound(h, q, a, e);
    ListIsRead(encodeQ, readQ, packet, |h|, qs);
    ListIsRead(encodeR, readR, packet, |h| + |q|, answers);
    ListIsRead(encodeR, readR, packet, |h| + |q| + |a|, more);
  }

  lemma AllRead(m: Message, packet: Bytes)
    requires MessageOk(m)
    ensures AllReadBack(EncodeQuestion, QuestionAt, packet, m.questions)
    ensures AllReadBack(EncodeRecord, RecordAt, packet, m.answers) && AllReadBack(EncodeRecord, RecordAt, packet, m.additional)
  {
    QuestionsReadBack(packet, m.questions);
    RecordsReadBack(packet, m.answers);
    RecordsReadBack(packet, m.additional);
  }

  lemma EncodedHeader(m: Message)
    requires MessageOk(m)
    ensures var packet := Encode(m);
            && |packet| >= HEADER && WordAt(packet, 0) == m.id && WordAt(packet, 2) == m.flags && WordAt(packet, 4) == |m.questions|
            && WordAt(packet, 6) == |m.answers| && WordAt(packet, 8) == 0 && WordAt(packet, 10) == |m.additional|
  {
    var h, rest := EncodeHeader(m), EncodeList(EncodeQuestion, m.questions) + (EncodeList(EncodeRecord, m.answers) + EncodeList(EncodeRecord, m.additional));
    assert Found(h + rest, 0, h) by {
      assert (h + rest)[0..|h|] == h;
    }
    HeaderFound(h + rest, m);
  }

  /** Every message decodes to itself, its counts included. */
  lemma EncodedDecodes(m: Message)
    requires MessageOk(m)
    ensures Decode(Encode(m)) == Some(m)
  {
    hide NameAt, EncodeQuestion, EncodeRecord, QuestionAt, RecordAt, EncodeList, ListAt, EncodeHeader, WordAt, Word, AllReadBack, QuestionsOk, RecordsOk, Wire;
    EncodedHeader(m);
    AllRead(m, Encode(m));
    SectionsRead(EncodeQuestion, QuestionAt, EncodeRecord, RecordAt, EncodeHeader(m), m.questions, m.answers, m.additional);
  }

  // ------------------------------------------------------------------------------------------
  // Which questions are answered.

  /** The host's name and its reverse name, both names that can be written, and its address. */
  datatype Host = Host(name: Bytes, reverse: Bytes, address: Bytes)

  predicate HostOk(host: Host) {
    Sendable(host.name) && Sendable(host.reverse) && |host.address| == 4
  }

  function Lower(b: Byte): Byte {
    if 65 <= b <= 90 then b + 32 else b
  }

  predicate SameName(a: Bytes, b: Bytes) {
    |a| == |b| && forall k :: 0 <= k < |a| ==> Lower(a[k]) == Lower(b[k])
  }

  predicate AsksHost(host: Host, q: Question) {
    SameName(q.name, host.name)
  }

  predicate AsksReverse(host: Host, q: Question) {
    !AsksHost(host, q) && SameName(q.name, host.reverse) && (q.kind == TYPE_PTR || q.kind == TYPE_ANY)
  }

  /** The question is for this host, in a class it answers. */
  predicate Matches(host: Host, q: Question) {
    (q.klass == CLASS_IN || q.klass == CLASS_ANY) && (AsksHost(host, q) || AsksReverse(host, q))
  }

  predicate WantsA(host: Host, q: Question) {
    AsksHost(host, q) && (q.kind == TYPE_A || q.kind == TYPE_ANY)
  }

  /** The class without the bit that asks for a unicast reply. */
  function Asked(q: Question): Question {
    q.(klass := q.klass % TOP_BIT)
  }

  function Masked(questions: seq<Question>): (r: seq<Question>)
    ensures |r| == |questions|
  {
    if questions == [] then [] else Masked(questions[..|questions| - 1]) + [Asked(questions[|questions| - 1])]
  }

  /** The questions of a query that are answered, as they were asked, up to the first that cannot be read. */
  function Answered(host: Host, query: Bytes, offset: nat, count: nat): (r: seq<Question>)
    ensures |r| <= count
    decreases count
  {
    if count == 0 then []
    else
      match QuestionAt(query, offset)
      case None => []
      case Some(q) =>
        (if Matches(host, Asked(q.item)) then [q.item] else []) + Answered(host, query, q.next, count - 1)
  }

  function QuestionCount(query: Bytes): (n: nat)
    requires |query| >= HEADER
    ensures n <= 32 && n <= WordAt(query, 4) && (n == 32 || n == WordAt(query, 4))
  {
    if WordAt(query, 4) < MAX_QUESTIONS then WordAt(query, 4) else MAX_QUESTIONS
  }

  function ToAnswer(host: Host, query: Bytes): seq<Question>
    requires |query| >= HEADER
  {
    Answered(host, query, HEADER, QuestionCount(query))
  }

  /** A plain query: no response, operation code zero. */
  predicate PlainQuery(query: Bytes) {
    |query| >= HEADER && WordAt(query, 2) < 0x800
  }

  // ------------------------------------------------------------------------------------------
  // The reply.

  function AddressRecord(host: Host, klass: nat, ttl: nat): Record {
    Record(host.name, TYPE_A, klass, ttl, host.address)
  }

  /** Only an address record exists for the host name. */
  function OnlyAddress(host: Host, klass: nat, ttl: nat): Record {
    Record(host.name, TYPE_NSEC, klass, ttl, Wire(host.name) + [0, 1, 0x40])
  }

  function ReverseRecord(host: Host, klass: nat, ttl: nat): Record {
    Record(host.reverse, TYPE_PTR, klass, ttl, Wire(host.name))
  }

  function When(b: bool, r: Record): seq<Record> {
    if b then [r] else []
  }

  predicate SomeQuestion(questions: seq<Question>, wanted: Question -> bool) {
    exists k :: 0 <= k < |questions| && wanted(questions[k])
  }

  /** The reply to some questions: what is asked for as answers, the rest of the host's records beside them. */
  function ReplyTo(host: Host, questions: seq<Question>, id: nat, legacy: bool): Message {
    var ttl, klass := if legacy then LEGACY_TTL else TTL, if legacy then CLASS_IN else CLASS_IN + TOP_BIT;
    var a, nsec, ptr := AddressRecord(host, klass, ttl), OnlyAddress(host, klass, ttl), ReverseRecord(host, klass, ttl);
    var wantA := SomeQuestion(questions, q => WantsA(host, q));
    var wantNsec := SomeQuestion(questions, q => AsksHost(host, q) && !WantsA(host, q));
    var wantPtr := SomeQuestion(questions, q => AsksReverse(host, q));
    Message(if legacy then id else 0, REPLY_FLAGS, if legacy then questions else [],
            When(wantA, a) + When(wantNsec, nsec) + When(wantPtr, ptr), When(!wantA, a) + When(!wantNsec, nsec))
  }

  /** How often a record of the type occurs. */
  function Times(records: seq<Record>, kind: nat): nat {
    if records == [] then 0 else (if records[0].kind == kind then 1 else 0) + Times(records[1..], kind)
  }

  lemma {:induction false} TimesAppend(a: seq<Record>, b: seq<Record>, kind: nat)
    ensures Times(a + b, kind) == Times(a, kind) + Times(b, kind)
  {
    if a == [] {
      assert a + b == b;
    } else {
      assert (a + b)[1..] == a[1..] + b;
      TimesAppend(a[1..], b, kind);
    }
  }

  lemma TimesWhen(b: bool, r: Record, kind: nat)
    ensures Times(When(b, r), kind) == if b && r.kind == kind then 1 else 0
  {
  }

  predicate SameLetter(a: Byte, b: Byte) {
    a == b || (65 <= a <= 90 && b == a + 32) || (65 <= b <= 90 && a == b + 32)
  }

  /**
   Which questions are answered, with and without the bit that asks for a unicast reply: any about the
   host's name, and those for its reverse name that ask for a pointer or for everything; capital and
   small letters are the same.
   */
  lemma MatchesIff(host: Host, q: Question)
    ensures var isName := |q.name| == |host.name| && forall k :: 0 <= k < |q.name| ==> SameLetter(q.name[k], host.name[k]);
            var isReverse := |q.name| == |host.reverse| && forall k :: 0 <= k < |q.name| ==> SameLetter(q.name[k], host.reverse[k]);
            && (Matches(host, Asked(q)) <==>
                  q.klass % 0x8000 in {1, 255} && (isName || (isReverse && q.kind in {12, 255})))
            && (WantsA(host, q) <==> isName && q.kind in {1, 255})
            && (AsksReverse(host, q) <==> !isName && isReverse && q.kind in {12, 255})
  {
    LowerSame(q.name, host.name);
    LowerSame(q.name, host.reverse);
    hide SameName;
  }

  lemma LowerSame(a: Bytes, b: Bytes)
    ensures SameName(a, b) <==> |a| == |b| && forall k :: 0 <= k < |a| ==> SameLetter(a[k], b[k])
  {
  }

  predicate IsRecordOf(host: Host, r: Record, legacy: bool) {
    && r.ttl == (if legacy then 10 else 120) && r.klass == (if legacy then 1 else 0x8001)
    && ((r.kind == 1 && r.name == host.name && r.data == host.address)
        || (r.kind == 47 && r.name == host.name && r.data == Wire(host.name) + [0, 1, 0x40])
        || (r.kind == 12 && r.name == host.reverse && r.data == Wire(host.name)))
  }

  /** What a reply says: authoritative, and nothing but the host's address, its denial of all others and its name. */
  lemma ReplySays(host: Host, questions: seq<Question>, id: nat, legacy: bool)
    ensures var m := ReplyTo(host, questions, id, legacy);
            && m.flags == 0x8400 && m.id == (if legacy then id else 0) && m.questions == (if legacy then questions else [])
            && (forall r :: r in m.answers || r in m.additional ==> IsRecordOf(host, r, legacy))
  {
    var ttl, klass := if legacy then LEGACY_TTL else TTL, if legacy then CLASS_IN else CLASS_IN + TOP_BIT;
    var a, nsec, ptr := AddressRecord(host, klass, ttl), OnlyAddress(host, klass, ttl), ReverseRecord(host, klass, ttl);
    RecordsSay(host, legacy, klass, ttl);
    hide IsRecordOf, SomeQuestion, AddressRecord, OnlyAddress, ReverseRecord, When;
    var wantA := SomeQuestion(questions, q => WantsA(host, q));
    var wantNsec := SomeQuestion(questions, q => AsksHost(host, q) && !WantsA(host, q));
    OnlyThese(a, nsec, ptr, wantA, wantNsec, SomeQuestion(questions, q => AsksReverse(host, q)));
  }

  lemma RecordsSay(host: Host, legacy: bool, klass: nat, ttl: nat)
    requires ttl == (if legacy then LEGACY_TTL else TTL) && klass == (if legacy then CLASS_IN else CLASS_IN + TOP_BIT)
    ensures IsRecordOf(host, AddressRecord(host, klass, ttl), legacy) && IsRecordOf(host, OnlyAddress(host, klass, ttl), legacy)
    ensures IsRecordOf(host, ReverseRecord(host, klass, ttl), legacy)
  {
    hide Wire;
  }

  lemma OnlyThese(a: Record, nsec: Record, ptr: Record, wantA: bool, wantNsec: bool, wantPtr: bool)
    ensures forall r :: r in When(wantA, a) + When(wantNsec, nsec) + When(wantPtr, ptr) ==> r == a || r == nsec || r == ptr
    ensures var beside := When(!wantA, a) + When(!wantNsec, nsec); forall r :: r in beside ==> r == a || r == nsec
  {
  }

  /** Every reply has the address record once and the record that denies all others once. */
  lemma ReplyHasBoth(host: Host, questions: seq<Question>, id: nat, legacy: bool)
    ensures var m := ReplyTo(host, questions, id, legacy);
            && Times(m.answers, TYPE_A) + Times(m.additional, TYPE_A) == 1
            && Times(m.answers, TYPE_NSEC) + Times(m.additional, TYPE_NSEC) == 1
            && (Times(m.answers, TYPE_A) == 1 <==> SomeQuestion(questions, q => WantsA(host, q)))
            && (Times(m.answers, TYPE_PTR) == 1 <==> SomeQuestion(questions, q => AsksReverse(host, q)))
  {
    var ttl, klass := if legacy then LEGACY_TTL else TTL, if legacy then CLASS_IN else CLASS_IN + TOP_BIT;
    var a, nsec, ptr := AddressRecord(host, klass, ttl), OnlyAddress(host, klass, ttl), ReverseRecord(host, klass, ttl);
    var wantA := SomeQuestion(questions, q => WantsA(host, q));
    var wantNsec := SomeQuestion(questions, q => AsksHost(host, q) && !WantsA(host, q));
    var wantPtr := SomeQuestion(questions, q => AsksReverse(host, q));
    TimesOf(wantA, wantNsec, wantPtr, a, nsec, ptr, TYPE_A);
    TimesOf(wantA, wantNsec, wantPtr, a, nsec, ptr, TYPE_NSEC);
    TimesOf(wantA, wantNsec, wantPtr, a, nsec, ptr, TYPE_PTR);
  }

  lemma TimesOf(wantA: bool, wantNsec: bool, wantPtr: bool, a: Record, nsec: Record, ptr: Record, kind: nat)
    ensures Times(When(wantA, a) + When(wantNsec, nsec) + When(wantPtr, ptr), kind) ==
            (if wantA && a.kind == kind then 1 else 0) + (if wantNsec && nsec.kind == kind then 1 else 0) +
            (if wantPtr && ptr.kind == kind then 1 else 0)
    ensures Times(When(!wantA, a) + When(!wantNsec, nsec), kind) ==
            (if !wantA && a.kind == kind then 1 else 0) + (if !wantNsec && nsec.kind == kind then 1 else 0)
  {
    TimesAppend(When(wantA, a) + When(wantNsec, nsec), When(wantPtr, ptr), kind);
    TimesAppend(When(wantA, a), When(wantNsec, nsec), kind);
    TimesAppend(When(!wantA, a), When(!wantNsec, nsec), kind);
    TimesWhen(wantA, a, kind);
    TimesWhen(wantNsec, nsec, kind);
    TimesWhen(wantPtr, ptr, kind);
    TimesWhen(!wantA, a, kind);
    TimesWhen(!wantNsec, nsec, kind);
  }

  // ------------------------------------------------------------------------------------------
  // Every reply can be read.

  lemma {:induction false} SameLabelEnd(a: Bytes, b: Bytes)
    requires SameName(a, b)
    ensures LabelEnd(a) == LabelEnd(b)
  {
    if a != [] && a[0] != DOT {
      SameLabelEnd(a[1..], b[1..]);
    }
  }

  /** Names that differ in case only are made of labels of the same lengths. */
  lemma {:induction false} SameWritable(a: Bytes, b: Bytes)
    requires SameName(a, b) && Writable(Labels(b))
    ensures Writable(Labels(a))
    decreases |a|
  {
    if a != [] {
      SameLabelEnd(a, b);
      var n := LabelEnd(a);
      LabelsOf(a);
      LabelsOf(b);
      if n < |a| {
        SameWritable(a[n + 1..], b[n + 1..]);
      }
    }
  }

  lemma LabelsOf(dotted: Bytes)
    requires dotted != []
    ensures var n := LabelEnd(dotted);
            && Labels(dotted) != [] && Labels(dotted)[0] == dotted[..n]
            && Labels(dotted)[1..] == if n == |dotted| then [] else Labels(dotted[n + 1..])
  {
  }

  lemma SameSendable(a: Bytes, b: Bytes)
    requires SameName(a, b) && Sendable(b)
    ensures Sendable(a)
  {
    SameWritable(a, b);
    forall k | 0 <= k < |a|
      ensures a[k] != 0 && (b[k] != DOT ==> a[k] != DOT)
    {
      assert Lower(a[k]) == Lower(b[k]);
    }
  }

  lemma {:induction false} AnsweredMatch(host: Host, query: Bytes, offset: nat, count: nat)
    ensures forall k :: 0 <= k < |Answered(host, query, offset, count)| ==> Matches(host, Asked(Answered(host, query, offset, count)[k]))
    ensures forall k :: 0 <= k < |Answered(host, query, offset, count)| ==> Answered(host, query, offset, count)[k].kind < U16
    decreases count
  {
    if count > 0 && QuestionAt(query, offset).Some? {
      AnsweredMatch(host, query, QuestionAt(query, offset).value.next, count - 1);
    }
  }

  lemma {:induction false} MaskedOk(host: Host, raw: seq<Question>)
    requires HostOk(host) && forall k :: 0 <= k < |raw| ==> Matches(host, Asked(raw[k])) && raw[k].kind < U16
    ensures forall k :: 0 <= k < |raw| ==> Masked(raw)[k] == Asked(raw[k]) && QuestionOk(Masked(raw)[k])
  {
    if raw != [] {
      var last := raw[|raw| - 1];
      MaskedOk(host, raw[..|raw| - 1]);
      if AsksHost(host, Asked(last)) {
        SameSendable(last.name, host.name);
      } else {
        SameSendable(last.name, host.reverse);
      }
    }
  }

  lemma {:induction false} AllQuestionsOk(questions: seq<Question>)
    requires forall k :: 0 <= k < |questions| ==> QuestionOk(questions[k])
    ensures QuestionsOk(questions)
  {
    if questions != [] {
      AllQuestionsOk(questions[1..]);
    }
  }

  lemma {:induction false} RecordsOkAppend(a: seq<Record>, b: seq<Record>)
    requires RecordsOk(a) && RecordsOk(b)
    ensures RecordsOk(a + b)
  {
    if a == [] {
      assert a + b == b;
    } else {
      assert (a + b)[1..] == a[1..] + b;
      RecordsOkAppend(a[1..], b);
    }
  }

  lemma {:induction false} EncodedSize(labels: seq<Bytes>, text: Bytes)
    requires Writable(labels)
    ensures |EncodeLabels(labels)| <= |Joined(text, labels)| - |text| + if text == [] then 2 else 1
    decreases |labels|
  {
    if labels != [] {
      EncodedSize(labels[1..], Extended(text, labels[0]));
    }
  }

  lemma WireSize(name: Bytes)
    requires Sendable(name)
    ensures |Wire(name)| <= MAX_NAME + 2
  {
    EncodedSize(Labels(name), []);
    if name != [] {
      LabelsJoin(name, []);
    }
  }

  lemma RecordsReady(host: Host, klass: nat, ttl: nat)
    requires HostOk(host) && klass < U16 && ttl < U32
    ensures RecordOk(AddressRecord(host, klass, ttl)) && RecordOk(OnlyAddress(host, klass, ttl)) && RecordOk(ReverseRecord(host, klass, ttl))
  {
    WireSize(host.name);
  }

  lemma WhenOk(b: bool, r: Record)
    requires RecordOk(r)
    ensures RecordsOk(When(b, r))
  {
    assert [r][1..] == [];
  }

  lemma {:induction false} SectionsOk(a: Record, nsec: Record, ptr: Record, wantA: bool, wantNsec: bool, wantPtr: bool)
    requires RecordOk(a) && RecordOk(nsec) && RecordOk(ptr)
    ensures RecordsOk(When(wantA, a) + When(wantNsec, nsec) + When(wantPtr, ptr))
    ensures RecordsOk(When(!wantA, a) + When(!wantNsec, nsec))
  {
    hide RecordOk, When, RecordsOk;
    WhenOk(wantA, a);
    WhenOk(wantNsec, nsec);
    WhenOk(wantPtr, ptr);
    WhenOk(!wantA, a);
    WhenOk(!wantNsec, nsec);
    RecordsOkAppend(When(wantA, a), When(wantNsec, nsec));
    RecordsOkAppend(When(wantA, a) + When(wantNsec, nsec), When(wantPtr, ptr));
    RecordsOkAppend(When(!wantA, a), When(!wantNsec, nsec));
  }

  lemma {:induction false} RawReady(host: Host, raw: seq<Question>)
    requires HostOk(host) && forall k :: 0 <= k < |raw| ==> Matches(host, Asked(raw[k])) && raw[k].kind < U16
    ensures QuestionsOk(Masked(raw)) && QuestionsOk([])
  {
    MaskedOk(host, raw);
    AllQuestionsOk(Masked(raw));
  }

  lemma {:induction false} ReplyOk(host: Host, raw: seq<Question>, id: nat, legacy: bool)
    requires HostOk(host) && id < U16 && |raw| <= MAX_QUESTIONS
    requires forall k :: 0 <= k < |raw| ==> Matches(host, Asked(raw[k])) && raw[k].kind < U16
    ensures MessageOk(ReplyTo(host, Masked(raw), id, legacy))
  {
    hide RecordOk, RecordsOk, QuestionsOk, HostOk, Matches, AddressRecord, OnlyAddress, ReverseRecord, Masked;
    var questions := Masked(raw);
    RawReady(host, raw);
    var ttl, klass := if legacy then LEGACY_TTL else TTL, if legacy then CLASS_IN else CLASS_IN + TOP_BIT;
    RecordsReady(host, klass, ttl);
    SectionsOk(AddressRecord(host, klass, ttl), OnlyAddress(host, klass, ttl), ReverseRecord(host, klass, ttl),
               SomeQuestion(questions, q => WantsA(host, q)),
               SomeQuestion(questions, q => AsksHost(host, q) && !WantsA(host, q)),
               SomeQuestion(questions, q => AsksReverse(host, q)));
  }

  /** The message that answers a query. */
  function ReplyMessage(host: Host, query: Bytes, legacy: bool): Message
    requires |query| >= HEADER
  {
    ReplyTo(host, Masked(ToAnswer(host, query)), WordAt(query, 0), legacy)
  }

  /** Whatever the query, the reply decodes to the message it stands for, with the counts in its header. */
  lemma ReplyDecodes(host: Host, query: Bytes, legacy: bool)
    requires HostOk(host) && PlainQuery(query)
    ensures Decode(Encode(ReplyMessage(host, query, legacy))) == Some(ReplyMessage(host, query, legacy))
  {
    AnsweredMatch(host, query, HEADER, QuestionCount(query));
    ReplyOk(host, ToAnswer(host, query), WordAt(query, 0), legacy);
    EncodedDecodes(ReplyMessage(host, query, legacy));
  }

  // ------------------------------------------------------------------------------------------
  // The writer and the responder.

  /** The writer has been given these bytes, and has them if they fit. */
  ghost predicate Holds(w: Writer, sent: Bytes)
    reads w, w.out
  {
    w.Valid() && (w.ok <==> |sent| <= w.out.Length) && (w.ok ==> w.Text() == sent)
  }

  lemma {:induction false} Patched(a: Bytes, b: Bytes, v: nat)
    ensures (a + Word(0) + b)[|a| := v / 0x100 % 0x100][|a| + 1 := v % 0x100] == a + Word(v) + b
  {
  }

  /** The fields between a record's name and its length. */
  function Fields(kind: nat, klass: nat, ttl: nat): Bytes {
    Word(kind) + Word(klass) + Word(ttl / U16) + Word(ttl % U16)
  }

  lemma {:induction false} RecordParts(r: Record)
    ensures EncodeRecord(r) == Wire(r.name) + Fields(r.kind, r.klass, r.ttl) + Word(|r.data|) + r.data
  {
  }

  /** What follows the first label and its dot. */
  function Following(dotted: Bytes): (rest: Bytes)
    ensures dotted != [] ==> |rest| < |dotted|
  {
    var n := LabelEnd(dotted);
    if n == |dotted| then [] else dotted[n + 1..]
  }

  lemma {:induction false} NameStep(dotted: Bytes)
    requires dotted != []
    ensures var n := LabelEnd(dotted);
            && (Writable(Labels(dotted)) <==> 0 < n <= MAX_LABEL && Writable(Labels(Following(dotted))))
            && EncodeLabels(Labels(dotted)) == EncodeLabel(dotted[..n]) + EncodeLabels(Labels(Following(dotted)))
  {
    LabelsOf(dotted);
  }

  lemma {:induction false} NoLabels()
    ensures Writable(Labels([])) && EncodeLabels(Labels([])) == [0]
  {
  }

  lemma {:induction false} Longer(a: Bytes, b: Bytes, c: Bytes)
    ensures a + (b + c) == (a + b) + c
  {
  }

  /** Appends to a buffer; once something has not fitted, or a name is bad, it stays failed. */
  class Writer {
    const out: array<Byte>
    var length: nat
    var ok: bool

    ghost predicate Valid()
      reads this
    {
      length <= out.Length
    }

    ghost function Text(): Bytes
      reads this, out
      requires Valid()
    {
      out[..length]
    }

    constructor (out: array<Byte>)
      ensures this.out == out && Valid() && ok && length == 0
    {
      this.out, length, ok := out, 0, true;
    }

    /** The bytes have been appended if there was room for all of them. */
    twostate predicate Appended(bytes: Bytes)
      reads this, out
      requires old(Valid()) && Valid()
    {
      && (ok <==> old(ok) && old(length) + |bytes| <= out.Length)
      && (ok ==> Text() == old(Text()) + bytes)
    }

    method Raw(bytes: Bytes)
      requires Valid()
      modifies this`length, this`ok, out
      ensures Valid() && Appended(bytes)
    {
      for i := 0 to |bytes|
        invariant Valid()
        invariant ok <==> old(ok) && old(length) + i <= out.Length
        invariant ok ==> Text() == old(Text()) + bytes[..i]
        invariant !ok && old(ok) ==> length == out.Length
      {
        if length + 1 > out.Length {
          ok := false;
        } else {
          ghost var before := Text();
          out[length] := bytes[i];
          length := length + 1;
          assert Text() == before + [bytes[i]];
        }
        assert bytes[..i + 1] == bytes[..i] + [bytes[i]];
      }
      assert bytes[..|bytes|] == bytes;
    }

    /** Writes a name label by label, without compression; a bad label is a failure. */
    method Name(dotted: Bytes)
      requires Valid()
      modifies this`length, this`ok, out
      ensures Valid()
      ensures if Written(dotted).Some? then Appended(Wire(dotted)) else !ok
    {
      hide Labels, EncodeLabels, EncodeLabel, LabelEnd, Writable, Following, LabelOk, Plain, Word;
      NoLabels();
      var rest := dotted;
      ghost var prefix: Bytes := [];
      while rest != []
        invariant Valid() && Appended(prefix)
        invariant Writable(Labels(dotted)) <==> Writable(Labels(rest))
        invariant EncodeLabels(Labels(dotted)) == prefix + EncodeLabels(Labels(rest))
        decreases |rest|
      {
        var n := LabelEnd(rest);
        NameStep(rest);
        if n == 0 || n > MAX_LABEL {
          ok := false;
          return;
        }
        Raw(EncodeLabel(rest[..n]));
        Longer(prefix, EncodeLabel(rest[..n]), EncodeLabels(Labels(Following(rest))));
        prefix := prefix + EncodeLabel(rest[..n]);
        rest := Following(rest);
      }
      Raw([0]);
    }

    /** Overwrites two bytes that have been written before. */
    method Patch(at: nat, v: nat)
      requires Valid()
      modifies out
      ensures at + 2 <= length ==> Text() == old(Text())[at := v / 0x100 % 0x100][at + 1 := v % 0x100]
    {
      if at + 2 <= length {
        out[at], out[at + 1] := v / 0x100 % 0x100, v % 0x100;
      }
    }
  }

  method WriteName(w: Writer, name: Bytes, ghost sent: Bytes)
    requires Holds(w, sent) && Sendable(name)
    modifies w`length, w`ok, w.out
    ensures Holds(w, sent + Wire(name))
  {
    w.Name(name);
  }

  method WriteBytes(w: Writer, bytes: Bytes, ghost sent: Bytes)
    requires Holds(w, sent)
    modifies w`length, w`ok, w.out
    ensures Holds(w, sent + bytes)
  {
    w.Raw(bytes);
  }

  /** Fills in a length that has been left open. */
  method PatchLength(w: Writer, at: nat, v: nat, ghost head: Bytes, ghost data: Bytes)
    requires Holds(w, head + Word(0) + data) && (w.ok ==> at == |head|)
    modifies w.out
    ensures Holds(w, head + Word(v) + data)
  {
    w.Patch(at, v);
    Patched(head, data, v);
  }

  lemma Reached(w: Writer, sent: Bytes)
    requires Holds(w, sent)
    ensures w.ok <==> |sent| <= w.out.Length
    ensures w.ok ==> w.length == |sent|
  {
  }

  /** What has not fitted does not matter. */
  lemma SameIfFull(w: Writer, head: Bytes, v: nat, other: nat, data: Bytes)
    requires Holds(w, head + Word(v) + data) && (w.ok ==> v == other)
    ensures Holds(w, head + Word(other) + data)
  {
  }

  /** The data of a record, a name and some more bytes, behind its length, which is filled in afterwards. */
  method WriteCounted(w: Writer, target: Bytes, tail: Bytes, ghost head: Bytes)
    requires Holds(w, head) && Sendable(target) && |Wire(target) + tail| < U16
    modifies w`length, w`ok, w.out
    ensures Holds(w, head + Word(|Wire(target) + tail|) + (Wire(target) + tail))
  {
    hide Holds, Wire, Sendable, Word;
    ghost var data := Wire(target) + tail;
    Reached(w, head);
    var at := w.length;
    WriteBytes(w, Word(0), head);
    Reached(w, head + Word(0));
    var start := w.length;
    WriteName(w, target, head + Word(0));
    WriteBytes(w, tail, head + Word(0) + Wire(target));
    assert head + Word(0) + Wire(target) + tail == head + Word(0) + data;
    Reached(w, head + Word(0) + data);
    PatchLength(w, at, (w.length - start) % U16, head, data);
    SameIfFull(w, head, (w.length - start) % U16, |data|, data);
  }

  /** A record whose data is a name and some more bytes. */
  method WriteRecord(w: Writer, name: Bytes, kind: nat, klass: nat, ttl: nat, target: Bytes, tail: Bytes, ghost sent: Bytes)
    requires Holds(w, sent) && Sendable(name) && Sendable(target) && |Wire(target) + tail| < U16
    modifies w`length, w`ok, w.out
    ensures Holds(w, sent + EncodeRecord(Record(name, kind, klass, ttl, Wire(target) + tail)))
  {
    hide Holds, Wire, Sendable, Word, EncodeRecord, Fields;
    var fields := Fields(kind, klass, ttl);
    ghost var data := Wire(target) + tail;
    WriteName(w, name, sent);
    WriteBytes(w, fields, sent + Wire(name));
    WriteCounted(w, target, tail, sent + Wire(name) + fields);
    RecordParts(Record(name, kind, klass, ttl, data));
    assert sent + (Wire(name) + fields + Word(|data|) + data) == sent + Wire(name) + fields + Word(|data|) + data;
  }

  method WriteQuestion(w: Writer, q: Question, ghost sent: Bytes)
    requires Holds(w, sent) && QuestionOk(q)
    modifies w`length, w`ok, w.out
    ensures Holds(w, sent + EncodeQuestion(q))
  {
    hide Wire, Word;
    WriteName(w, q.name, sent);
    WriteBytes(w, Word(q.kind), sent + Wire(q.name));
    WriteBytes(w, Word(q.klass), sent + Wire(q.name) + Word(q.kind));
    assert sent + Wire(q.name) + Word(q.kind) + Word(q.klass) == sent + EncodeQuestion(q);
  }

  lemma {:induction false} EncodeOne<T>(encode: T -> Bytes, item: T)
    ensures EncodeList(encode, [item]) == encode(item)
  {
    assert [item][1..] == [];
  }

  lemma {:induction false} NoItems<T>(encode: T -> Bytes)
    ensures EncodeList(encode, []) == []
  {
  }

  lemma {:induction false} EncodeAppend<T>(encode: T -> Bytes, a: seq<T>, b: seq<T>)
    ensures EncodeList(encode, a + b) == EncodeList(encode, a) + EncodeList(encode, b)
  {
    if a == [] {
      assert a + b == b;
    } else {
      assert (a + b)[1..] == a[1..] + b;
      EncodeAppend(encode, a[1..], b);
    }
  }

  lemma {:induction false} QuestionOkAt(questions: seq<Question>, k: nat)
    requires QuestionsOk(questions) && k < |questions|
    ensures QuestionOk(questions[k])
  {
    if k > 0 {
      QuestionOkAt(questions[1..], k - 1);
    }
  }

  method WriteQuestions(w: Writer, questions: seq<Question>, ghost sent: Bytes)
    requires Holds(w, sent) && QuestionsOk(questions)
    modifies w`length, w`ok, w.out
    ensures Holds(w, sent + EncodeList(EncodeQuestion, questions))
  {
    hide EncodeQuestion, QuestionOk, QuestionsOk, EncodeList, Holds;
    NoItems(EncodeQuestion);
    assert sent + [] == sent;
    for i := 0 to |questions|
      invariant Holds(w, sent + EncodeList(EncodeQuestion, questions[..i]))
    {
      QuestionOkAt(questions, i);
      WriteQuestion(w, questions[i], sent + EncodeList(EncodeQuestion, questions[..i]));
      EncodeOne(EncodeQuestion, questions[i]);
      EncodeAppend(EncodeQuestion, questions[..i], [questions[i]]);
      assert questions[..i + 1] == questions[..i] + [questions[i]];
      Longer(sent, EncodeList(EncodeQuestion, questions[..i]), EncodeQuestion(questions[i]));
    }
    assert questions[..|questions|] == questions;
  }

  method WriteAddress(w: Writer, host: Host, klass: nat, ttl: nat, ghost sent: Bytes)
    requires Holds(w, sent) && HostOk(host)
    modifies w`length, w`ok, w.out
    ensures Holds(w, sent + EncodeRecord(AddressRecord(host, klass, ttl)))
  {
    hide Wire, Word, Fields, EncodeRecord, Sendable;
    WriteName(w, host.name, sent);
    WriteBytes(w, Fields(TYPE_A, klass, ttl), sent + Wire(host.name));
    WriteBytes(w, Word(4), sent + Wire(host.name) + Fields(TYPE_A, klass, ttl));
    WriteBytes(w, host.address, sent + Wire(host.name) + Fields(TYPE_A, klass, ttl) + Word(4));
    RecordParts(AddressRecord(host, klass, ttl));
    assert sent + Wire(host.name) + Fields(TYPE_A, klass, ttl) + Word(4) + host.address ==
           sent + (Wire(host.name) + Fields(TYPE_A, klass, ttl) + Word(4) + host.address);
  }

  lemma {:induction false} SomeSnoc(questions: seq<Question>, q: Question, wanted: Question -> bool)
    ensures SomeQuestion(questions + [q], wanted) <==> SomeQuestion(questions, wanted) || wanted(q)
  {
    var longer := questions + [q];
    assert longer[|questions|] == q;
    assert forall k :: 0 <= k < |questions| ==> longer[k] == questions[k];
  }

  /** One more question is answered. */
  lemma {:induction false} MoreAnswered(host: Host, raw: seq<Question>, asked: Question)
    ensures Masked(raw + [asked]) == Masked(raw) + [Asked(asked)]
    ensures var answered, q := Masked(raw), Asked(asked);
            && (SomeQuestion(answered + [q], q => WantsA(host, q)) <==> SomeQuestion(answered, q => WantsA(host, q)) || WantsA(host, q))
            && (SomeQuestion(answered + [q], q => AsksHost(host, q) && !WantsA(host, q)) <==>
                SomeQuestion(answered, q => AsksHost(host, q) && !WantsA(host, q)) || (AsksHost(host, q) && !WantsA(host, q)))
            && (SomeQuestion(answered + [q], q => AsksReverse(host, q)) <==> SomeQuestion(answered, q => AsksReverse(host, q)) || AsksReverse(host, q))
    ensures SomeQuestion(raw + [asked], (q: Question) => q.klass < TOP_BIT) <==>
            SomeQuestion(raw, (q: Question) => q.klass < TOP_BIT) || asked.klass < TOP_BIT
  {
    hide SomeQuestion, WantsA, AsksHost, AsksReverse;
    assert (raw + [asked])[..|raw|] == raw;
    SomeSnoc(Masked(raw), Asked(asked), q => WantsA(host, q));
    SomeSnoc(Masked(raw), Asked(asked), q => AsksHost(host, q) && !WantsA(host, q));
    SomeSnoc(Masked(raw), Asked(asked), q => AsksReverse(host, q));
    SomeSnoc(raw, asked, (q: Question) => q.klass < TOP_BIT);
  }

  lemma {:induction false} AnsweredStep(host: Host, query: Bytes, offset: nat, count: nat)
    requires count > 0
    ensures match QuestionAt(query, offset)
            case None => Answered(host, query, offset, count) == []
            case Some(q) =>
              Answered(host, query, offset, count) == (if Matches(host, Asked(q.item)) then [q.item] else []) + Answered(host, query, q.next, count - 1)
  {
  }

  method ReadQuestion(query: Bytes, offset: nat) returns (question: Option<At<Question>>)
    ensures question == QuestionAt(query, offset)
  {
    hide NameAt, WordAt;
    var name := ReadName(query, offset, MAX_NAME + 1);
    if name.None? || name.value.next + 4 > |query| {
      return None;
    }
    var next := name.value.next;
    return Some(At(Question(name.value.text, WordAt(query, next), WordAt(query, next + 2)), next + 4));
  }

  lemma {:induction false} NoneYet(host: Host, query: Bytes)
    ensures Masked([]) == []
    ensures forall offset: nat :: Answered(host, query, offset, 0) == []
    ensures forall wanted: Question -> bool :: !SomeQuestion([], wanted)
  {
  }

  /** Whether a question of a class that is answered is for this host, and what it asks for. */
  method Concerns(host: Host, q: Question) returns (matched: bool, wantA: bool, wantNsec: bool, wantPtr: bool)
    requires q.klass == CLASS_IN || q.klass == CLASS_ANY
    ensures matched == Matches(host, q) && wantA == WantsA(host, q) && wantNsec == (AsksHost(host, q) && !WantsA(host, q))
    ensures wantPtr == AsksReverse(host, q) && (!matched ==> !wantA && !wantNsec && !wantPtr)
  {
    hide SameName;
    matched, wantA, wantNsec, wantPtr := false, false, false, false;
    if SameName(q.name, host.name) {
      if q.kind == TYPE_A || q.kind == TYPE_ANY {
        wantA := true;
      } else {
        wantNsec := true;
      }
      matched := true;
    } else if SameName(q.name, host.reverse) && (q.kind == TYPE_PTR || q.kind == TYPE_ANY) {
      wantPtr := true;
      matched := true;
    }
  }

  lemma OtherClass(host: Host, q: Question)
    requires q.klass != CLASS_IN && q.klass != CLASS_ANY
    ensures !Matches(host, q)
  {
  }

  /** The flags say what the questions kept so far ask for. */
  ghost predicate Flagged(host: Host, raw: seq<Question>, wantA: bool, wantNsec: bool, wantPtr: bool, multicast: bool) {
    && wantA == SomeQuestion(Masked(raw), q => WantsA(host, q))
    && wantNsec == SomeQuestion(Masked(raw), q => AsksHost(host, q) && !WantsA(host, q))
    && wantPtr == SomeQuestion(Masked(raw), q => AsksReverse(host, q))
    && multicast == SomeQuestion(raw, (q: Question) => q.klass < TOP_BIT)
  }

  lemma FlaggedMore(host: Host, raw: seq<Question>, wantA: bool, wantNsec: bool, wantPtr: bool, multicast: bool,
                    asked: Question, a: bool, nsec: bool, ptr: bool)
    requires Flagged(host, raw, wantA, wantNsec, wantPtr, multicast)
    requires a == WantsA(host, Asked(asked)) && nsec == (AsksHost(host, Asked(asked)) && !WantsA(host, Asked(asked)))
    requires ptr == AsksReverse(host, Asked(asked))
    ensures Flagged(host, raw + [asked], wantA || a, wantNsec || nsec, wantPtr || ptr, multicast || asked.klass < TOP_BIT)
    ensures Masked(raw + [asked]) == Masked(raw) + [Asked(asked)]
  {
    hide SomeQuestion, Masked, WantsA, AsksHost, AsksReverse;
    MoreAnswered(host, raw, asked);
  }

  lemma NoFlags(host: Host, query: Bytes)
    ensures Flagged(host, [], false, false, false, false) && Masked([]) == []
    ensures forall offset: nat :: Answered(host, query, offset, 0) == []
  {
    NoneYet(host, query);
  }

  /** Goes through the questions and keeps those that are answered. */
  method Scan(host: Host, query: Bytes) returns (answered: seq<Question>, wantA: bool, wantNsec: bool, wantPtr: bool, multicast: bool)
    requires |query| >= HEADER
    ensures answered == Masked(ToAnswer(host, query))
    ensures wantA == SomeQuestion(answered, q => WantsA(host, q))
    ensures wantNsec == SomeQuestion(answered, q => AsksHost(host, q) && !WantsA(host, q))
    ensures wantPtr == SomeQuestion(answered, q => AsksReverse(host, q))
    ensures multicast == SomeQuestion(ToAnswer(host, query), (q: Question) => q.klass < TOP_BIT)
  {
    answered, wantA, wantNsec, wantPtr, multicast := KeepQuestions(host, query);
  }

  method KeepQuestions(host: Host, query: Bytes) returns (answered: seq<Question>, wantA: bool, wantNsec: bool, wantPtr: bool, multicast: bool)
    requires |query| >= HEADER
    ensures answered == Masked(ToAnswer(host, query)) && Flagged(host, ToAnswer(host, query), wantA, wantNsec, wantPtr, multicast)
  {
    hide NameAt, WordAt, Answered, Masked, Matches, WantsA, AsksHost, AsksReverse, QuestionCount, SameName, QuestionAt, Flagged;
    NoFlags(host, query);
    answered, wantA, wantNsec, wantPtr, multicast := [], false, false, false, false;
    ghost var raw: seq<Question> := [];
    var count: nat, offset: nat, i: nat := WordAt(query, 4), HEADER, 0;
    while i < count && i < MAX_QUESTIONS
      invariant i <= QuestionCount(query)
      invariant ToAnswer(host, query) == raw + Answered(host, query, offset, QuestionCount(query) - i)
      invariant answered == Masked(raw) && Flagged(host, raw, wantA, wantNsec, wantPtr, multicast)
      decreases QuestionCount(query) - i
    {
      AnsweredStep(host, query, offset, QuestionCount(query) - i);
      i := i + 1;
      var read := ReadQuestion(query, offset);
      if read.None? {
        break;
      }
      var asked := read.value.item;
      offset := read.value.next;
      var question := Asked(asked);
      if question.klass != CLASS_IN && question.klass != CLASS_ANY {
        OtherClass(host, question);
        continue;
      }
      var matched, a, nsec, ptr := Concerns(host, question);
      if matched {
        FlaggedMore(host, raw, wantA, wantNsec, wantPtr, multicast, asked, a, nsec, ptr);
        wantA, wantNsec, wantPtr := wantA || a, wantNsec || nsec, wantPtr || ptr;
        multicast := multicast || asked.klass < TOP_BIT;
        answered := answered + [question];
        raw := raw + [asked];
      }
    }
    assert raw + [] == raw;
  }

  lemma {:induction false} EncodeWhen(b: bool, r: Record)
    ensures EncodeList(EncodeRecord, When(b, r)) == if b then EncodeRecord(r) else []
  {
    if b {
      EncodeOne(EncodeRecord, r);
    }
  }

  /** The records of a reply, one after the other. */
  lemma {:induction false} SectionsParts(a: Record, nsec: Record, ptr: Record, wantA: bool, wantNsec: bool, wantPtr: bool)
    ensures EncodeList(EncodeRecord, When(wantA, a) + When(wantNsec, nsec) + When(wantPtr, ptr)) ==
            (if wantA then EncodeRecord(a) else []) + (if wantNsec then EncodeRecord(nsec) else []) + (if wantPtr then EncodeRecord(ptr) else [])
    ensures EncodeList(EncodeRecord, When(!wantA, a) + When(!wantNsec, nsec)) ==
            (if !wantA then EncodeRecord(a) else []) + (if !wantNsec then EncodeRecord(nsec) else [])
  {
    hide EncodeList, EncodeRecord, When;
    EncodeAppend(EncodeRecord, When(wantA, a) + When(wantNsec, nsec), When(wantPtr, ptr));
    EncodeAppend(EncodeRecord, When(wantA, a), When(wantNsec, nsec));
    EncodeAppend(EncodeRecord, When(!wantA, a), When(!wantNsec, nsec));
    EncodeWhen(wantA, a);
    EncodeWhen(wantNsec, nsec);
    EncodeWhen(wantPtr, ptr);
    EncodeWhen(!wantA, a);
    EncodeWhen(!wantNsec, nsec);
  }

  lemma {:induction false} NothingAdded(w: Writer, sent: Bytes)
    requires Holds(w, sent)
    ensures Holds(w, sent + [])
  {
    assert sent + [] == sent;
  }

  /** The host's address record and the denial of all others, if they are wanted. */
  method WriteHostRecords(w: Writer, host: Host, klass: nat, ttl: nat, wantA: bool, wantNsec: bool, ghost sent: Bytes)
    requires Holds(w, sent) && HostOk(host)
    modifies w`length, w`ok, w.out
    ensures Holds(w, sent + ((if wantA then EncodeRecord(AddressRecord(host, klass, ttl)) else []) +
                             (if wantNsec then EncodeRecord(OnlyAddress(host, klass, ttl)) else [])))
  {
    hide EncodeRecord, Wire, Holds;
    ghost var first := if wantA then EncodeRecord(AddressRecord(host, klass, ttl)) else [];
    ghost var second := if wantNsec then EncodeRecord(OnlyAddress(host, klass, ttl)) else [];
    NothingAdded(w, sent);
    if wantA {
      WriteAddress(w, host, klass, ttl, sent);
    }
    NothingAdded(w, sent + first);
    if wantNsec {
      WireSize(host.name);
      WriteRecord(w, host.name, TYPE_NSEC, klass, ttl, host.name, [0, 1, 0x40], sent + first);
    }
    Longer(sent, first, second);
  }

  method WriteReverse(w: Writer, host: Host, klass: nat, ttl: nat, wantPtr: bool, ghost sent: Bytes)
    requires Holds(w, sent) && HostOk(host)
    modifies w`length, w`ok, w.out
    ensures Holds(w, sent + if wantPtr then EncodeRecord(ReverseRecord(host, klass, ttl)) else [])
  {
    hide EncodeRecord, Wire, Holds;
    NothingAdded(w, sent);
    if wantPtr {
      WireSize(host.name);
      assert Wire(host.name) + [] == Wire(host.name);
      WriteRecord(w, host.reverse, TYPE_PTR, klass, ttl, host.name, [], sent);
    }
  }

  function One(b: bool): nat {
    if b then 1 else 0
  }

  lemma {:induction false} Assembled(h: Bytes, q: Bytes, an: Bytes, p: Bytes, e: Bytes)
    ensures h + q + an + p + e == h + (q + ((an + p) + e))
  {
  }

  lemma {:induction false} Counts(a: Record, nsec: Record, ptr: Record, wantA: bool, wantNsec: bool, wantPtr: bool)
    ensures One(wantA) + One(wantNsec) + One(wantPtr) == |When(wantA, a) + When(wantNsec, nsec) + When(wantPtr, ptr)|
    ensures One(!wantA) + One(!wantNsec) == |When(!wantA, a) + When(!wantNsec, nsec)|
  {
  }

  /** The records a reply has for what is wanted. */
  ghost predicate Carries(m: Message, a: Record, nsec: Record, ptr: Record, wantA: bool, wantNsec: bool, wantPtr: bool) {
    && m.answers == When(wantA, a) + When(wantNsec, nsec) + When(wantPtr, ptr)
    && m.additional == When(!wantA, a) + When(!wantNsec, nsec)
  }

  /** What is written is the message. */
  lemma {:induction false} ReplyBytes(m: Message, a: Record, nsec: Record, ptr: Record, wantA: bool, wantNsec: bool, wantPtr: bool)
    requires Carries(m, a, nsec, ptr, wantA, wantNsec, wantPtr)
    ensures Encode(m) ==
            Word(m.id) + Word(m.flags) + Word(|m.questions|) + Word(One(wantA) + One(wantNsec) + One(wantPtr)) + Word(0) +
            Word(One(!wantA) + One(!wantNsec)) + EncodeList(EncodeQuestion, m.questions) +
            ((if wantA then EncodeRecord(a) else []) + (if wantNsec then EncodeRecord(nsec) else [])) +
            (if wantPtr then EncodeRecord(ptr) else []) +
            ((if !wantA then EncodeRecord(a) else []) + (if !wantNsec then EncodeRecord(nsec) else []))
  {
    hide EncodeList, EncodeRecord, EncodeQuestion, Word, One, When;
    Counts(a, nsec, ptr, wantA, wantNsec, wantPtr);
    SectionsParts(a, nsec, ptr, wantA, wantNsec, wantPtr);
    Assembled(EncodeHeader(m), EncodeList(EncodeQuestion, m.questions),
              (if wantA then EncodeRecord(a) else []) + (if wantNsec then EncodeRecord(nsec) else []),
              if wantPtr then EncodeRecord(ptr) else [], EncodeList(EncodeRecord, m.additional));
  }

  /** Writes a reply, section after section. */
  method WriteReply(w: Writer, host: Host, id: nat, questions: seq<Question>, klass: nat, ttl: nat,
                    wantA: bool, wantNsec: bool, wantPtr: bool, ghost m: Message)
    requires Holds(w, []) && HostOk(host) && QuestionsOk(questions)
    requires m.id == id && m.flags == REPLY_FLAGS && m.questions == questions
    requires Carries(m, AddressRecord(host, klass, ttl), OnlyAddress(host, klass, ttl), ReverseRecord(host, klass, ttl), wantA, wantNsec, wantPtr)
    modifies w`length, w`ok, w.out
    ensures Holds(w, Encode(m))
  {
    hide Holds, Encode, EncodeList, EncodeQuestion, EncodeRecord, HostOk, QuestionsOk, Word, One, Carries, AddressRecord, OnlyAddress, ReverseRecord;
    ghost var a, nsec, ptr := AddressRecord(host, klass, ttl), OnlyAddress(host, klass, ttl), ReverseRecord(host, klass, ttl);
    var header := Word(id) + Word(REPLY_FLAGS) + Word(|questions|) + Word(One(wantA) + One(wantNsec) + One(wantPtr)) + Word(0) +
                  Word(One(!wantA) + One(!wantNsec));
    WriteBytes(w, header, []);
    assert [] + header == header;
    WriteQuestions(w, questions, header);
    ghost var sent := header + EncodeList(EncodeQuestion, questions);
    WriteHostRecords(w, host, klass, ttl, wantA, wantNsec, sent);
    sent := sent + ((if wantA then EncodeRecord(a) else []) + (if wantNsec then EncodeRecord(nsec) else []));
    WriteReverse(w, host, klass, ttl, wantPtr, sent);
    sent := sent + if wantPtr then EncodeRecord(ptr) else [];
    WriteHostRecords(w, host, klass, ttl, !wantA, !wantNsec, sent);
    ReplyBytes(m, a, nsec, ptr, wantA, wantNsec, wantPtr);
  }

  lemma SomeBytes(m: Message)
    ensures |Encode(m)| >= HEADER
  {
  }

  lemma NothingWritten(w: Writer)
    requires w.Valid() && w.ok && w.length == 0
    ensures Holds(w, [])
  {
  }

  lemma Outcome(w: Writer, sent: Bytes)
    requires Holds(w, sent)
    ensures (w.ok <==> |sent| <= w.out.Length) && (w.ok ==> w.length <= w.out.Length && w.out[..w.length] == sent)
  {
  }

  /**
   The reply to a query is the message for it, byte by byte, and it may be sent to the asker alone if
   that was the legacy way or no answered question wanted it multicast. There is none if the query is
   no plain query, nothing in it is answered or the buffer is too small.
   */
  method BuildReply(query: Bytes, host: Host, legacy: bool, out: array<Byte>) returns (length: nat, unicast: bool)
    requires HostOk(host)
    modifies out
    ensures length > 0 <==> PlainQuery(query) && ToAnswer(host, query) != [] && |Encode(ReplyMessage(host, query, legacy))| <= out.Length
    ensures length > 0 ==> length <= out.Length && out[..length] == Encode(ReplyMessage(host, query, legacy))
    ensures length == 0 ==> !unicast
    ensures length > 0 ==> (unicast <==> legacy || !SomeQuestion(ToAnswer(host, query), (q: Question) => q.klass < TOP_BIT))
  {
    hide Holds, Encode, WordAt, SomeQuestion, HostOk, Matches, Answered, Masked, When, QuestionsOk, WantsA, AsksHost, AsksReverse,
         AddressRecord, OnlyAddress, ReverseRecord;
    length, unicast := 0, false;
    if |query| < HEADER || WordAt(query, 2) >= 0x800 {
      return;
    }
    var answered, wantA, wantNsec, wantPtr, multicast := Scan(host, query);
    if answered == [] {
      return;
    }
    AnsweredMatch(host, query, HEADER, QuestionCount(query));
    RawReady(host, ToAnswer(host, query));
    var ttl, klass := if legacy then LEGACY_TTL else TTL, if legacy then CLASS_IN else CLASS_IN + TOP_BIT;
    ghost var m := ReplyMessage(host, query, legacy);
    var w := new Writer(out);
    NothingWritten(w);
    WriteReply(w, host, if legacy then WordAt(query, 0) else 0, if legacy then answered else [], klass, ttl, wantA, wantNsec, wantPtr, m);
    Outcome(w, Encode(m));
    SomeBytes(m);
    if !w.ok {
      return;
    }
    length, unicast := w.length, legacy || !multicast;
  }
}
