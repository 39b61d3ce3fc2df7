/**
 The MIDI byte-stream parser (MIDI 1.0 Detailed Specification, Data Format and Running Status). It
 assembles messages in a buffer of 1024 bytes, passes real-time bytes straight on, understands
 running status, drops an interrupted message, and emits a long SysEx in chunks.
 */
module MidiStream {

  const CAPACITY: nat := 1024

  type Message = seq<nat>

  /** The parser between two bytes; `held` is the filled part of its buffer. */
  datatype State = State(held: Message, needed: nat, running: nat, sysex: bool)

  const IDLE: State := State([], 0, 0, false)

  predicate IsStatus(b: nat) {
    b >= 0x80
  }

  predicate IsRealtime(b: nat) {
    b >= 0xf8
  }

  predicate IsByte(b: nat) {
    b < 0x100
  }

  /** Program change and channel pressure have one data byte, the other channel messages two. */
  function ChannelLength(status: nat): (n: nat)
    ensures n == 2 || n == 3
    ensures n == 2 <==> status / 0x10 == 0xc || status / 0x10 == 0xd
  {
    if 0xc0 <= status < 0xe0 then 2 else 3
  }

  function StartStatus(s: State, b: nat): (State, seq<Message>)
    requires 0x80 <= b < 0xf8
  {
    if b == 0xf0 then (State([b], 0, 0, true), [])
    else if b < 0xf0 then (State([b], ChannelLength(b), b, false), [])
    else if b == 0xf1 || b == 0xf3 then (State([b], 2, 0, false), [])
    else if b == 0xf2 then (State([b], 3, 0, false), [])
    else (IDLE, if b == 0xf6 || b == 0xf7 then [[b]] else [])
  }

  function AddData(s: State, b: nat): (State, seq<Message>) {
    var begun := if s.held == [] && s.running != 0 then s.(held := [s.running], needed := ChannelLength(s.running)) else s;
    if begun.needed == 0 then (begun, [])
    else if |begun.held| + 1 == begun.needed then (begun.(held := [], needed := 0), [begun.held + [b]])
    else (begun.(held := begun.held + [b]), [])
  }

  function AddSysex(s: State, b: nat): (State, seq<Message>) {
    if b == 0xf7 then (s.(held := [], sysex := false), [s.held + [b]])
    else if |s.held| + 1 == CAPACITY then (s.(held := []), [s.held + [b]])
    else (s.(held := s.held + [b]), [])
  }

  /** What one byte does: the next state and what is emitted. */
  function Fed(s: State, b: nat): (State, seq<Message>) {
    if IsRealtime(b) then (s, [[b]])
    else if s.sysex && (b == 0xf7 || !IsStatus(b)) then AddSysex(s, b)
    else if IsStatus(b) then StartStatus(s, b)
    else AddData(s, b)
  }

  function FedAll(s: State, stream: seq<nat>): (State, seq<Message>)
    decreases |stream|
  {
    if stream == [] then (s, [])
    else
      var (t, first) := Fed(s, stream[0]);
      var (u, rest) := FedAll(t, stream[1..]);
      (u, first + rest)
  }

  predicate Valid(s: State) {
    && (forall b :: b in s.held ==> b < 0xf8)
    && (s.running == 0 || 0x80 <= s.running < 0xf0)
    && (if s.sysex then |s.held| < CAPACITY && s.needed == 0 && s.running == 0
        else (s.needed == 0 && s.held == []) || 1 <= |s.held| < s.needed <= 3)
  }

  lemma FedValid(s: State, b: nat)
    requires Valid(s)
    ensures Valid(Fed(s, b).0)
  {
  }

  lemma FedOne(s: State, b: nat)
    ensures FedAll(s, [b]) == Fed(s, b)
  {
    var (t, out) := Fed(s, b);
    assert [b][1..] == [];
    assert FedAll(t, []) == (t, []);
    assert out + [] == out;
  }

  lemma FedFirst(s: State, stream: seq<nat>)
    requires stream != [] && Fed(s, stream[0]).1 == []
    ensures FedAll(s, stream) == FedAll(Fed(s, stream[0]).0, stream[1..])
  {
    var (t, first) := Fed(s, stream[0]);
    var (u, rest) := FedAll(t, stream[1..]);
    assert first + rest == rest;
  }

  lemma {:induction false} FedAppend(s: State, a: seq<nat>, b: seq<nat>)
    ensures var (t, first) := FedAll(s, a);
            var (u, rest) := FedAll(t, b);
            FedAll(s, a + b) == (u, first + rest)
    decreases |a|
  {
    if a == [] {
      assert a + b == b;
      assert [] + FedAll(s, b).1 == FedAll(s, b).1;
    } else {
      assert (a + b)[1..] == a[1..] + b;
      FedAppend(Fed(s, a[0]).0, a[1..], b);
      var (t, first) := Fed(s, a[0]);
      var (u, second) := FedAll(t, a[1..]);
      var (v, third) := FedAll(u, b);
      assert first + (second + third) == (first + second) + third;
    }
  }

  // ------------------------------------------------------------------------------------------
  // Real-time bytes.

  function Without(stream: seq<nat>): (r: seq<nat>)
    ensures forall b :: b in r ==> !IsRealtime(b)
  {
    if stream == [] then []
    else (if IsRealtime(stream[0]) then [] else [stream[0]]) + Without(stream[1..])
  }

  function Realtime(stream: seq<nat>): seq<Message> {
    if stream == [] then []
    else (if IsRealtime(stream[0]) then [[stream[0]]] else []) + Realtime(stream[1..])
  }

  predicate IsRealtimeMessage(m: Message) {
    |m| == 1 && IsRealtime(m[0])
  }

  function Only(messages: seq<Message>, realtime: bool): seq<Message> {
    if messages == [] then []
    else (if IsRealtimeMessage(messages[0]) == realtime then [messages[0]] else []) + Only(messages[1..], realtime)
  }

  lemma {:induction false} OnlyAppend(a: seq<Message>, b: seq<Message>, realtime: bool)
    ensures Only(a + b, realtime) == Only(a, realtime) + Only(b, realtime)
  {
    if a == [] {
      assert a + b == b;
    } else {
      assert (a + b)[1..] == a[1..] + b;
      OnlyAppend(a[1..], b, realtime);
    }
  }

  lemma FedEmits(s: State, b: nat)
    requires Valid(s)
    ensures if IsRealtime(b) then Only(Fed(s, b).1, true) == [[b]] && Only(Fed(s, b).1, false) == []
            else Only(Fed(s, b).1, true) == [] && Only(Fed(s, b).1, false) == Fed(s, b).1
  {
    var out := Fed(s, b).1;
    assert |out| <= 1;
    if out != [] {
      assert out[1..] == [] && out == [out[0]];
    }
  }

  /** Real-time bytes pass through in order, and everything else comes out as if they were not there. */
  lemma {:induction false} RealtimeTransparent(s: State, stream: seq<nat>)
    requires Valid(s)
    ensures FedAll(s, stream).0 == FedAll(s, Without(stream)).0
    ensures Only(FedAll(s, stream).1, false) == FedAll(s, Without(stream)).1
    ensures Only(FedAll(s, stream).1, true) == Realtime(stream)
    decreases |stream|
  {
    if stream != [] {
      var b := stream[0];
      var (t, first) := Fed(s, b);
      FedValid(s, b);
      FedEmits(s, b);
      RealtimeTransparent(t, stream[1..]);
      OnlyAppend(first, FedAll(t, stream[1..]).1, true);
      OnlyAppend(first, FedAll(t, stream[1..]).1, false);
      if !IsRealtime(b) {
        assert Without(stream)[1..] == Without(stream[1..]);
      } else {
        assert Without(stream) == Without(stream[1..]);
      }
    }
  }

  // ------------------------------------------------------------------------------------------
  // Printing.

  datatype Msg =
    | Channel(status: nat, data: seq<nat>)
    | Common(status: nat, data: seq<nat>)
    | SysEx(data: seq<nat>)

  /** A message and whether its status byte is left out, as running status allows. */
  datatype Item = Item(msg: Msg, omitted: bool)

  predicate DataBytes(data: seq<nat>) {
    forall k :: 0 <= k < |data| ==> data[k] < 0x80
  }

  predicate WellFormed(m: Msg) {
    DataBytes(m.data) &&
    match m
    case Channel(status, data) => 0x80 <= status < 0xf0 && |data| + 1 == ChannelLength(status)
    case Common(status, data) =>
      ((status == 0xf1 || status == 0xf3) && |data| == 1) || (status == 0xf2 && |data| == 2) || (status == 0xf6 && data == [])
    case SysEx(_) => true
  }

  function Whole(m: Msg): Message {
    match m
    case Channel(status, data) => [status] + data
    case Common(status, data) => [status] + data
    case SysEx(data) => [0xf0] + data + [0xf7]
  }

  /** The running status after a message: system messages cancel it. */
  function RunningAfter(m: Msg): nat {
    if m.Channel? then m.status else 0
  }

  /** The status may be left out only where the running status is the same. */
  predicate Printable(items: seq<Item>, running: nat) {
    items != [] ==>
      && WellFormed(items[0].msg)
      && (items[0].omitted ==> items[0].msg.Channel? && items[0].msg.status == running)
      && Printable(items[1..], RunningAfter(items[0].msg))
  }

  function PrintItem(item: Item): seq<nat> {
    if item.omitted then item.msg.data else Whole(item.msg)
  }

  function Print(items: seq<Item>): seq<nat> {
    if items == [] then [] else PrintItem(items[0]) + Print(items[1..])
  }

  /** Blocks of the buffer's size, the last one shorter unless it fits exactly. */
  function Chunks(m: Message): (c: seq<Message>)
    requires m != []
    ensures Flattened(c) == m
    ensures forall k :: 0 <= k < |c| ==> 0 < |c[k]| <= 1024 && (k < |c| - 1 ==> |c[k]| == 1024)
  {
    if |m| <= CAPACITY then
      assert Flattened([m][1..]) == [];
      [m]
    else
      var rest := Chunks(m[CAPACITY..]);
      assert ([m[..CAPACITY]] + rest)[1..] == rest;
      [m[..CAPACITY]] + rest
  }

  function Flattened(chunks: seq<Message>): Message {
    if chunks == [] then [] else chunks[0] + Flattened(chunks[1..])
  }

  function Expected(items: seq<Item>): seq<Message> {
    if items == [] then [] else Chunks(Whole(items[0].msg)) + Expected(items[1..])
  }

  /** The state at a message boundary. */
  function Boundary(running: nat): State {
    State([], 0, running, false)
  }

  /** One byte of a SysEx. */
  lemma SysExByte(held: Message, b: nat)
    requires |held| < CAPACITY && b < 0x80
    ensures Fed(State(held, 0, 0, true), b) ==
            if |held| + 1 == CAPACITY then (State([], 0, 0, true), [held + [b]]) else (State(held + [b], 0, 0, true), [])
    ensures Fed(State(held, 0, 0, true), 0xf7) == (Boundary(0), [held + [0xf7]])
  {
  }

  lemma LastChunk(held: Message)
    requires |held| < CAPACITY
    ensures Chunks(held + [] + [0xf7]) == [held + [0xf7]]
  {
    assert held + [] + [0xf7] == held + [0xf7];
  }

  lemma {:induction false} SysExChunks(held: Message, data: seq<nat>)
    requires |held| < CAPACITY && DataBytes(data)
    ensures FedAll(State(held, 0, 0, true), data + [0xf7]) == (Boundary(0), Chunks(held + data + [0xf7]))
    decreases |data|
  {
    hide Fed, Chunks;
    var s, stream := State(held, 0, 0, true), data + [0xf7];
    if data == [] {
      assert stream == [0xf7];
      SysExByte(held, 0);
      FedOne(s, 0xf7);
      LastChunk(held);
    } else {
      assert stream[1..] == data[1..] + [0xf7];
      var b := data[0];
      SysExByte(held, b);
      if |held| + 1 == CAPACITY {
        SysExChunks([], data[1..]);
        FullChunk(held, data);
      } else {
        FedFirst(s, stream);
        SysExChunks(held + [b], data[1..]);
        assert held + [b] + data[1..] + [0xf7] == held + data + [0xf7];
      }
    }
  }

  lemma {:induction false} ChunkStep(m: Message)
    requires |m| > CAPACITY
    ensures Chunks(m) == [m[..CAPACITY]] + Chunks(m[CAPACITY..])
  {
  }

  /** The buffer is full: it makes one chunk, and the rest starts anew. */
  lemma {:induction false} FullChunk(held: Message, data: seq<nat>)
    requires |held| + 1 == CAPACITY && data != []
    ensures Chunks(held + data + [0xf7]) == [held + [data[0]]] + Chunks([] + data[1..] + [0xf7])
  {
    hide Chunks;
    var whole := held + data + [0xf7];
    ChunkStep(whole);
    assert whole[..CAPACITY] == held + [data[0]];
    assert whole[CAPACITY..] == [] + data[1..] + [0xf7];
  }

  lemma {:induction false} DataCompletes(s: State, data: seq<nat>)
    requires Valid(s) && !s.sysex && s.held != [] && DataBytes(data) && |s.held| + |data| == s.needed
    ensures FedAll(s, data) == (Boundary(s.running), [s.held + data])
    decreases |data|
  {
    assert data != [];
    var (t, out) := Fed(s, data[0]);
    if |data| == 1 {
      assert data == [data[0]];
      FedOne(s, data[0]);
    } else {
      FedFirst(s, data);
      DataCompletes(t, data[1..]);
      assert s.held + [data[0]] + data[1..] == s.held + data;
    }
  }

  /** A message with its status byte is understood in every state, whatever came before. */
  lemma WholeParses(s: State, m: Msg)
    requires Valid(s) && WellFormed(m)
    ensures FedAll(s, Whole(m)) == (Boundary(RunningAfter(m)), Chunks(Whole(m)))
  {
    var stream := Whole(m);
    match m {
      case SysEx(data) =>
        assert stream[1..] == data + [0xf7];
        FedFirst(s, stream);
        SysExChunks([0xf0], data);
      case Channel(status, data) =>
        assert stream[1..] == data;
        FedFirst(s, stream);
        DataCompletes(State([status], ChannelLength(status), status, false), data);
      case Common(status, data) =>
        assert stream[1..] == data;
        if status == 0xf6 {
          assert stream == [status];
          FedOne(s, status);
        } else {
          FedFirst(s, stream);
          DataCompletes(Fed(s, status).0, data);
        }
    }
  }

  /** Without it, it is understood at a boundary with the same running status. */
  lemma OmittedParses(m: Msg)
    requires WellFormed(m) && m.Channel?
    ensures FedAll(Boundary(m.status), m.data) == (Boundary(m.status), Chunks(Whole(m)))
  {
    var begun := State([m.status], ChannelLength(m.status), m.status, false);
    DataCompletes(begun, m.data);
    assert Fed(Boundary(m.status), m.data[0]) == Fed(begun, m.data[0]);
  }

  /**
   Feeding what was printed emits exactly the messages, a SysEx in chunks that make it up. This
   holds from any state when the first message has its status byte, and else at a boundary.
   */
  lemma {:induction false} PrintedParses(s: State, items: seq<Item>)
    requires Valid(s) && Printable(items, s.running)
    requires items != [] && items[0].omitted ==> s == Boundary(s.running)
    ensures FedAll(s, Print(items)).1 == Expected(items)
    decreases |items|
  {
    if items != [] {
      var item := items[0];
      if item.omitted {
        OmittedParses(item.msg);
      } else {
        WholeParses(s, item.msg);
      }
      PrintedParses(Boundary(RunningAfter(item.msg)), items[1..]);
      FedAppend(s, PrintItem(item), Print(items[1..]));
    }
  }

  /** The round trip, with real-time bytes inserted anywhere. */
  lemma RoundTrip(s: State, items: seq<Item>, stream: seq<nat>)
    requires Valid(s) && Printable(items, s.running) && Without(stream) == Print(items)
    requires items != [] && items[0].omitted ==> s == Boundary(s.running)
    ensures Only(FedAll(s, stream).1, false) == Expected(items)
    ensures Only(FedAll(s, stream).1, true) == Realtime(stream)
  {
    RealtimeTransparent(s, stream);
    PrintedParses(s, items);
  }

  // ------------------------------------------------------------------------------------------
  // The parser itself, in its fixed buffer.

  class Stream {
    var bytes: array<nat>
    var count: nat
    var needed: nat
    var running: nat
    var sysex: bool

    ghost function Value(): State
      reads this, bytes
      requires count <= bytes.Length
    {
      State(bytes[..count], needed, running, sysex)
    }

    ghost predicate Ok()
      reads this, bytes
    {
      bytes.Length == CAPACITY && count <= CAPACITY && Valid(Value())
    }

    constructor ()
      ensures Ok() && Value() == IDLE && fresh(bytes)
    {
      bytes := new nat[CAPACITY];
      count, needed, running, sysex := 0, 0, 0, false;
    }

    /** Appends to the buffer, which is never full. */
    method Push(b: nat)
      requires bytes.Length == CAPACITY && count < CAPACITY
      modifies this`count, bytes
      ensures count == old(count) + 1 && bytes[..count] == old(bytes[..count]) + [b]
      ensures old(count) == 0 ==> bytes[..count] == [b]
    {
      bytes[count] := b;
      count := count + 1;
      assert bytes[..count] == bytes[..count - 1] + [b];
    }

    method Feed(b: nat) returns (emitted: seq<Message>)
      requires Ok() && IsByte(b)
      modifies this`count, this`needed, this`running, this`sysex, bytes
      ensures Ok() && (Value(), emitted) == Fed(old(Value()), b)
    {
      FedValid(Value(), b);
      ghost var before := Value();
      emitted := [];
      if b >= 0xf8 {
        return [[b]];
      }
      if sysex {
        if b == 0xf7 {
          Push(b);
          emitted := [bytes[..count]];
          sysex, count := false, 0;
          return;
        }
        if !IsStatus(b) {
          Push(b);
          if count == CAPACITY {
            emitted := [bytes[..count]];
            count := 0;
          }
          return;
        }
        sysex := false;
      }
      if IsStatus(b) {
        count, needed := 0, 0;
        if b >= 0xf0 {
          running := 0;
        }
        if b == 0xf0 {
          sysex := true;
          Push(b);
          return;
        }
        if b < 0xf0 {
          running, needed := b, ChannelLength(b);
        } else if b == 0xf1 || b == 0xf3 {
          needed := 2;
        } else if b == 0xf2 {
          needed := 3;
        } else {
          if b == 0xf6 || b == 0xf7 {
            emitted := [[b]];
          }
          return;
        }
        Push(b);
        return;
      }
      if count == 0 && running != 0 {
        Push(running);
        needed := ChannelLength(running);
      }
      if needed == 0 {
        return;
      }
      Push(b);
      if count == needed {
        emitted := [bytes[..count]];
        count, needed := 0, 0;
      }
    }

    /** A whole stream, byte by byte. */
    method FeedAll(stream: seq<nat>) returns (emitted: seq<Message>)
      requires Ok() && forall b :: b in stream ==> IsByte(b)
      modifies this`count, this`needed, this`running, this`sysex, bytes
      ensures Ok() && (Value(), emitted) == FedAll(old(Value()), stream)
    {
      emitted := [];
      for k := 0 to |stream|
        invariant Ok() && (Value(), emitted) == FedAll(old(Value()), stream[..k])
      {
        FedAppend(old(Value()), stream[..k], [stream[k]]);
        assert stream[..k + 1] == stream[..k] + [stream[k]];
        FedOne(Value(), stream[k]);
        var more := Feed(stream[k]);
        emitted := emitted + more;
      }
      assert stream[..|stream|] == stream;
    }
  }
}
