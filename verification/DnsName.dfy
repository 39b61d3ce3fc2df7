/**
 DNS names and the multicast DNS responder's replies (section 4.1.4 of RFC 1035, sections 6.1 and
 6.7 of RFC 6762). Names are read with compression pointers and written without.
 */
module DnsName {
  import opened Basics
  import opened ByteFormat

  const DOT: Byte := 46
  const MAX_NAME: nat := 255
  const MAX_LABEL: nat := 63

  // ------------------------------------------------------------------------------------------
  // Reading.

  /** A name in dotted form and the offset behind it. */
  datatype Name = Name(text: Bytes, next: nat)

  /** Neither a dot nor a zero byte is in it. */
  predicate Plain(part: Bytes) {
    forall k :: 0 <= k < |part| ==> part[k] != DOT && part[k] != 0
  }

  function Extended(text: Bytes, part: Bytes): Bytes {
    if text == [] then part else text + [DOT] + part
  }

  /** One step of reading: an end, or where and with what reading goes on. */
  datatype Step = End(name: Option<Name>) | Goto(position: nat, text: Bytes, resume: Option<nat>)

  /**
   A pointer has to point backwards, which does not bound the steps by itself: labels read after it
   move forwards again. But each label uses up some of the name's length, and between labels the
   position falls.
   */
  function StepAt(packet: Bytes, position: nat, text: Bytes, resume: Option<nat>, capacity: nat): (s: Step)
    ensures s.Goto? ==> |text| < |s.text| <= MAX_NAME || (s.text == text && s.position < position)
  {
    if position >= |packet| then End(None)
    else
      var b: nat := packet[position];
      if b >= 0xc0 then
        if position + 1 >= |packet| then End(None)
        else
          var target := (b - 0xc0) * 0x100 + packet[position + 1];
          if target >= position then End(None)
          else Goto(target, text, if resume.None? then Some(position + 2) else resume)
      else if b >= 0x40 then End(None)
      else if b == 0 then End(Some(Name(text, if resume.Some? then resume.value else position + 1)))
      else if position + 1 + b > |packet| then End(None)
      else
        var part := packet[position + 1..position + 1 + b];
        var longer := Extended(text, part);
        if |longer| + 1 > capacity || |longer| > 255 || !Plain(part) then End(None)
        else Goto(position + 1 + b, longer, resume)
  }

  /** The name at a position, given what has been read of it so far. */
  function NameAt(packet: Bytes, position: nat, text: Bytes, resume: Option<nat>, capacity: nat): Option<Name>
    requires |text| <= MAX_NAME
    decreases MAX_NAME - |text|, position
  {
    match StepAt(packet, position, text, resume, capacity)
    case End(name) => name
    case Goto(position', text', resume') => NameAt(packet, position', text', resume', capacity)
  }

  method ReadName(packet: Bytes, offset: nat, capacity: nat) returns (name: Option<Name>)
    requires capacity > 0
    ensures name == NameAt(packet, offset, [], None, capacity)
  {
    var position: nat, text: Bytes, resume: Option<nat> := offset, [], None;
    while true
      invariant |text| <= MAX_NAME
      invariant NameAt(packet, offset, [], None, capacity) == NameAt(packet, position, text, resume, capacity)
      decreases MAX_NAME - |text|, position
    {
      ghost var step := StepAt(packet, position, text, resume, capacity);
      if position >= |packet| {
        return None;
      }
      var b: nat := packet[position];
      if b >= 0xc0 {
        if position + 1 >= |packet| {
          return None;
        }
        var target := (b - 0xc0) * 0x100 + packet[position + 1];
        if target >= position {
          return None;
        }
        if resume.None? {
          resume := Some(position + 2);
        }
        position := target;
      } else {
        if b >= 0x40 {
          return None;
        }
        if b == 0 {
          return Some(Name(text, if resume.Some? then resume.value else position + 1));
        }
        if position + 1 + b > |packet| {
          return None;
        }
        var part := packet[position + 1..position + 1 + b];
        var longer := Extended(text, part);
        if |longer| + 1 > capacity || |longer| > MAX_NAME || !Plain(part) {
          return None;
        }
        text, position := longer, position + 1 + b;
      }
      assert step == Goto(position, text, resume);
    }
  }

  /** A label whose name leads back to it is refused once the length is used up, not followed forever. */
  lemma {:induction false} LoopRefused(packet: Bytes, position: nat, text: Bytes, resume: Option<nat>, capacity: nat)
    requires |text| <= MAX_NAME && position + 3 < |packet| && position < 0x4000
    requires packet[position] == 1
    requires packet[position + 2] == 0xc0 + position / 0x100 && packet[position + 3] == position % 0x100
    ensures NameAt(packet, position, text, resume, capacity) == None
    decreases MAX_NAME - |text|
  {
    var part := packet[position + 1..position + 2];
    var longer := Extended(text, part);
    if |longer| + 1 <= capacity && |longer| <= MAX_NAME && Plain(part) {
      LoopRefused(packet, position, longer, if resume.None? then Some(position + 4) else resume, capacity);
    }
  }

  // ------------------------------------------------------------------------------------------
  // Writing.

  /** Where the first label ends. */
  function LabelEnd(dotted: Bytes): (n: nat)
    ensures n <= |dotted| && (forall k :: 0 <= k < n ==> dotted[k] != DOT) && (n < |dotted| ==> dotted[n] == DOT)
  {
    if dotted == [] || dotted[0] == DOT then 0
    else
      LabelEnd(dotted[1..]) + 1
  }

  /** The labels of a dotted name; a dot at the end adds none. */
  function Labels(dotted: Bytes): seq<Bytes>
    decreases |dotted|
  {
    if dotted == [] then []
    else
      var n := LabelEnd(dotted);
      [dotted[..n]] + if n == |dotted| then [] else Labels(dotted[n + 1..])
  }

  function EncodeLabel(part: Bytes): (r: Bytes)
    ensures |r| == 1 + |part|
  {
    [|part| % 0x100] + part
  }

  function EncodeLabels(labels: seq<Bytes>): (r: Bytes)
    ensures |r| >= 1
  {
    if labels == [] then [0] else EncodeLabel(labels[0]) + EncodeLabels(labels[1..])
  }

  predicate LabelOk(part: Bytes) {
    0 < |part| <= 63 && Plain(part)
  }

  /** Labels that may be written: none is empty or too long. */
  predicate Writable(labels: seq<Bytes>) {
    labels != [] ==> 0 < |labels[0]| <= 63 && Writable(labels[1..])
  }

  predicate LabelsOk(labels: seq<Bytes>) {
    labels != [] ==> LabelOk(labels[0]) && LabelsOk(labels[1..])
  }

  /** A dotted name as length-prefixed labels; impossible with an empty or a long label. */
  function Written(dotted: Bytes): (r: Option<Bytes>)
    ensures r.Some? ==> |r.value| >= 1
  {
    if Writable(Labels(dotted)) then Some(EncodeLabels(Labels(dotted))) else None
  }

  /** A name that reading can give back: no zero byte, no dot at the end, not too long. */
  predicate NameOk(dotted: Bytes) {
    && (forall k :: 0 <= k < |dotted| ==> dotted[k] != 0) && |dotted| <= 255 && (dotted != [] ==> dotted[|dotted| - 1] != DOT)
  }

  /** The bytes are found in the packet at the position. */
  predicate Found(packet: Bytes, position: nat, bytes: Bytes) {
    position + |bytes| <= |packet| && packet[position..position + |bytes|] == bytes
  }

  lemma FoundParts(packet: Bytes, position: nat, a: Bytes, b: Bytes)
    requires Found(packet, position, a + b)
    ensures Found(packet, position, a) && Found(packet, position + |a|, b)
  {
    var whole := packet[position..position + |a + b|];
    assert whole[..|a|] == a && whole[|a|..] == b;
    assert packet[position..position + |a|] == whole[..|a|];
    assert packet[position + |a|..position + |a| + |b|] == whole[|a|..];
  }

  /** What reading these labels makes of the text read before. */
  function Joined(text: Bytes, labels: seq<Bytes>): (r: Bytes)
    ensures |text| <= |r|
    decreases |labels|
  {
    if labels == [] then text else Joined(Extended(text, labels[0]), labels[1..])
  }

  lemma LabelRead(packet: Bytes, position: nat, part: Bytes, text: Bytes, resume: Option<nat>, capacity: nat)
    requires LabelOk(part) && Found(packet, position, EncodeLabel(part))
    requires |Extended(text, part)| <= MAX_NAME && |Extended(text, part)| < capacity
    ensures StepAt(packet, position, text, resume, capacity) == Goto(position + 1 + |part|, Extended(text, part), resume)
  {
    FoundParts(packet, position, [|part| % 0x100], part);
    assert packet[position] == packet[position..position + 1][0] == |part|;
  }

  lemma EndRead(packet: Bytes, position: nat, text: Bytes, resume: Option<nat>, capacity: nat)
    requires Found(packet, position, [0])
    ensures StepAt(packet, position, text, resume, capacity) ==
            End(Some(Name(text, if resume.Some? then resume.value else position + 1)))
  {
    assert packet[position] == packet[position..position + 1][0] == 0;
  }

  lemma NameGoes(packet: Bytes, position: nat, text: Bytes, resume: Option<nat>, capacity: nat, step: Step)
    requires |text| <= MAX_NAME && step == StepAt(packet, position, text, resume, capacity) && step.Goto?
    ensures |step.text| <= MAX_NAME
    ensures NameAt(packet, position, text, resume, capacity) == NameAt(packet, step.position, step.text, step.resume, capacity)
  {
  }

  /** The first label of several, when the others follow. */
  lemma FirstLabelRead(packet: Bytes, position: nat, labels: seq<Bytes>, text: Bytes, resume: Option<nat>, capacity: nat)
    requires labels != [] && LabelOk(labels[0]) && Found(packet, position, EncodeLabels(labels))
    requires |Joined(text, labels)| <= MAX_NAME && |Joined(text, labels)| < capacity
    ensures var next, longer := position + 1 + |labels[0]|, Extended(text, labels[0]);
            && |longer| <= MAX_NAME && Joined(text, labels) == Joined(longer, labels[1..])
            && Found(packet, next, EncodeLabels(labels[1..]))
            && StepAt(packet, position, text, resume, capacity) == Goto(next, longer, resume)
  {
    FoundParts(packet, position, EncodeLabel(labels[0]), EncodeLabels(labels[1..]));
    LabelRead(packet, position, labels[0], text, resume, capacity);
  }

  lemma {:induction false} LabelsAreRead(packet: Bytes, position: nat, labels: seq<Bytes>, text: Bytes, resume: Option<nat>, capacity: nat)
    requires LabelsOk(labels) && Found(packet, position, EncodeLabels(labels))
    requires |Joined(text, labels)| <= MAX_NAME && |Joined(text, labels)| < capacity
    ensures NameAt(packet, position, text, resume, capacity) ==
            Some(Name(Joined(text, labels), if resume.Some? then resume.value else position + |EncodeLabels(labels)|))
    decreases |labels|
  {
    hide StepAt, Extended, EncodeLabel, Found, LabelOk;
    if labels == [] {
      EndRead(packet, position, text, resume, capacity);
    } else {
      FirstLabelRead(packet, position, labels, text, resume, capacity);
      var step := Goto(position + 1 + |labels[0]|, Extended(text, labels[0]), resume);
      NameGoes(packet, position, text, resume, capacity, step);
      LabelsAreRead(packet, step.position, labels[1..], step.text, resume, capacity);
    }
  }

  lemma RestOfName(dotted: Bytes)
    requires NameOk(dotted) && 0 < LabelEnd(dotted) < |dotted|
    ensures var n := LabelEnd(dotted);
            dotted == dotted[..n] + [DOT] + dotted[n + 1..] && dotted[n + 1..] != [] && NameOk(dotted[n + 1..])
  {
    var n := LabelEnd(dotted);
    assert dotted[n] == DOT && n != |dotted| - 1;
  }

  /** The labels of a name that reading can give back join to that name again. */
  lemma {:induction false} LabelsJoin(dotted: Bytes, text: Bytes)
    requires NameOk(dotted) && dotted != [] && Writable(Labels(dotted))
    ensures Joined(text, Labels(dotted)) == Extended(text, dotted) && LabelsOk(Labels(dotted))
    decreases |dotted|
  {
    hide Joined, Extended, Plain;
    var n := LabelEnd(dotted);
    var part := dotted[..n];
    FirstIsOk(dotted);
    if n == |dotted| {
      assert part == dotted;
      OneLabel(part, text);
      assert Labels(dotted) == [part];
    } else {
      var rest := dotted[n + 1..];
      assert Labels(dotted) == [part] + Labels(rest) && ([part] + Labels(rest))[1..] == Labels(rest);
      RestOfName(dotted);
      LabelsJoin(rest, Extended(text, part));
      ExtendedTwice(text, part, rest);
      JoinedFirst(text, part, Labels(rest));
    }
  }

  lemma FirstIsOk(dotted: Bytes)
    requires NameOk(dotted) && dotted != [] && Writable(Labels(dotted))
    ensures LabelOk(dotted[..LabelEnd(dotted)])
  {
  }

  lemma JoinedFirst(text: Bytes, part: Bytes, rest: seq<Bytes>)
    ensures Joined(text, [part] + rest) == Joined(Extended(text, part), rest)
  {
    assert ([part] + rest)[1..] == rest;
  }

  lemma OneLabel(part: Bytes, text: Bytes)
    ensures Joined(text, [part]) == Extended(text, part) && (LabelOk(part) ==> LabelsOk([part]))
  {
    assert [part][1..] == [];
  }

  lemma ExtendedTwice(text: Bytes, part: Bytes, rest: Bytes)
    requires part != []
    ensures Extended(Extended(text, part), rest) == Extended(text, part + [DOT] + rest)
  {
  }

  /** Reading undoes writing, wherever in a packet the name stands. */
  lemma WrittenIsRead(packet: Bytes, position: nat, dotted: Bytes, capacity: nat)
    requires NameOk(dotted) && Written(dotted).Some? && Found(packet, position, Written(dotted).value) && |dotted| < capacity
    ensures NameAt(packet, position, [], None, capacity) == Some(Name(dotted, position + |Written(dotted).value|))
  {
    if dotted != [] {
      LabelsJoin(dotted, []);
    }
    LabelsAreRead(packet, position, Labels(dotted), [], None, capacity);
  }
}
