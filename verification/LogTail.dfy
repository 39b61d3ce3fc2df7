/**
 Reading the end of a log file. The file is scanned backwards in chunks, a byte at a time, until
 enough rows have been found or enough bytes have been read. What that should give is simple: the
 newest rows of the file's lines that pass the filter.
 */
module LogTail {
  import opened Basics
  import opened ByteFormat

  const NEWLINE: Byte := 10
  const RETURN: Byte := 13
  const CHUNK: nat := 8192

  /** A line and where in the file it starts; as a row, without the carriage return at its end. */
  datatype Line = Line(offset: nat, text: Bytes)

  datatype Tail = Tail(rows: seq<Line>, bytes: nat, more: bool, scanLimited: bool)

  /** The lines of a file from some offset on; what follows the last newline counts as a line. */
  function Lines(file: Bytes, at: nat): (lines: seq<Line>)
    requires at <= |file|
    ensures lines != [] && lines[0].offset == at
    decreases |file| - at
  {
    if at == |file| then [Line(at, [])]
    else
      var later := Lines(file, at + 1);
      if file[at] == 10 then [Line(at, [])] + later
      else [Line(at, [file[at]] + later[0].text)] + later[1..]
  }

  /** The lines with a newline between each two. */
  function Joined(lines: seq<Line>): Bytes {
    if lines == [] then []
    else if |lines| == 1 then lines[0].text
    else lines[0].text + [10] + Joined(lines[1..])
  }

  lemma {:induction false} LineStep(file: Bytes, at: nat)
    requires at < |file|
    ensures file[at] == NEWLINE ==> Lines(file, at) == [Line(at, [])] + Lines(file, at + 1)
    ensures file[at] != NEWLINE ==>
              Lines(file, at) == [Line(at, [file[at]] + Lines(file, at + 1)[0].text)] + Lines(file, at + 1)[1..]
  {
  }

  lemma {:induction false} JoinedStep(first: Bytes, line: Line, rest: seq<Line>, at: nat)
    ensures Joined([Line(at, first + line.text)] + rest) == first + Joined([line] + rest)
    ensures Joined([Line(at, first)] + ([line] + rest)) == first + [NEWLINE] + Joined([line] + rest)
  {
    assert ([Line(at, first + line.text)] + rest)[1..] == rest && ([line] + rest)[1..] == rest;
    assert ([Line(at, first)] + ([line] + rest))[1..] == [line] + rest;
    if rest != [] {
      assert first + line.text + [NEWLINE] + Joined(rest) == first + (line.text + [NEWLINE] + Joined(rest));
    }
  }

  /** The lines with a newline between each two are the file. */
  lemma {:induction false} LinesJoin(file: Bytes, at: nat)
    requires at <= |file|
    ensures Joined(Lines(file, at)) == file[at..]
    decreases |file| - at
  {
    if at < |file| {
      var later := Lines(file, at + 1);
      LinesJoin(file, at + 1);
      LineStep(file, at);
      assert file[at..] == [file[at]] + file[at + 1..] && later == [later[0]] + later[1..];
      if file[at] == NEWLINE {
        JoinedStep([], later[0], later[1..], at);
      } else {
        JoinedStep([file[at]], later[0], later[1..], at);
      }
    }
  }

  /** The line stands in the file where it says and has no newline in it. */
  predicate Stands(file: Bytes, line: Line) {
    && line.offset + |line.text| <= |file| && line.text == file[line.offset..line.offset + |line.text|]
    && forall k :: 0 <= k < |line.text| ==> line.text[k] != 10
  }

  lemma {:induction false} OneLonger(file: Bytes, at: nat, line: Line)
    requires at < |file| && file[at] != NEWLINE && Stands(file, line) && line.offset == at + 1
    ensures Stands(file, Line(at, [file[at]] + line.text))
  {
    assert file[at..at + 1 + |line.text|] == [file[at]] + file[at + 1..at + 1 + |line.text|];
  }

  lemma {:induction false} LinesStand(file: Bytes, at: nat)
    requires at <= |file|
    ensures forall k :: 0 <= k < |Lines(file, at)| ==> Stands(file, Lines(file, at)[k])
    decreases |file| - at
  {
    hide Lines, Stands;
    if at == |file| {
      LastLine(file);
    } else {
      LinesStand(file, at + 1);
      LineStep(file, at);
      if file[at] == NEWLINE {
        EmptyStands(file, at);
      } else {
        OneLonger(file, at, Lines(file, at + 1)[0]);
      }
    }
  }

  lemma {:induction false} EmptyStands(file: Bytes, at: nat)
    requires at <= |file|
    ensures Stands(file, Line(at, []))
  {
  }

  lemma {:induction false} LastLine(file: Bytes)
    ensures Lines(file, |file|) == [Line(|file|, [])] && Stands(file, Line(|file|, []))
  {
  }

  function Cleaned(text: Bytes): Bytes {
    if text != [] && text[|text| - 1] == RETURN then text[..|text| - 1] else text
  }

  /** The row a line makes: not an empty one, without the carriage return at its end, and only if it passes. */
  function Kept(line: Line, passes: Bytes -> bool): (rows: seq<Line>)
    ensures |rows| <= 1
  {
    var n := |line.text|;
    var text := if n > 0 && line.text[n - 1] == 13 then line.text[..n - 1] else line.text;
    if n > 0 && passes(text) then [Line(line.offset, text)] else []
  }

  /** The rows of some lines, the last line's first. */
  function Newest(lines: seq<Line>, passes: Bytes -> bool): seq<Line> {
    if lines == [] then [] else Newest(lines[1..], passes) + Kept(lines[0], passes)
  }

  /** The lines that lie within the last bytes of the file; a line cut off at the start is none of them. */
  function LastLines(file: Bytes, scanBytes: nat): seq<Line> {
    if |file| <= scanBytes then Lines(file, 0) else Lines(file, |file| - scanBytes)[1..]
  }

  function FirstOf<T>(items: seq<T>, limit: nat): seq<T> {
    if |items| <= limit then items else items[..limit]
  }

  function Reversed(text: Bytes): (r: Bytes)
    ensures |r| == |text|
  {
    if text == [] then [] else Reversed(text[1..]) + [text[0]]
  }

  lemma {:induction false} ReversedSnoc(text: Bytes, b: Byte)
    ensures Reversed(text + [b]) == [b] + Reversed(text)
  {
    if text != [] {
      assert (text + [b])[1..] == text[1..] + [b];
      ReversedSnoc(text[1..], b);
    }
  }

  /** Rows found further back in the file come after the ones already found. */
  lemma {:induction false} FurtherBack(file: Bytes, at: nat, cut: nat, passes: Bytes -> bool)
    requires at <= cut <= |file|
    ensures Newest(Lines(file, cut)[1..], passes) <= Newest(Lines(file, at)[1..], passes)
    decreases cut - at
  {
    hide Lines, Kept;
    if at < cut {
      FurtherBack(file, at + 1, cut, passes);
      LineStep(file, at);
      assert Lines(file, at)[1..] == if file[at] == NEWLINE then Lines(file, at + 1) else Lines(file, at + 1)[1..];
    }
  }

  /** What has been found when the scan has come back to an offset. */
  ghost predicate Found(file: Bytes, at: nat, passes: Bytes -> bool, reversed: Bytes, rows: seq<Line>) {
    at <= |file| && Reversed(reversed) == Lines(file, at)[0].text && rows == Newest(Lines(file, at)[1..], passes)
  }

  lemma {:induction false} OneByteBack(file: Bytes, at: nat, passes: Bytes -> bool, reversed: Bytes, rows: seq<Line>)
    requires 0 < at && Found(file, at, passes, reversed, rows)
    ensures file[at - 1] != NEWLINE ==> Found(file, at - 1, passes, reversed + [file[at - 1]], rows)
    ensures file[at - 1] == NEWLINE ==> Found(file, at - 1, passes, [], rows + Kept(Line(at, Reversed(reversed)), passes))
  {
    ReversedSnoc(reversed, file[at - 1]);
    if file[at - 1] == NEWLINE {
      assert Lines(file, at - 1)[1..] == Lines(file, at);
    } else {
      assert Lines(file, at - 1)[1..] == Lines(file, at)[1..];
    }
  }
  lemma {:induction false} AtTheEnd(file: Bytes, passes: Bytes -> bool)
    ensures Found(file, |file|, passes, [], [])
  {
  }

  /** Enough rows have been found: what lies further back does not matter. */
  lemma {:induction false} EnoughFound(file: Bytes, at: nat, cut: nat, passes: Bytes -> bool, reversed: Bytes, rows: seq<Line>)
    requires at <= cut && Found(file, cut, passes, reversed, rows)
    ensures rows <= Newest(Lines(file, at)[1..], passes)
  {
    FurtherBack(file, at, cut, passes);
  }

  lemma {:induction false} WholeFile(file: Bytes, passes: Bytes -> bool)
    ensures Newest(Lines(file, 0), passes) == Newest(Lines(file, 0)[1..], passes) + Kept(Lines(file, 0)[0], passes)
  {
  }

  lemma {:induction false} PrefixIsFirst<T>(all: seq<T>, rows: seq<T>, more: seq<T>)
    requires rows <= all
    ensures FirstOf(all + more, |rows|) == rows
  {
  }

  /** The scan stopped because it had enough. */
  lemma {:induction false} StoppedEarly(file: Bytes, scanBytes: nat, cut: nat, passes: Bytes -> bool, rows: seq<Line>)
    requires (if |file| <= scanBytes then 0 else |file| - scanBytes) <= cut && Found(file, cut, passes, [], rows)
    ensures FirstOf(Newest(LastLines(file, scanBytes), passes), |rows|) == rows && |Newest(LastLines(file, scanBytes), passes)| >= |rows|
  {
    hide Lines, Newest, Kept;
    var start := if |file| <= scanBytes then 0 else |file| - scanBytes;
    EnoughFound(file, start, cut, passes, [], rows);
    var all := Newest(Lines(file, start)[1..], passes);
    if start == 0 && |file| <= scanBytes {
      WholeFile(file, passes);
      PrefixIsFirst(all, rows, Kept(Lines(file, 0)[0], passes));
    } else {
      PrefixIsFirst(all, rows, []);
      assert all + [] == all;
    }
  }

  /** The scan went as far back as it may. */
  lemma {:induction false} WentBack(file: Bytes, scanBytes: nat, at: nat, passes: Bytes -> bool, reversed: Bytes, rows: seq<Line>)
    requires at == (if |file| <= scanBytes then 0 else |file| - scanBytes) && Found(file, at, passes, reversed, rows)
    ensures Newest(LastLines(file, scanBytes), passes) ==
            rows + if |file| <= scanBytes then Kept(Line(0, Reversed(reversed)), passes) else []
  {
    hide Lines, Newest, Kept, Reversed;
    if at == 0 {
      WholeFile(file, passes);
    }
  }

  method Emit(offset: nat, reversed: Bytes, passes: Bytes -> bool, rows: seq<Line>) returns (more: seq<Line>)
    ensures more == rows + Kept(Line(offset, Reversed(reversed)), passes)
    ensures |more| > |rows| ==> more[|rows|].offset == offset
  {
    if reversed == [] {
      return rows;
    }
    var text := Cleaned(Reversed(reversed));
    more := if passes(text) then rows + [Line(offset, text)] else rows;
  }

  /**
   The newest rows of the last lines, as many as asked for. There is said to be more when the rows
   are as many as were asked for and the last one does not start the file, or the bytes ran out.
   */
  method ReadTail(file: Bytes, limit: nat, scanBytes: nat, passes: Bytes -> bool) returns (tail: Tail)
    requires limit > 0 && scanBytes > 0
    ensures tail.rows == FirstOf(Newest(LastLines(file, scanBytes), passes), limit)
    ensures tail.scanLimited <==> scanBytes < |file| && |Newest(LastLines(file, scanBytes), passes)| < limit
    ensures tail.more <==> tail.scanLimited || (|tail.rows| == limit && tail.rows[limit - 1].offset > 0)
    ensures tail.bytes <= scanBytes && tail.bytes <= |file|
    ensures |tail.rows| < limit ==> tail.bytes == if |file| <= scanBytes then |file| else scanBytes
  {
    hide Lines, Newest, Kept, Reversed, Found;
    var position, bytes: nat, reversed: Bytes, rows: seq<Line>, more := |file|, 0, [], [], false;
    AtTheEnd(file, passes);
    while position > 0 && bytes < scanBytes && |rows| < limit
      invariant 0 <= position <= |file| && bytes == |file| - position && bytes <= scanBytes
      invariant |rows| <= limit
      invariant |rows| < limit ==> Found(file, position, passes, reversed, rows) && !more
      invariant |rows| == limit ==> more && exists cut :: position <= cut <= |file| && Found(file, cut, passes, [], rows)
      invariant |rows| == limit ==> rows[limit - 1].offset > 0
      decreases position
    {
      var length := Least(CHUNK, Least(position, scanBytes - bytes));
      position := position - length;
      var buffer := file[position..position + length];
      bytes := bytes + length;
      var i := length;
      while i > 0
        invariant 0 <= i <= length && |rows| < limit
        invariant Found(file, position + i, passes, reversed, rows) && !more
      {
        OneByteBack(file, position + i, passes, reversed, rows);
        if buffer[i - 1] == NEWLINE {
          ghost var before := rows;
          rows := Emit(position + i, reversed, passes, rows);
          reversed := [];
          if |rows| == limit {
            more := position + i > 0;
            break;
          }
        } else {
          reversed := reversed + [buffer[i - 1]];
        }
        i := i - 1;
      }
    }
    if |rows| == limit {
      ghost var cut :| position <= cut <= |file| && Found(file, cut, passes, [], rows);
      StoppedEarly(file, scanBytes, cut, passes, rows);
    } else {
      WentBack(file, scanBytes, position, passes, reversed, rows);
    }
    if position == 0 && |rows| < limit {
      rows := Emit(0, reversed, passes, rows);
    }
    var scanLimited := position > 0 && bytes >= scanBytes && |rows| < limit;
    tail := Tail(rows, bytes, more || scanLimited, scanLimited);
  }
  const LINE_BYTES: nat := 2048

  function Shown(line: Line): Bytes {
    FirstOf(line.text, LINE_BYTES)
  }

  /** Rows as text in the order of the file, given the newest first. */
  function Printed(rows: seq<Line>): Bytes {
    if rows == [] then []
    else Printed(rows[1..]) + (if |rows[0].text| <= 2048 then rows[0].text else rows[0].text[..2048]) + [10]
  }

  lemma {:induction false} PrintedSnoc(rows: seq<Line>, row: Line)
    ensures Printed(rows + [row]) == Shown(row) + [NEWLINE] + Printed(rows)
  {
    if rows == [] {
      assert ([row])[1..] == [] && rows + [row] == [row];
    } else {
      assert (rows + [row])[1..] == rows[1..] + [row];
      PrintedSnoc(rows[1..], row);
    }
  }

  lemma {:induction false} Split(a: seq<Line>, b: seq<Line>)
    ensures Printed(a + b) == Printed(b) + Printed(a)
  {
    if a == [] {
      assert a + b == b;
    } else {
      assert (a + b)[1..] == a[1..] + b;
      Split(a[1..], b);
      assert Printed(b) + Printed(a[1..]) + Shown(a[0]) + [NEWLINE] == Printed(b) + (Printed(a[1..]) + Shown(a[0]) + [NEWLINE]);
    }
  }

  lemma PrintedParts(rows: seq<Line>)
    ensures Printed([]) == [] && (rows != [] ==> Printed(rows) == Printed(rows[1..]) + (Shown(rows[0]) + [NEWLINE]))
  {
  }

  /** Puts bytes into a buffer behind the ones that are there. */
  method Copy(out: array<Byte>, offset: nat, bytes: Bytes)
    requires offset + |bytes| <= out.Length
    modifies out
    ensures out[..offset + |bytes|] == old(out[..offset]) + bytes
  {
    for i := 0 to |bytes|
      invariant out[..offset + i] == old(out[..offset]) + bytes[..i]
    {
      out[offset + i] := bytes[i];
      assert bytes[..i + 1] == bytes[..i] + [bytes[i]];
    }
    assert bytes[..|bytes|] == bytes;
  }

  /**
   As many of the newest rows as the buffer has room for, in the order of the file and closed by a
   zero; one row more would not fit.
   */
  method PrintRows(rows: seq<Line>, out: array<Byte>) returns (length: nat, ghost count: nat)
    requires out.Length >= 2
    modifies out
    ensures count <= |rows| && length < out.Length && out[length] == 0
    ensures out[..length] == Printed(rows[..count])
    ensures count < |rows| ==> |Printed(rows[..count + 1])| >= out.Length
  {
    hide Printed, Shown;
    PrintedParts([]);
    var n, bytes: nat := 0, 0;
    while n < |rows|
      invariant n <= |rows| && bytes == |Printed(rows[..n])| < out.Length
    {
      PrintedSnoc(rows[..n], rows[n]);
      assert rows[..n + 1] == rows[..n] + [rows[n]];
      var size := |Shown(rows[n])| + 1;
      if size >= out.Length - bytes {
        break;
      }
      bytes, n := bytes + size, n + 1;
    }
    count, length := n, 0;
    var i := n;
    assert rows[n..n] == [] && out[..0] == [];
    while i > 0
      invariant i <= n && length == |Printed(rows[i..n])| < out.Length && out[..length] == Printed(rows[i..n])
    {
      Split(rows[..i - 1], rows[i - 1..n]);
      assert rows[..i - 1] + rows[i - 1..n] == rows[..n];
      assert rows[i - 1..n][1..] == rows[i..n];
      var line := Shown(rows[i - 1]) + [NEWLINE];
      PrintedParts(rows[i - 1..n]);
      assert Printed(rows[i - 1..n]) == Printed(rows[i..n]) + line;
      Copy(out, length, line);
      length, i := length + |line|, i - 1;
    }
    assert rows[0..n] == rows[..n];
    out[length] := 0;
  }
}
