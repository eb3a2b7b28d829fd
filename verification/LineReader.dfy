/**
  The bounded line reader of the agent-run reporter: `iter_lines` and `_edge`
  (dashboard/provisioner/hivra-agent-trace.py). `Lines` says what the complete lines of a byte
  stream are; `Reader` finds them chunk by chunk while holding at most MAX_LINE bytes.
*/
module LineReader {
  import opened Common

  newtype byte = x: int | 0 <= x < 256

  const NEWLINE: byte := 10
  const MAX_LINE := 4 * 1024 * 1024
  const ENVELOPE := 8 * 1024

  /** A line is kept whole up to MAX_LINE bytes; of a longer one only both ends are known. */
  datatype View = Whole(bytes: seq<byte>) | Envelope(head: seq<byte>, tail: seq<byte>)
  datatype Line = Line(start: nat, end: nat, view: View)

  function FirstBytes(s: seq<byte>, n: nat): seq<byte> {
    if |s| <= n then s else s[..n]
  }

  function LastBytes(s: seq<byte>, n: nat): seq<byte> {
    if |s| <= n then s else s[|s| - n..]
  }

  function ViewOf(bytes: seq<byte>): View {
    if |bytes| <= MAX_LINE then Whole(bytes) else Envelope(FirstBytes(bytes, ENVELOPE), LastBytes(bytes, ENVELOPE))
  }

  /** What has been found so far: the complete lines, and the line whose newline is still to come. */
  datatype Scan = Scan(lines: seq<Line>, start: nat, rest: seq<byte>)

  function ScanByte(s: Scan, b: byte): Scan {
    if b == NEWLINE then
      var end := s.start + |s.rest| + 1;
      Scan(s.lines + [Line(s.start, end, ViewOf(s.rest))], end, [])
    else s.(rest := s.rest + [b])
  }

  function ScanAll(s: Scan, data: seq<byte>): Scan
    decreases |data|
  {
    if data == [] then s else ScanAll(ScanByte(s, data[0]), data[1..])
  }

  /** The complete lines of `data`, whose first byte stands at `offset` of the file. */
  function Lines(data: seq<byte>, offset: nat): seq<Line> {
    ScanAll(Scan([], offset, []), data).lines
  }

  function Concat(parts: seq<seq<byte>>): seq<byte> {
    if parts == [] then [] else parts[0] + Concat(parts[1..])
  }

  // ---- lemmas about the specification ----

  lemma {:induction false} ConcatSplit(parts: seq<seq<byte>>, i: nat)
    requires i <= |parts|
    ensures Concat(parts) == Concat(parts[..i]) + Concat(parts[i..])
  {
    if i == 0 {
      assert parts[..0] == [] && parts[0..] == parts;
    } else {
      ConcatSplit(parts[1..], i - 1);
      assert parts[..i][1..] == parts[1..][..i - 1] && parts[i..] == parts[1..][i - 1..];
    }
  }

  lemma ConcatSnoc(parts: seq<seq<byte>>, part: seq<byte>)
    ensures Concat(parts + [part]) == Concat(parts) + part
  {
    var all := parts + [part];
    ConcatSplit(all, |parts|);
    assert all[..|parts|] == parts && all[|parts|..] == [part];
    assert Concat([part]) == part + Concat([part][1..]);
  }

  /** Scanning on from where a first stretch ended is scanning both together. */
  lemma {:induction false} ScanConcat(s: Scan, data: seq<byte>, more: seq<byte>)
    ensures ScanAll(s, data + more) == ScanAll(ScanAll(s, data), more)
    decreases |data|
  {
    if data == [] {
      assert data + more == more;
    } else {
      assert (data + more)[1..] == data[1..] + more;
      ScanConcat(ScanByte(s, data[0]), data[1..], more);
    }
  }

  /** A newline-free piece only lengthens the unfinished line. */
  lemma {:induction false} ScanPiece(s: Scan, piece: seq<byte>)
    requires NEWLINE !in piece
    ensures ScanAll(s, piece) == s.(rest := s.rest + piece)
    decreases |piece|
  {
    if piece == [] {
      assert s.rest + piece == s.rest;
    } else {
      ScanPiece(ScanByte(s, piece[0]), piece[1..]);
      assert s.rest + [piece[0]] + piece[1..] == s.rest + piece;
    }
  }

  lemma ScanTerminated(s: Scan, piece: seq<byte>)
    requires NEWLINE !in piece
    ensures ScanAll(s, piece + [NEWLINE]) == ScanByte(s.(rest := s.rest + piece), NEWLINE)
  {
    ScanConcat(s, piece, [NEWLINE]);
    ScanPiece(s, piece);
    var t := ScanAll(s, piece);
    assert ScanAll(t, [NEWLINE]) == ScanAll(ScanByte(t, NEWLINE), [NEWLINE][1..]);
  }

  /** Lines found earlier are only a prefix of what is found later. */
  lemma {:induction false} ScanPrefix(s: Scan, earlier: seq<Line>, data: seq<byte>)
    ensures ScanAll(s.(lines := earlier + s.lines), data) ==
            ScanAll(s, data).(lines := earlier + ScanAll(s, data).lines)
    decreases |data|
  {
    if data != [] {
      var t := ScanByte(s, data[0]);
      assert ScanByte(s.(lines := earlier + s.lines), data[0]).lines == earlier + t.lines;
      ScanPrefix(t, earlier, data[1..]);
    }
  }

  lemma ScanFrom(earlier: seq<Line>, start: nat, rest: seq<byte>, data: seq<byte>)
    ensures var later := ScanAll(Scan([], start, rest), data);
            ScanAll(Scan(earlier, start, rest), data) == later.(lines := earlier + later.lines)
  {
    assert earlier + [] == earlier;
    ScanPrefix(Scan([], start, rest), earlier, data);
  }

  /** One line of the data, terminated by its first newline. */
  ghost predicate IsLine(data: seq<byte>, offset: nat, line: Line) {
    && offset <= line.start < line.end <= offset + |data|
    && var bytes := data[line.start - offset..line.end - 1 - offset];
       NEWLINE !in bytes && data[line.end - 1 - offset] == NEWLINE && Shows(line.view, bytes)
  }

  /** Up to 4 MiB the view is the bytes, beyond that their first and last 8 KiB. */
  predicate Shows(view: View, bytes: seq<byte>) {
    var n := |bytes|;
    if n <= 4_194_304 then view == Whole(bytes) else view == Envelope(bytes[..8192], bytes[n - 8192..])
  }

  ghost predicate AllLines(data: seq<byte>, offset: nat, lines: seq<Line>) {
    forall line :: line in lines ==> IsLine(data, offset, line)
  }

  function EndOf(lines: seq<Line>, offset: nat): nat {
    if lines == [] then offset else lines[|lines| - 1].end
  }

  /** Lines that follow each other without a gap from the offset on. */
  ghost predicate Contiguous(lines: seq<Line>, offset: nat) {
    lines == [] ||
    var earlier := lines[..|lines| - 1];
    Contiguous(earlier, offset) && lines[|lines| - 1].start == EndOf(earlier, offset)
  }

  /**
    A scan that has found exactly the newline-terminated stretches of the data: contiguous from the
    offset and in order, with no newline left behind them.
  */
  ghost predicate Exact(s: Scan, data: seq<byte>, offset: nat) {
    && Contiguous(s.lines, offset)
    && AllLines(data, offset, s.lines)
    && s.start == EndOf(s.lines, offset) && s.start + |s.rest| == offset + |data|
    && offset <= s.start && data[s.start - offset..] == s.rest && NEWLINE !in s.rest
  }

  lemma LineStays(data: seq<byte>, b: byte, offset: nat, line: Line)
    requires IsLine(data, offset, line)
    ensures IsLine(data + [b], offset, line)
  {
    assert (data + [b])[line.start - offset..line.end - 1 - offset] == data[line.start - offset..line.end - 1 - offset];
  }

  lemma ExactByte(s: Scan, data: seq<byte>, b: byte, offset: nat)
    requires Exact(s, data, offset)
    ensures Exact(ScanByte(s, b), data + [b], offset)
  {
    LinesStay(s.lines, data, b, offset);
    if b == NEWLINE {
      ExactNewline(s, data, offset);
    } else {
      assert (data + [b])[s.start - offset..] == s.rest + [b];
    }
  }

  lemma LinesStay(lines: seq<Line>, data: seq<byte>, b: byte, offset: nat)
    requires AllLines(data, offset, lines)
    ensures AllLines(data + [b], offset, lines)
  {
    forall line | line in lines ensures IsLine(data + [b], offset, line) {
      LineStays(data, b, offset, line);
    }
  }

  lemma ExactNewline(s: Scan, data: seq<byte>, offset: nat)
    requires Exact(s, data, offset) && AllLines(data + [NEWLINE], offset, s.lines)
    ensures Exact(ScanByte(s, NEWLINE), data + [NEWLINE], offset)
  {
    var line := Line(s.start, s.start + |s.rest| + 1, ViewOf(s.rest));
    NewLineIsExact(data, offset, s.start, s.rest);
    assert (s.lines + [line])[..|s.lines|] == s.lines;
    assert (data + [NEWLINE])[line.end - offset..] == [];
  }

  lemma NewLineIsExact(data: seq<byte>, offset: nat, start: nat, rest: seq<byte>)
    requires offset <= start && start + |rest| == offset + |data| && data[start - offset..] == rest && NEWLINE !in rest
    ensures IsLine(data + [NEWLINE], offset, Line(start, start + |rest| + 1, ViewOf(rest)))
  {
    assert (data + [NEWLINE])[start - offset..|data|] == rest;
  }

  lemma {:induction false} ExactAll(s: Scan, data: seq<byte>, more: seq<byte>, offset: nat)
    requires Exact(s, data, offset)
    ensures Exact(ScanAll(s, more), data + more, offset)
    decreases |more|
  {
    if more == [] {
      assert data + more == data;
    } else {
      ExactByte(s, data, more[0], offset);
      ExactAll(ScanByte(s, more[0]), data + [more[0]], more[1..], offset);
      assert data + [more[0]] + more[1..] == data + more;
    }
  }

  lemma LinesExact(data: seq<byte>, offset: nat)
    ensures Exact(ScanAll(Scan([], offset, []), data), data, offset)
  {
    ExactAll(Scan([], offset, []), [], data, offset);
    assert [] + data == data;
  }

  /** The moment at which line k is complete. */
  lemma {:induction false} ScanReaches(s: Scan, data: seq<byte>, k: nat) returns (n: nat)
    requires |s.lines| <= k < |ScanAll(s, data).lines|
    ensures 0 < n <= |data|
    ensures var all := ScanAll(s, data).lines;
            ScanAll(s, data[..n]) == Scan(all[..k + 1], s.start + |s.rest| + n, [])
              && all[k].end == s.start + |s.rest| + n
    decreases |data|
  {
    var t := ScanByte(s, data[0]);
    if |t.lines| <= k {
      n := ScanReaches(t, data[1..], k);
      n := n + 1;
      assert data[..n][1..] == data[1..][..n - 1];
    } else {
      n := 1;
      assert data[..1][1..] == [];
      ScanFrom(t.lines, t.start, t.rest, data[1..]);
    }
  }

  /** Stopping at the end of any line and starting again there yields the remaining lines. */
  lemma LinesResume(data: seq<byte>, offset: nat, k: nat)
    requires k < |Lines(data, offset)|
    ensures var lines := Lines(data, offset); var end := lines[k].end;
            && offset < end <= offset + |data|
            && lines[k + 1..] == Lines(data[end - offset..], end)
  {
    var begin, lines := Scan([], offset, []), Lines(data, offset);
    var n := ScanReaches(begin, data, k);
    assert data == data[..n] + data[n..];
    ScanConcat(begin, data[..n], data[n..]);
    ScanFrom(lines[..k + 1], offset + n, [], data[n..]);
  }

  /** Bytes appended to a file leave the lines already complete as they are. */
  lemma LinesGrow(data: seq<byte>, more: seq<byte>, offset: nat)
    ensures Lines(data, offset) <= Lines(data + more, offset)
  {
    var s := ScanAll(Scan([], offset, []), data);
    ScanConcat(Scan([], offset, []), data, more);
    ScanFrom(s.lines, s.start, s.rest, more);
  }

  // ---- the reader ----

  lemma FirstBytesGrow(a: seq<byte>, b: seq<byte>, n: nat)
    ensures |a| < n ==> FirstBytes(a + b, n) == a + FirstBytes(b, n - |a|)
    ensures |a| >= n ==> FirstBytes(a + b, n) == FirstBytes(a, n)
  {
  }

  lemma LastBytesGrow(a: seq<byte>, b: seq<byte>, n: nat)
    ensures |b| < n ==> LastBytes(a + b, n) == LastBytes(a, n - |b|) + b
    ensures |b| >= n ==> LastBytes(a + b, n) == LastBytes(b, n)
  {
    var all := a + b;
    if |all| > n {
      assert |b| < n ==> all[|all| - n..] == a[|a| - (n - |b|)..] + b;
      assert |b| >= n ==> all[|all| - n..] == b[|b| - n..];
    }
  }

  /** `_edge`: the first or last `size` bytes of the parts, taking no more of each part than is needed. */
  method Edge(parts: seq<seq<byte>>, size: nat, last: bool) returns (edge: seq<byte>)
    requires size > 0
    ensures edge == if last then LastBytes(Concat(parts), size) else FirstBytes(Concat(parts), size)
  {
    if last {
      edge := LastEdge(parts, size);
    } else {
      edge := FirstEdge(parts, size);
    }
  }

  method FirstEdge(parts: seq<seq<byte>>, size: nat) returns (edge: seq<byte>)
    requires size > 0
    ensures edge == FirstBytes(Concat(parts), size)
  {
    edge := [];
    var i := 0;
    while i < |parts| && |edge| < size
      invariant i <= |parts| && edge == FirstBytes(Concat(parts[..i]), size)
    {
      assert parts[..i + 1] == parts[..i] + [parts[i]];
      ConcatSnoc(parts[..i], parts[i]);
      FirstBytesGrow(Concat(parts[..i]), parts[i], size);
      edge := edge + FirstBytes(parts[i], size - |edge|);
      i := i + 1;
    }
    ConcatSplit(parts, i);
    FirstBytesGrow(Concat(parts[..i]), Concat(parts[i..]), size);
    assert i == |parts| ==> parts[..i] == parts;
  }

  method LastEdge(parts: seq<seq<byte>>, size: nat) returns (edge: seq<byte>)
    requires size > 0
    ensures edge == LastBytes(Concat(parts), size)
  {
    edge := [];
    var i := |parts|;
    while i > 0 && |edge| < size
      invariant 0 <= i <= |parts| && edge == LastBytes(Concat(parts[i..]), size)
    {
      var part := parts[i - 1];
      assert parts[i - 1..] == [part] + parts[i..];
      LastBytesGrow(part, Concat(parts[i..]), size);
      edge := LastBytes(part, size - |edge|) + edge;
      i := i - 1;
    }
    ConcatSplit(parts, i);
    LastBytesGrow(Concat(parts[..i]), Concat(parts[i..]), size);
    assert i == 0 ==> parts[i..] == parts;
  }

  /** The next newline of the chunk from a position on, or -1. */
  method Find(chunk: seq<byte>, position: nat) returns (newline: int)
    requires position <= |chunk|
    ensures newline == -1 || position <= newline < |chunk|
    ensures newline == -1 ==> NEWLINE !in chunk[position..]
    ensures newline >= 0 ==> chunk[newline] == NEWLINE && NEWLINE !in chunk[position..newline]
  {
    newline := position;
    while newline < |chunk|
      invariant position <= newline <= |chunk|
      invariant NEWLINE !in chunk[position..newline]
    {
      if chunk[newline] == NEWLINE {
        return;
      }
      assert chunk[position..newline + 1] == chunk[position..newline] + [chunk[newline]];
      newline := newline + 1;
    }
    assert chunk[position..newline] == chunk[position..];
    newline := -1;
  }

  /** The state `iter_lines` keeps between reads; `current` is the line being assembled. */
  class Reader {
    var base: nat
    var start: nat
    var parts: seq<seq<byte>>
    var size: nat
    var head: Option<seq<byte>>
    var tail: seq<byte>
    ghost var current: seq<byte>

    ghost predicate Holds()
      reads this
    {
      && size == |current| && NEWLINE !in current
      && (head == None ==> size <= MAX_LINE && Concat(parts) == current && tail == [])
      && (head.Some? ==>
            && size > MAX_LINE && parts == []
            && head.value == FirstBytes(current, ENVELOPE) && tail == LastBytes(current, ENVELOPE))
    }

    ghost predicate Valid()
      reads this
    {
      Holds() && base == start + |current|
    }

    /** How many bytes of the line are in memory. */
    ghost function Retained(): nat
      reads this
    {
      |Concat(parts)| + (if head.Some? then |head.value| else 0) + |tail|
    }

    constructor (offset: nat)
      ensures Valid() && start == offset && current == []
    {
      base, start, parts, size, head, tail, current := offset, offset, [], 0, None, [], [];
    }

    method Take(piece: seq<byte>)
      requires Holds() && NEWLINE !in piece
      modifies this
      ensures Holds() && current == old(current) + piece
      ensures start == old(start) && base == old(base)
    {
      size := size + |piece|;
      if head == None {
        parts := parts + [piece];
        ConcatSnoc(old(parts), piece);
        if size > MAX_LINE {
          var first := Edge(parts, ENVELOPE, false);
          tail := Edge(parts, ENVELOPE, true);
          head := Some(first);
          parts := [];
        }
      } else {
        var kept := LastBytes(piece, ENVELOPE);
        tail := LastBytes(tail + kept, ENVELOPE);
      }
      current := current + piece;
    }

    /** What the reader has found, as a scan. */
    ghost function Found(lines: seq<Line>): Scan
      reads this
    {
      Scan(lines, start, current)
    }

    /** The line is complete: hand it out and begin the next one. */
    method Finish(end: nat) returns (line: Line)
      requires Holds() && end == start + |current| + 1
      modifies this
      ensures Holds() && base == old(base)
      ensures Found([line]) == ScanByte(old(Found([])), NEWLINE)
    {
      line := Line(start, end, if head == None then Whole(Concat(parts)) else Envelope(head.value, tail));
      start, parts, size, head, tail := end, [], 0, None, [];
      current := [];
    }

    lemma RetainsLittle()
      requires Holds()
      ensures Retained() <= MAX_LINE
    {
    }

    /** The chunk from `position` up to its next newline, or to its end. */
    method Advance(chunk: seq<byte>, position: nat) returns (found: seq<Line>, next: nat)
      requires Holds() && position < |chunk| && start + |current| == base + position
      modifies this
      ensures Holds() && base == old(base) && position < next <= |chunk| && start + |current| == base + next
      ensures Found(found) == ScanAll(old(Found([])), chunk[position..next])
    {
      ghost var at := Found([]);
      var newline := Find(chunk, position);
      var stop := if newline < 0 then |chunk| else newline;
      Take(chunk[position..stop]);
      if newline < 0 {
        ScanPiece(at, chunk[position..stop]);
        return [], |chunk|;
      }
      ScanTerminated(at, chunk[position..stop]);
      assert chunk[position..stop + 1] == chunk[position..stop] + [NEWLINE];
      var line := Finish(base + newline + 1);
      return [line], newline + 1;
    }

    /** One read: the lines completed by this chunk, whatever its size. */
    method Feed(chunk: seq<byte>) returns (lines: seq<Line>)
      requires Valid()
      modifies this
      ensures Valid() && Retained() <= 4_194_304
      ensures Found(lines) == ScanAll(old(Found([])), chunk)
    {
      lines := [];
      var position := 0;
      ghost var before := Found([]);
      while position < |chunk|
        invariant position <= |chunk| && base == old(base) && Holds() && start + |current| == base + position
        invariant Found(lines) == ScanAll(before, chunk[..position])
      {
        ghost var at := Found([]);
        var found, next := Advance(chunk, position);
        ScanOn(before, chunk, position, next, lines, at);
        lines, position := lines + found, next;
      }
      assert chunk[..|chunk|] == chunk;
      RetainsLittle();
      base := base + |chunk|;
    }
  }

  /** What is found from a position on comes after what was found before it. */
  lemma ScanOn(before: Scan, chunk: seq<byte>, position: nat, next: nat, lines: seq<Line>, at: Scan)
    requires position <= next <= |chunk| && at.lines == []
    requires ScanAll(before, chunk[..position]) == at.(lines := lines)
    ensures var later := ScanAll(at, chunk[position..next]);
            ScanAll(before, chunk[..next]) == later.(lines := lines + later.lines)
  {
    assert chunk[..next] == chunk[..position] + chunk[position..next];
    ScanConcat(before, chunk[..position], chunk[position..next]);
    ScanFrom(lines, at.start, at.rest, chunk[position..next]);
  }

  /** `iter_lines` over a stream that arrives in the given chunks: the cuts do not matter. */
  method IterLines(chunks: seq<seq<byte>>, offset: nat) returns (lines: seq<Line>)
    ensures lines == Lines(Concat(chunks), offset)
  {
    var reader := new Reader(offset);
    lines := [];
    ghost var begin := Scan([], offset, []);
    for i := 0 to |chunks|
      invariant reader.Valid()
      invariant reader.Found(lines) == ScanAll(begin, Concat(chunks[..i]))
    {
      assert chunks[..i + 1] == chunks[..i] + [chunks[i]];
      ConcatSnoc(chunks[..i], chunks[i]);
      ScanConcat(begin, Concat(chunks[..i]), chunks[i]);
      ScanFrom(lines, reader.start, reader.current, chunks[i]);
      var more := reader.Feed(chunks[i]);
      lines := lines + more;
    }
    assert chunks[..|chunks|] == chunks;
  }
}
