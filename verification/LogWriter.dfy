/** The OTLP log writer: lines reassembled in place from arbitrary chunks and handed to a bounded
    queue (internal/logger/otlp.go). */
module LogWriter {

  newtype Byte = x: int | 0 <= x < 256

  const NEWLINE: Byte := 10

  type Text = seq<Byte>

  // ---------------------------------------------------------------- splitting a stream

  function CutFrom(s: Text, k: nat): (i: nat)
    requires k <= |s|
    ensures k <= i <= |s| && (i < |s| ==> s[i] == NEWLINE)
    ensures forall j :: k <= j < i ==> s[j] != NEWLINE
    decreases |s| - k
  {
    if k == |s| || s[k] == NEWLINE then k else CutFrom(s, k + 1)
  }

  /** The position of the first newline, or the length. */
  function Cut(s: Text): (i: nat)
    ensures i <= |s| && (i < |s| ==> s[i] == NEWLINE)
    ensures forall j :: 0 <= j < i ==> s[j] != NEWLINE
  {
    CutFrom(s, 0)
  }

  /** The complete lines of a stream, without their newlines. */
  function Lines(s: Text): seq<Text> {
    var i := Cut(s);
    if i == |s| then [] else [s[..i]] + Lines(s[i + 1..])
  }

  /** What follows the last newline. */
  function Tail(s: Text): Text {
    var i := Cut(s);
    if i == |s| then s else Tail(s[i + 1..])
  }

  function Rejoin(lines: seq<Text>): Text {
    if lines == [] then [] else lines[0] + [NEWLINE] + Rejoin(lines[1..])
  }

  lemma RejoinFirst(line: Text, rest: seq<Text>, tail: Text)
    ensures Rejoin([line] + rest) + tail == line + [NEWLINE] + (Rejoin(rest) + tail)
  {
    assert ([line] + rest)[1..] == rest;
  }

  /** The split is the one and only: pieces that rejoin to the stream ... */
  lemma {:induction false} SplitRejoins(s: Text)
    ensures Rejoin(Lines(s)) + Tail(s) == s
  {
    var i := Cut(s);
    if i < |s| {
      var rest := s[i + 1..];
      SplitRejoins(rest);
      RejoinFirst(s[..i], Lines(rest), Tail(rest));
      assert s == s[..i] + [NEWLINE] + rest;
    }
  }

  /** ... and hold no newline themselves. */
  lemma {:induction false} SplitIsClean(s: Text)
    ensures NEWLINE !in Tail(s) && forall i :: 0 <= i < |Lines(s)| ==> NEWLINE !in Lines(s)[i]
  {
    var i := Cut(s);
    if i < |s| {
      SplitIsClean(s[i + 1..]);
    }
  }

  lemma CutOfConcat(a: Text, b: Text)
    requires Cut(a) < |a|
    ensures Cut(a + b) == Cut(a)
  {
    CutIsFirst(a + b, Cut(a));
  }

  lemma CutIsFirst(s: Text, i: nat)
    requires i <= |s| && (i < |s| ==> s[i] == NEWLINE) && forall j :: 0 <= j < i ==> s[j] != NEWLINE
    ensures i == Cut(s)
  {
  }

  /** ... so no other pieces of that kind make up the stream. */
  lemma {:induction false} SplitIsUnique(s: Text, lines: seq<Text>, tail: Text)
    requires s == Rejoin(lines) + tail
    requires NEWLINE !in tail && forall i :: 0 <= i < |lines| ==> NEWLINE !in lines[i]
    ensures lines == Lines(s) && tail == Tail(s)
    decreases |lines|
  {
    if lines == [] {
      NoNewlineNoLines(s);
    } else {
      var first, rest := lines[0], Rejoin(lines[1..]) + tail;
      assert s == first + [NEWLINE] + rest;
      assert forall j :: 0 <= j < |first| ==> s[j] == first[j];
      CutIsFirst(s, |first|);
      SplitIsUnique(rest, lines[1..], tail);
      assert s[..|first|] == first && s[|first| + 1..] == rest;
      assert lines == [first] + lines[1..];
    }
  }

  /** The first line of a longer stream is the first line of its start. */
  lemma SplitFirst(a: Text, b: Text)
    requires Cut(a) < |a|
    ensures var rest := a[Cut(a) + 1..] + b;
            Lines(a + b) == [a[..Cut(a)]] + Lines(rest) && Tail(a + b) == Tail(rest)
  {
    var i := Cut(a);
    CutOfConcat(a, b);
    assert (a + b)[..i] == a[..i] && (a + b)[i + 1..] == a[i + 1..] + b;
  }

  /** Splitting a longer stream continues from the unterminated tail. */
  lemma {:induction false} SplitContinues(a: Text, b: Text)
    ensures Lines(a + b) == Lines(a) + Lines(Tail(a) + b)
    ensures Tail(a + b) == Tail(Tail(a) + b)
    decreases |a|
  {
    var i := Cut(a);
    if i < |a| {
      var rest := a[i + 1..];
      SplitFirst(a, b);
      SplitContinues(rest, b);
      assert [a[..i]] + (Lines(rest) + Lines(Tail(rest) + b)) == ([a[..i]] + Lines(rest)) + Lines(Tail(rest) + b);
    }
  }

  function Concat(chunks: seq<Text>): Text {
    if chunks == [] then [] else Concat(chunks[..|chunks| - 1]) + chunks[|chunks| - 1]
  }

  /** The buffer and the lines handed over after writing the chunks one by one. */
  function Fed(buf: Text, chunks: seq<Text>): (Text, seq<Text>) {
    if chunks == [] then (buf, [])
    else
      var (b, ls) := Fed(buf, chunks[..|chunks| - 1]);
      var s := b + chunks[|chunks| - 1];
      (Tail(s), ls + Lines(s))
  }

  /** However a stream is cut into writes, the lines handed over are those of the whole stream, and
      the buffer holds its unterminated tail. */
  lemma {:induction false} ChunksDoNotMatter(buf: Text, chunks: seq<Text>)
    requires NEWLINE !in buf
    ensures Fed(buf, chunks) == (Tail(buf + Concat(chunks)), Lines(buf + Concat(chunks)))
  {
    if chunks == [] {
      assert buf + [] == buf;
      NoNewlineNoLines(buf);
    } else {
      var n := |chunks| - 1;
      var before := buf + Concat(chunks[..n]);
      ChunksDoNotMatter(buf, chunks[..n]);
      FedOneMore(buf, chunks, before);
      assert buf + Concat(chunks) == before + chunks[n];
    }
  }

  lemma FedOneMore(buf: Text, chunks: seq<Text>, before: Text)
    requires chunks != [] && Fed(buf, chunks[..|chunks| - 1]) == (Tail(before), Lines(before))
    ensures var s := before + chunks[|chunks| - 1];
            Fed(buf, chunks) == (Tail(s), Lines(s))
  {
    SplitContinues(before, chunks[|chunks| - 1]);
  }

  lemma NoNewlineNoLines(s: Text)
    requires NEWLINE !in s
    ensures Lines(s) == [] && Tail(s) == s
  {
    assert forall j :: 0 <= j < |s| ==> s[j] in s;
  }

  // ---------------------------------------------------------------- the queue

  /** ASCII white space, as strings.TrimSpace removes it. */
  predicate IsSpace(b: Byte) {
    b == 32 || 9 <= b <= 13
  }

  function TrimLeft(s: Text): Text {
    if s != [] && IsSpace(s[0]) then TrimLeft(s[1..]) else s
  }

  function TrimRight(s: Text): Text {
    if s != [] && IsSpace(s[|s| - 1]) then TrimRight(s[..|s| - 1]) else s
  }

  /** Nothing is left when both ends are trimmed. */
  predicate Blank(line: Text) {
    TrimRight(TrimLeft(line)) == []
  }

  /** Some byte is none of tab, line feed, vertical tab, form feed, carriage return and space. */
  predicate HasInk(line: Text) {
    exists i :: 0 <= i < |line| && line[i] !in {9, 10, 11, 12, 13, 32}
  }

  lemma {:induction false} LeftIff(s: Text)
    ensures HasInk(TrimLeft(s)) <==> HasInk(s)
    ensures TrimLeft(s) == [] || TrimLeft(s)[0] !in {9, 10, 11, 12, 13, 32}
  {
    if s != [] && IsSpace(s[0]) {
      LeftIff(s[1..]);
      if i :| 0 <= i < |s| && s[i] !in {9, 10, 11, 12, 13, 32} {
        assert s[1..][i - 1] == s[i];
      }
    }
  }

  lemma {:induction false} RightIff(s: Text)
    ensures TrimRight(s) != [] <==> HasInk(s)
  {
    if s != [] && IsSpace(s[|s| - 1]) {
      var n := |s| - 1;
      RightIff(s[..n]);
      if i :| 0 <= i < |s| && s[i] !in {9, 10, 11, 12, 13, 32} {
        assert s[..n][i] == s[i];
      }
    }
  }

  /** A line trims to nothing exactly when all its bytes are white space. */
  lemma BlankIff(line: Text)
    ensures Blank(line) <==> !HasInk(line)
  {
    LeftIff(line);
    RightIff(TrimLeft(line));
  }

  /** The channel, the drop counter, and whether the channel was closed. */
  datatype Queue = Queue(lines: seq<Text>, dropped: nat, closed: bool)

  function Enqueue(q: Queue, capacity: nat, line: Text): Queue {
    if q.closed || Blank(line) then q
    else if |q.lines| < capacity then q.(lines := q.lines + [line])
    else q.(dropped := q.dropped + 1)
  }

  function EnqueueAll(q: Queue, capacity: nat, lines: seq<Text>): Queue
    decreases |lines|
  {
    if lines == [] then q else EnqueueAll(Enqueue(q, capacity, lines[0]), capacity, lines[1..])
  }

  /** Offering the lines of a buffer is offering its first line, then the lines of the rest. */
  lemma OfferFirst(q: Queue, capacity: nat, buf: Text)
    requires Cut(buf) < |buf|
    ensures var rest := buf[Cut(buf) + 1..];
            && Tail(buf) == Tail(rest)
            && EnqueueAll(q, capacity, Lines(buf)) == EnqueueAll(Enqueue(q, capacity, buf[..Cut(buf)]), capacity, Lines(rest))
  {
    var line, rest := buf[..Cut(buf)], buf[Cut(buf) + 1..];
    assert Lines(buf) == [line] + Lines(rest);
    assert ([line] + Lines(rest))[1..] == Lines(rest);
  }

  // ---------------------------------------------------------------- the writer

  class OtlpWriter {
    const capacity: nat
    var data: array<Byte>
    var len: nat
    var lines: seq<Text>
    var dropped: nat
    var closed: bool
    var stopped: bool

    predicate Valid()
      reads this
    {
      len <= data.Length && stopped == closed
    }

    /** The bytes buffered so far. */
    function Buf(): Text
      reads this, data
      requires Valid()
    {
      data[..len]
    }

    function Channel(): Queue
      reads this
    {
      Queue(lines, dropped, closed)
    }

    constructor (capacity: nat)
      ensures Valid() && this.capacity == capacity && Buf() == [] && Channel() == Queue([], 0, false)
      ensures fresh(data)
    {
      this.capacity := capacity;
      data := new Byte[0];
      len, lines, dropped, closed, stopped := 0, [], 0, false, false;
    }

    method EnqueueLine(line: Text)
      modifies `lines, `dropped
      ensures Channel() == Enqueue(old(Channel()), capacity, line)
      ensures closed || !HasInk(line) ==> Channel() == old(Channel())
      ensures !closed && HasInk(line) && old(|lines|) < capacity ==> lines == old(lines) + [line] && dropped == old(dropped)
      ensures !closed && HasInk(line) && old(|lines|) >= capacity ==> lines == old(lines) && dropped == old(dropped) + 1
    {
      BlankIff(line);
      if closed || Blank(line) {
        return;
      }
      if |lines| < capacity {
        lines := lines + [line];
      } else {
        dropped := dropped + 1;
      }
    }

    /** The array itself when it is large enough, else a larger copy. */
    method Grown(need: nat) returns (a: array<Byte>)
      requires Valid()
      ensures a.Length >= need && len <= a.Length && a[..len] == Buf()
      ensures a == data || fresh(a)
    {
      if need <= data.Length {
        return data;
      }
      a := new Byte[2 * need + len];
      for i := 0 to len
        invariant a[..i] == data[..i]
      {
        a[i] := data[i];
      }
    }

    /** append(w.buf, p...): in place when it fits. */
    method AppendChunk(p: Text)
      requires Valid()
      modifies this`data, this`len, data
      ensures Valid() && Buf() == old(Buf()) + p
      ensures data == old(data) || fresh(data)
    {
      var start := len;
      var a := Grown(start + |p|);
      for i := 0 to |p|
        invariant a[..start] == old(Buf()) && a[start..start + i] == p[..i]
      {
        a[start + i] := p[i];
      }
      data, len := a, start + |p|;
      assert data[..len] == data[..start] + data[start..start + |p|];
    }

    /** bytes.IndexByte(w.buf, '\n'), or the buffer length. */
    method IndexNewline() returns (i: nat)
      requires Valid()
      ensures i == Cut(Buf())
    {
      i := 0;
      while i < len && data[i] != NEWLINE
        invariant i <= len && forall j :: 0 <= j < i ==> data[j] != NEWLINE
      {
        i := i + 1;
      }
      CutIsFirst(Buf(), i);
    }

    /** append(w.buf[:0], w.buf[idx+1:]...): the remainder moves to the front of the same array. */
    method ShiftFront(idx: nat)
      requires Valid() && idx < len
      modifies this`len, data
      ensures Valid() && Buf() == old(Buf())[idx + 1..]
    {
      var a, n := data, len - (idx + 1);
      for i := 0 to n
        invariant data == a && len == old(len)
        invariant forall j :: 0 <= j < i ==> a[j] == old(a[idx + 1 + j])
        invariant forall j :: i <= j < a.Length ==> a[j] == old(a[j])
      {
        a[i] := a[idx + 1 + i];
      }
      len := n;
    }

    method Write(p: Text) returns (n: nat)
      requires Valid()
      modifies this, data
      ensures Valid() && n == |p| && (data == old(data) || fresh(data)) && closed == old(closed)
      ensures Buf() == Tail(old(Buf()) + p)
      ensures Channel() == EnqueueAll(old(Channel()), capacity, Lines(old(Buf()) + p))
    {
      AppendChunk(p);
      ghost var goal := Buf();
      var idx := IndexNewline();
      while idx < len
        invariant Valid() && (data == old(data) || fresh(data)) && closed == old(closed)
        invariant idx == Cut(Buf())
        invariant Tail(Buf()) == Tail(goal)
        invariant EnqueueAll(Channel(), capacity, Lines(Buf())) == EnqueueAll(old(Channel()), capacity, Lines(goal))
        decreases len
      {
        var line := data[..idx];
        assert line == Buf()[..idx];
        OfferFirst(Channel(), capacity, Buf());
        ShiftFront(idx);
        EnqueueLine(line);
        idx := IndexNewline();
      }
      return |p|;
    }

    /** stop up to the wait for the consumer: flush the partial line and close the channel, once. */
    method Stop()
      requires Valid()
      modifies this
      ensures Valid() && closed && data == old(data)
      ensures Channel() == if old(closed) then old(Channel())
                           else if old(Buf()) == [] then old(Channel()).(closed := true)
                           else Enqueue(old(Channel()), capacity, old(Buf())).(closed := true)
      ensures Buf() == if old(closed) then old(Buf()) else []
    {
      if stopped {
        return;
      }
      stopped := true;
      if len > 0 {
        EnqueueLine(data[..len]);
        len := 0;
      }
      closed := true;
    }
  }
}
