/** The writer's bounded queue under every interleaving of writers, the consumer and stop
    (internal/logger/otlp.go). */
module LogQueue {
  import Folds
  import opened LogWriter

  datatype Stopping = NotCalled | Waiting | Returned

  /** writing says that a Write holds the mutex. stream, taken, offered, kept and emitted are the
      history of the run: bytes accepted before the close, lines cut from them, the non-blank lines
      offered to the channel, which of those it took, and what the consumer emitted. */
  datatype Sys = Sys(
    buf: Text, writing: bool, queue: Queue, stopping: Stopping, consumerDone: bool,
    stream: Text, taken: seq<Text>, offered: seq<Text>, kept: seq<bool>, emitted: seq<Text>)

  datatype Move =
    | BeginWrite(p: Text)
    | NextLine
    | EndWrite
    | Receive
    | Close
    | ConsumerExit
    | StopReturn

  const START: Sys := Sys([], false, Queue([], 0, false), NotCalled, false, [], [], [], [], [])

  predicate Enabled(s: Sys, m: Move) {
    match m
    case BeginWrite(_) => !s.writing
    case NextLine => s.writing && Cut(s.buf) < |s.buf|
    case EndWrite => s.writing && Cut(s.buf) == |s.buf|
    case Receive => s.queue.lines != [] && !s.consumerDone
    case Close => !s.writing && s.stopping == NotCalled
    case ConsumerExit => s.queue.closed && s.queue.lines == [] && !s.consumerDone
    case StopReturn => s.stopping == Waiting && s.consumerDone
  }

  /** enqueue, with the history it adds to. */
  function Offer(s: Sys, capacity: nat, line: Text): Sys {
    var q := Enqueue(s.queue, capacity, line);
    if s.queue.closed || !HasInk(line) then s.(queue := q)
    else s.(queue := q, offered := s.offered + [line], kept := s.kept + [q.lines != s.queue.lines])
  }

  function Apply(s: Sys, capacity: nat, m: Move): Sys
    requires Enabled(s, m)
  {
    match m
    case BeginWrite(p) =>
      s.(writing := true, buf := s.buf + p, stream := if s.queue.closed then s.stream else s.stream + p)
    case NextLine =>
      var i := Cut(s.buf);
      Offer(s.(buf := s.buf[i + 1..], taken := if s.queue.closed then s.taken else s.taken + [s.buf[..i]]),
            capacity, s.buf[..i])
    case EndWrite => s.(writing := false)
    case Receive => s.(queue := s.queue.(lines := s.queue.lines[1..]), emitted := s.emitted + [s.queue.lines[0]])
    case Close =>
      var t := if s.buf == [] then s else Offer(s.(buf := []), capacity, s.buf);
      t.(queue := t.queue.(closed := true), stopping := Waiting)
    case ConsumerExit => s.(consumerDone := true)
    case StopReturn => s.(stopping := Returned)
  }

  ghost predicate IsRun(ss: seq<Sys>, capacity: nat, ms: seq<Move>) {
    && |ss| == |ms| + 1 && ss[0] == START
    && forall i :: 0 <= i < |ms| ==> Enabled(ss[i], ms[i]) && ss[i + 1] == Apply(ss[i], capacity, ms[i])
  }

  // ---------------------------------------------------------------- the invariant

  /** The lines of xs whose flag is set, in order. */
  function Pick(xs: seq<Text>, flags: seq<bool>): seq<Text>
    requires |xs| == |flags|
  {
    if xs == [] then []
    else
      var n := |xs| - 1;
      Pick(xs[..n], flags[..n]) + if flags[n] then [xs[n]] else []
  }

  /** The lines with some byte that is not white space, in order. */
  function NonBlank(xs: seq<Text>): seq<Text> {
    if xs == [] then []
    else
      var n := |xs| - 1;
      NonBlank(xs[..n]) + if HasInk(xs[n]) then [xs[n]] else []
  }

  /** Everything a closed stream consists of: its lines, and its last partial line if any. */
  function AllLines(stream: Text): seq<Text> {
    Lines(stream) + if Tail(stream) == [] then [] else [Tail(stream)]
  }

  /** Every accepted line is emitted or queued, in order; every other one was counted as dropped. */
  predicate Conserved(s: Sys) {
    && |s.offered| == |s.kept|
    && Pick(s.offered, s.kept) == s.emitted + s.queue.lines
    && |s.offered| == |s.emitted| + |s.queue.lines| + s.queue.dropped
  }

  /** What was offered is exactly the non-blank part of what was written. */
  predicate Complete(s: Sys) {
    if s.queue.closed then s.offered == NonBlank(AllLines(s.stream))
    else
      && Lines(s.stream) == s.taken + Lines(s.buf) && Tail(s.stream) == Tail(s.buf)
      && s.offered == NonBlank(s.taken)
  }

  predicate Orderly(s: Sys, capacity: nat) {
    && |s.queue.lines| <= capacity
    && (s.queue.closed <==> s.stopping != NotCalled)
    && (s.consumerDone ==> s.queue.closed && s.queue.lines == [])
    && (s.stopping == Returned ==> s.consumerDone)
    && (!s.writing ==> NEWLINE !in s.buf)
  }

  predicate Sound(s: Sys, capacity: nat) {
    Conserved(s) && Complete(s) && Orderly(s, capacity)
  }

  lemma OfferConserves(s: Sys, capacity: nat, line: Text)
    requires Conserved(s)
    ensures Conserved(Offer(s, capacity, line))
  {
    var s' := Offer(s, capacity, line);
    BlankIff(line);
    if s'.offered != s.offered {
      assert s'.offered[..|s.offered|] == s.offered && s'.kept[..|s.kept|] == s.kept;
      assert |s.queue.lines| < capacity ==>
               s'.emitted + s'.queue.lines == (s.emitted + s.queue.lines) + [line];
    }
  }

  lemma NextLineComplete(s: Sys, capacity: nat)
    requires Sound(s, capacity) && Enabled(s, NextLine)
    ensures Complete(Apply(s, capacity, NextLine))
  {
    if !s.queue.closed {
      var line, rest := s.buf[..Cut(s.buf)], s.buf[Cut(s.buf) + 1..];
      assert Lines(s.buf) == [line] + Lines(rest) && Tail(s.buf) == Tail(rest);
      TakeOne(s.taken, line, Lines(rest));
    }
  }

  lemma TakeOne(taken: seq<Text>, line: Text, rest: seq<Text>)
    ensures taken + ([line] + rest) == (taken + [line]) + rest
    ensures NonBlank(taken + [line]) == NonBlank(taken) + if HasInk(line) then [line] else []
  {
    Folds.Assoc(taken, [line], rest);
    assert (taken + [line])[..|taken|] == taken;
  }

  lemma BeginWriteComplete(s: Sys, p: Text, capacity: nat)
    requires Sound(s, capacity) && !s.writing
    ensures Complete(Apply(s, capacity, BeginWrite(p)))
  {
    if !s.queue.closed {
      NoNewlineNoLines(s.buf);
      SplitContinues(s.stream, p);
    }
  }

  lemma CloseComplete(s: Sys, capacity: nat)
    requires Sound(s, capacity) && Enabled(s, Close)
    ensures Complete(Apply(s, capacity, Close))
  {
    NoNewlineNoLines(s.buf);
    assert Lines(s.stream) == s.taken;
    if s.buf != [] {
      TakeOne(s.taken, s.buf, []);
    } else {
      assert AllLines(s.stream) == s.taken;
    }
  }

  lemma NextLineSound(s: Sys, capacity: nat)
    requires Sound(s, capacity) && Enabled(s, NextLine)
    ensures Sound(Apply(s, capacity, NextLine), capacity)
  {
    var i := Cut(s.buf);
    OfferConserves(s.(buf := s.buf[i + 1..], taken := if s.queue.closed then s.taken else s.taken + [s.buf[..i]]),
                   capacity, s.buf[..i]);
    NextLineComplete(s, capacity);
  }

  lemma CloseSound(s: Sys, capacity: nat)
    requires Sound(s, capacity) && Enabled(s, Close)
    ensures Sound(Apply(s, capacity, Close), capacity)
  {
    OfferConserves(s.(buf := []), capacity, s.buf);
    CloseComplete(s, capacity);
  }

  lemma MoveStaysSound(s: Sys, capacity: nat, m: Move)
    requires Sound(s, capacity) && Enabled(s, m)
    ensures Sound(Apply(s, capacity, m), capacity)
  {
    match m
    case BeginWrite(p) => BeginWriteComplete(s, p, capacity);
    case NextLine => NextLineSound(s, capacity);
    case EndWrite =>
    case Receive =>
      var q := s.queue.lines;
      Folds.Assoc(s.emitted, [q[0]], q[1..]);
      assert q == [q[0]] + q[1..];
    case Close => CloseSound(s, capacity);
    case ConsumerExit =>
    case StopReturn =>
  }

  /** In every state of every interleaving: the queue never exceeds its capacity, every non-blank line
      written before the close is emitted, queued or counted as dropped, and emission keeps order. */
  lemma {:induction false} QueueConserves(ss: seq<Sys>, capacity: nat, ms: seq<Move>, n: nat)
    requires IsRun(ss, capacity, ms) && n <= |ms|
    ensures Sound(ss[n], capacity)
  {
    if n > 0 {
      QueueConserves(ss, capacity, ms, n - 1);
      MoveStaysSound(ss[n - 1], capacity, ms[n - 1]);
    }
  }

  /** After the close the channel is never sent to again: what was accepted stays as it was. */
  lemma NothingSentAfterClose(s: Sys, capacity: nat, m: Move)
    requires Sound(s, capacity) && Enabled(s, m) && s.queue.closed
    ensures var s' := Apply(s, capacity, m);
            && s'.queue.closed && s'.emitted + s'.queue.lines == s.emitted + s.queue.lines
            && s'.queue.dropped == s.queue.dropped && s'.offered == s.offered
  {
    if m.Receive? {
      var q := s.queue.lines;
      assert s.emitted + q == (s.emitted + [q[0]]) + q[1..];
    }
  }

  /** A line is dropped only while the queue is full. */
  lemma DropsOnlyWhenFull(s: Sys, capacity: nat, m: Move)
    requires Sound(s, capacity) && Enabled(s, m) && Apply(s, capacity, m).queue.dropped != s.queue.dropped
    ensures |s.queue.lines| == capacity && Apply(s, capacity, m).queue.dropped == s.queue.dropped + 1
  {
  }

  /** Once stop has returned the queue is drained: every non-blank line of the stream, the last partial
      one included, was emitted in order or counted as dropped. */
  lemma StopDrains(ss: seq<Sys>, capacity: nat, ms: seq<Move>)
    requires IsRun(ss, capacity, ms) && ss[|ms|].stopping == Returned
    ensures var s := ss[|ms|];
            && s.queue.lines == []
            && |s.kept| == |NonBlank(AllLines(s.stream))|
            && s.emitted == Pick(NonBlank(AllLines(s.stream)), s.kept)
            && |NonBlank(AllLines(s.stream))| == |s.emitted| + s.queue.dropped
  {
    QueueConserves(ss, capacity, ms, |ms|);
    assert ss[|ms|].emitted + [] == ss[|ms|].emitted;
  }
}
