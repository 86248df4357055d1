/** The replay buffer of published events: a Redis sorted set scored by event id, trimmed to the
    newest thousand, written by concurrent publishers (internal/reconciler/event.go). */
module ReplayBuffer {
  import Folds

  const MAX_SIZE: nat := 1000

  /** The members of s that rank above x. */
  function Above(s: set<nat>, x: nat): set<nat> {
    set y | y in s && y > x
  }

  /** The n highest members. */
  function Top(n: nat, s: set<nat>): set<nat> {
    set x | x in s && |Above(s, x)| < n
  }

  /** seq is the INCR counter; inflight are ids handed out and not yet added. added is the history:
      every id added since the buffer last expired. */
  datatype Sys = Sys(seqNo: nat, inflight: set<nat>, buffer: set<nat>, added: set<nat>)

  datatype Move =
    | Incr
    | Add(id: nat)
    | Abandon(id: nat)
    | Trim
    | Expire

  const START: Sys := Sys(0, {}, {}, {})

  predicate Enabled(s: Sys, m: Move) {
    match m
    case Add(id) => id in s.inflight
    case Abandon(id) => id in s.inflight
    case _ => true
  }

  /** ZREMRANGEBYRANK 0 -(MAX_SIZE+1) keeps the MAX_SIZE highest scores. */
  function Apply(s: Sys, m: Move): Sys
    requires Enabled(s, m)
  {
    match m
    case Incr => s.(seqNo := s.seqNo + 1, inflight := s.inflight + {s.seqNo + 1})
    case Add(id) => s.(inflight := s.inflight - {id}, buffer := s.buffer + {id}, added := s.added + {id})
    case Abandon(id) => s.(inflight := s.inflight - {id})
    case Trim => s.(buffer := Top(MAX_SIZE, s.buffer))
    case Expire => s.(buffer := {}, added := {})
  }

  ghost predicate IsRun(ss: seq<Sys>, ms: seq<Move>) {
    && |ss| == |ms| + 1 && ss[0] == START
    && forall i :: 0 <= i < |ms| ==> Enabled(ss[i], ms[i]) && ss[i + 1] == Apply(ss[i], ms[i])
  }

  /** The newest ids are all there, nothing else was invented, and ids are unique. */
  predicate Sound(s: Sys) {
    && Top(MAX_SIZE, s.added) <= s.buffer <= s.added
    && (forall x :: x in s.added ==> x <= s.seqNo)
    && (forall x :: x in s.inflight ==> x <= s.seqNo && x !in s.added)
  }

  lemma {:induction false} Highest(s: set<nat>) returns (m: nat)
    requires s != {}
    ensures m in s && forall x :: x in s ==> x <= m
  {
    var x :| x in s;
    var rest := s - {x};
    assert s == rest + {x};
    if rest == {} {
      m := x;
    } else {
      m := Highest(rest);
      if x > m {
        m := x;
      }
    }
  }

  /** Below the highest member, the top n of a set are the top n - 1 of the rest. */
  lemma TopWithoutHighest(n: nat, s: set<nat>, m: nat)
    requires n > 0 && m in s && forall x :: x in s ==> x <= m
    ensures Top(n, s) == Top(n - 1, s - {m}) + {m} && m !in Top(n - 1, s - {m})
  {
    assert Above(s, m) == {};
    forall x | x in s - {m}
      ensures x in Top(n, s) <==> x in Top(n - 1, s - {m})
    {
      assert Above(s, x) == Above(s - {m}, x) + {m};
    }
  }

  lemma NoTop(n: nat, s: set<nat>)
    requires n == 0 || s == {}
    ensures Top(n, s) == {}
  {
  }

  lemma BothGrow(n: nat, s: set<nat>, m: nat)
    requires n > 0 && m in s && forall x :: x in s ==> x <= m
    ensures |Top(n, s)| == |Top(n - 1, s - {m})| + 1 && |s| == |s - {m}| + 1
  {
    TopWithoutHighest(n, s, m);
    Folds.SizeOneMore(Top(n - 1, s - {m}), m);
    assert s - {m} + {m} == s;
  }

  /** The top n are n members, or all when there are fewer. */
  lemma {:induction false} TopSize(n: nat, s: set<nat>)
    ensures |Top(n, s)| == if |s| < n then |s| else n
  {
    if n == 0 || s == {} {
      NoTop(n, s);
    } else {
      var m := Highest(s);
      var rest := s - {m};
      TopSize(n - 1, rest);
      BothGrow(n, s, m);
    }
  }

  /** Any member outside the top n has n members of the top above it. */
  lemma {:induction false} TopCrowdsOut(n: nat, s: set<nat>, x: nat)
    requires x in s && x !in Top(n, s)
    ensures |Above(Top(n, s), x)| >= n
  {
    if n > 0 {
      var m := Highest(s);
      TopWithoutHighest(n, s, m);
      TopCrowdsOut(n - 1, s - {m}, x);
      assert Above(Top(n, s), x) == Above(Top(n - 1, s - {m}), x) + {m};
    }
  }

  /** A buffer that holds the newest of what was added trims to exactly the newest. */
  lemma TrimIsExact(n: nat, added: set<nat>, buffer: set<nat>)
    requires Top(n, added) <= buffer <= added
    ensures Top(n, buffer) == Top(n, added)
  {
    forall x | x in buffer
      ensures x in Top(n, buffer) <==> x in Top(n, added)
    {
      Folds.SubsetSize(Above(buffer, x), Above(added, x));
      if x !in Top(n, added) {
        TopCrowdsOut(n, added, x);
        Folds.SubsetSize(Above(Top(n, added), x), Above(buffer, x));
      }
    }
  }

  /** A new id can only push others out of the newest, never pull one in. */
  lemma AddOnlyDisplaces(n: nat, s: set<nat>, x: nat)
    ensures Top(n, s + {x}) <= Top(n, s) + {x}
  {
    forall y | y in Top(n, s + {x}) && y != x
      ensures y in Top(n, s)
    {
      Folds.SubsetSize(Above(s, y), Above(s + {x}, y));
    }
  }

  lemma MoveStaysSound(s: Sys, m: Move)
    requires Sound(s) && Enabled(s, m)
    ensures Sound(Apply(s, m))
    ensures m == Trim ==> Apply(s, m).buffer == Top(MAX_SIZE, s.added) && |Apply(s, m).buffer| <= MAX_SIZE
  {
    match m
    case Add(id) => AddOnlyDisplaces(MAX_SIZE, s.added, id);
    case Trim =>
      TrimIsExact(MAX_SIZE, s.added, s.buffer);
      TopSize(MAX_SIZE, s.added);
    case Expire => assert Top(MAX_SIZE, {}) == {};
    case Incr =>
    case Abandon(_) =>
  }

  /** Every kept id was added, and every one left out is below all that are kept. */
  predicate IsNewest(kept: set<nat>, added: set<nat>) {
    kept <= added && forall x, y :: x in kept && y in added - kept ==> y < x
  }

  lemma TopIsNewest(n: nat, s: set<nat>)
    ensures IsNewest(Top(n, s), s)
  {
    forall x, y | x in Top(n, s) && y in s - Top(n, s)
      ensures y < x
    {
      if y > x {
        Folds.SubsetSize(Above(s, y), Above(s, x));
      }
    }
  }

  /** Over every interleaving of concurrent publishers, with ids added out of order or never: the
      buffer always holds the thousand highest ids added since it last expired, and right after every
      trim it holds exactly those. */
  lemma {:induction false} BufferHoldsNewest(ss: seq<Sys>, ms: seq<Move>, n: nat)
    requires IsRun(ss, ms) && n <= |ms|
    ensures ss[n].buffer <= ss[n].added
    ensures forall x :: x in ss[n].added && |Above(ss[n].added, x)| < 1000 ==> x in ss[n].buffer
    ensures Sound(ss[n])
    ensures n > 0 && ms[n - 1] == Trim ==>
              && IsNewest(ss[n].buffer, ss[n].added) && |ss[n].buffer| <= 1000
              && (|ss[n].added| >= 1000 ==> |ss[n].buffer| == 1000)
  {
    if n > 0 {
      BufferHoldsNewest(ss, ms, n - 1);
      MoveStaysSound(ss[n - 1], ms[n - 1]);
      TopIsNewest(MAX_SIZE, ss[n].added);
      TopSize(MAX_SIZE, ss[n].added);
    } else {
      assert Top(MAX_SIZE, {}) == {};
    }
  }

  /** Ids are handed out in increasing order and each is added at most once. */
  lemma {:induction false} IdsAreFresh(ss: seq<Sys>, ms: seq<Move>, m: nat, n: nat)
    requires IsRun(ss, ms) && m <= n < |ms| && ms[n] == Incr
    ensures ss[n + 1].seqNo !in ss[m].added + ss[m].inflight && ss[n + 1].seqNo > ss[m].seqNo
  {
    BufferHoldsNewest(ss, ms, m);
    CounterGrows(ss, ms, m, n);
  }

  lemma {:induction false} CounterGrows(ss: seq<Sys>, ms: seq<Move>, m: nat, n: nat)
    requires IsRun(ss, ms) && m <= n <= |ms|
    ensures ss[m].seqNo <= ss[n].seqNo
  {
    if m < n {
      CounterGrows(ss, ms, m, n - 1);
    }
  }

  /** The Redis keys of the event stream, and one publisher running alone. */
  class EventStream {
    var seqNo: nat
    var buffer: set<nat>
    ghost var added: set<nat>

    ghost predicate Valid()
      reads this
    {
      Sound(Sys(seqNo, {}, buffer, added))
    }

    constructor ()
      ensures Valid() && seqNo == 0 && buffer == {}
    {
      seqNo, buffer, added := 0, {}, {};
      assert Top(MAX_SIZE, {}) == {};
    }

    /** incrFails, addFails and trimFails are the errors each Redis command may return. */
    method PublishEvent(incrFails: bool, addFails: bool, trimFails: bool) returns (id: nat)
      requires Valid()
      modifies this
      ensures Valid() && seqNo == if incrFails then old(seqNo) else old(seqNo) + 1
      ensures !incrFails ==> id == seqNo
      ensures added == if incrFails || addFails then old(added) else old(added) + {id}
      ensures !incrFails && !addFails && !trimFails ==>
                buffer == Top(MAX_SIZE, added) && IsNewest(buffer, added) && |buffer| == if |added| < 1000 then |added| else 1000
      ensures incrFails || addFails ==> buffer == old(buffer)
    {
      ghost var s := Sys(seqNo, {}, buffer, added);
      if incrFails {
        return 0;
      }
      seqNo := seqNo + 1;
      id := seqNo;
      MoveStaysSound(s, Incr);
      s := Apply(s, Incr);
      if addFails {
        return;
      }
      buffer, added := buffer + {id}, added + {id};
      MoveStaysSound(s, Add(id));
      s := Apply(s, Add(id));
      if !trimFails {
        buffer := Top(MAX_SIZE, buffer);
        MoveStaysSound(s, Trim);
        TopIsNewest(MAX_SIZE, added);
        TopSize(MAX_SIZE, added);
      }
    }
  }
}
