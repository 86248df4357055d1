/** The consensus rule over several reports of one (model, field)
    (internal/reconciler/reconciler.go, processMultiSource). */
module MultiSource {
  import Folds
  import opened Prices
  import opened DiffEngine

  // ---------------------------------------------------------------- ordering by source name

  predicate StrLe(a: string, b: string) {
    a == [] || (b != [] && (a[0] < b[0] || (a[0] == b[0] && StrLe(a[1..], b[1..]))))
  }

  lemma {:induction false} StrLeTotal(a: string, b: string)
    ensures StrLe(a, b) || StrLe(b, a)
    ensures StrLe(a, b) && StrLe(b, a) ==> a == b
  {
    if a != [] && b != [] && a[0] == b[0] {
      StrLeTotal(a[1..], b[1..]);
      assert a == [a[0]] + a[1..] && b == [b[0]] + b[1..];
    }
  }

  lemma SameStart(a: string, b: string, i: nat)
    requires i <= |a| && i <= |b|
    ensures i > 0 && a[..i] == b[..i] ==> a[0] == b[0]
  {
    assert i > 0 ==> a[..i][0] == a[0] && b[..i][0] == b[0];
  }

  /** One name comes before another when it is a prefix of it, or has the smaller character where they first
      differ. */
  lemma {:induction false} StrLeIs(a: string, b: string)
    ensures StrLe(a, b) <==> a <= b || exists i :: 0 <= i < |a| && i < |b| && a[..i] == b[..i] && a[i] < b[i]
  {
    if a != [] && b != [] && a[0] == b[0] {
      StrLeIs(a[1..], b[1..]);
      assert a == [a[0]] + a[1..] && b == [b[0]] + b[1..];
      if i :| 0 <= i < |a| - 1 && i < |b| - 1 && a[1..][..i] == b[1..][..i] && a[1..][i] < b[1..][i] {
        assert a[..i + 1] == [a[0]] + a[1..][..i] && b[..i + 1] == [b[0]] + b[1..][..i];
      }
      if i :| 0 <= i < |a| && i < |b| && a[..i] == b[..i] && a[i] < b[i] {
        assert a[1..][..i - 1] == a[..i][1..] && b[1..][..i - 1] == b[..i][1..];
      }
    } else if a != [] && b != [] && a[0] < b[0] {
      assert a[..0] == b[..0];
    } else if a != [] && b != [] {
      forall i | 0 <= i < |a| && i < |b|
        ensures a[..i] == b[..i] ==> i == 0
      {
        SameStart(a, b, i);
      }
    }
  }

  lemma {:induction false} StrLeTransitive(a: string, b: string, c: string)
    requires StrLe(a, b) && StrLe(b, c)
    ensures StrLe(a, c)
  {
    if a != [] && a[0] == b[0] && b[0] == c[0] {
      StrLeTransitive(a[1..], b[1..], c[1..]);
    }
  }

  predicate SortedBySource(s: seq<PriceDiff>) {
    forall i, j :: 0 <= i < j < |s| ==> StrLe(s[i].source, s[j].source)
  }

  predicate DistinctSources(s: seq<PriceDiff>) {
    forall i, j :: 0 <= i < j < |s| ==> s[i].source != s[j].source
  }

  function Insert(s: seq<PriceDiff>, d: PriceDiff): seq<PriceDiff> {
    if s == [] || StrLe(s[|s| - 1].source, d.source) then s + [d]
    else Insert(s[..|s| - 1], d) + [s[|s| - 1]]
  }

  /** Stable insertion sort, which is what slices.SortFunc does on short slices. */
  function SortBySource(s: seq<PriceDiff>): seq<PriceDiff> {
    if s == [] then [] else Insert(SortBySource(s[..|s| - 1]), s[|s| - 1])
  }

  lemma SortOne(d: PriceDiff)
    ensures SortBySource([d]) == [d]
  {
    assert [d][..0] == [];
  }

  lemma {:induction false} InsertKeeps(s: seq<PriceDiff>, d: PriceDiff)
    ensures multiset(Insert(s, d)) == multiset(s) + multiset{d}
  {
    if s != [] && !StrLe(s[|s| - 1].source, d.source) {
      InsertKeeps(s[..|s| - 1], d);
      assert s == s[..|s| - 1] + [s[|s| - 1]];
    }
  }

  lemma InsertHolds(s: seq<PriceDiff>, d: PriceDiff, x: PriceDiff)
    requires x in Insert(s, d)
    ensures x == d || x in s
  {
    InsertKeeps(s, d);
    assert x in multiset(Insert(s, d));
  }

  lemma AppendSorted(s: seq<PriceDiff>, d: PriceDiff)
    requires SortedBySource(s) && forall x :: x in s ==> StrLe(x.source, d.source)
    ensures SortedBySource(s + [d])
  {
  }

  lemma LastIsLargest(s: seq<PriceDiff>, x: PriceDiff)
    requires SortedBySource(s) && x in s
    ensures StrLe(x.source, s[|s| - 1].source)
  {
    StrLeTotal(x.source, x.source);
  }

  lemma {:induction false} InsertSorts(s: seq<PriceDiff>, d: PriceDiff)
    requires SortedBySource(s)
    ensures SortedBySource(Insert(s, d))
  {
    if s == [] {
      return;
    }
    var last := s[|s| - 1];
    if StrLe(last.source, d.source) {
      forall x | x in s
        ensures StrLe(x.source, d.source)
      {
        LastIsLargest(s, x);
        StrLeTransitive(x.source, last.source, d.source);
      }
      AppendSorted(s, d);
    } else {
      var init := s[..|s| - 1];
      InsertSorts(init, d);
      StrLeTotal(last.source, d.source);
      forall x | x in Insert(init, d)
        ensures StrLe(x.source, last.source)
      {
        InsertHolds(init, d, x);
        if x in init {
          LastIsLargest(s, x);
        }
      }
      AppendSorted(Insert(init, d), last);
    }
  }

  lemma {:induction false} SortSorts(s: seq<PriceDiff>)
    ensures SortedBySource(SortBySource(s)) && multiset(SortBySource(s)) == multiset(s)
    ensures |SortBySource(s)| == |s|
  {
    if s != [] {
      var n := |s| - 1;
      SortSorts(s[..n]);
      InsertSorts(SortBySource(s[..n]), s[n]);
      InsertKeeps(SortBySource(s[..n]), s[n]);
      assert s == s[..n] + [s[n]];
      SameSize(SortBySource(s), s);
    }
  }

  /** The reports of one source, in order. */
  function OfSource(s: seq<PriceDiff>, source: string): seq<PriceDiff> {
    if s == [] then []
    else
      var n := |s| - 1;
      OfSource(s[..n], source) + if s[n].source == source then [s[n]] else []
  }

  lemma OfSourceMore(s: seq<PriceDiff>, d: PriceDiff, source: string)
    ensures OfSource(s + [d], source) == OfSource(s, source) + if d.source == source then [d] else []
  {
    assert (s + [d])[..|s|] == s;
  }

  lemma {:induction false} InsertIsStable(s: seq<PriceDiff>, d: PriceDiff, source: string)
    ensures OfSource(Insert(s, d), source) == OfSource(s, source) + if d.source == source then [d] else []
  {
    if s == [] || StrLe(s[|s| - 1].source, d.source) {
      OfSourceMore(s, d, source);
    } else {
      var init, last := s[..|s| - 1], s[|s| - 1];
      InsertIsStable(init, d, source);
      OfSourceMore(Insert(init, d), last, source);
      StrLeTotal(last.source, last.source);
    }
  }

  /** Sorting keeps the reports of each source in the order in which they came. */
  lemma {:induction false} SortIsStable(s: seq<PriceDiff>, source: string)
    ensures OfSource(SortBySource(s), source) == OfSource(s, source)
  {
    if s != [] {
      SortIsStable(s[..|s| - 1], source);
      InsertIsStable(SortBySource(s[..|s| - 1]), s[|s| - 1], source);
    }
  }

  lemma SameSize(a: seq<PriceDiff>, b: seq<PriceDiff>)
    requires multiset(a) == multiset(b)
    ensures |a| == |b|
  {
    assert |multiset(a)| == |multiset(b)|;
  }

  lemma SameHead(a: seq<PriceDiff>, b: seq<PriceDiff>)
    requires SortedBySource(a) && SortedBySource(b) && DistinctSources(a)
    requires multiset(a) == multiset(b) && a != [] && b != []
    ensures a[0] == b[0]
  {
    assert a[0] in multiset(b) && b[0] in multiset(a);
    var i :| 0 <= i < |b| && b[i] == a[0];
    var j :| 0 <= j < |a| && a[j] == b[0];
    StrLeTotal(a[0].source, b[0].source);
  }

  lemma TailsMatch(a: seq<PriceDiff>, b: seq<PriceDiff>)
    requires a != [] && b != [] && a[0] == b[0] && multiset(a) == multiset(b)
    ensures multiset(a[1..]) == multiset(b[1..])
  {
    assert a == [a[0]] + a[1..] && b == [b[0]] + b[1..];
    assert multiset(a[1..]) == multiset(a) - multiset{a[0]};
    assert multiset(b[1..]) == multiset(b) - multiset{b[0]};
  }

  lemma {:induction false} SortedIsUnique(a: seq<PriceDiff>, b: seq<PriceDiff>)
    requires SortedBySource(a) && SortedBySource(b) && DistinctSources(a)
    requires multiset(a) == multiset(b)
    ensures a == b
  {
    assert |multiset(a)| == |multiset(b)|;
    if a != [] {
      SameHead(a, b);
      TailsMatch(a, b);
      SortedIsUnique(a[1..], b[1..]);
      assert a == [a[0]] + a[1..] && b == [b[0]] + b[1..];
    }
  }

  lemma SameSortedOrder(a: seq<PriceDiff>, b: seq<PriceDiff>)
    requires multiset(a) == multiset(b) && DistinctSources(a)
    ensures SortBySource(a) == SortBySource(b)
  {
    SortSorts(a);
    SortSorts(b);
    var sa := SortBySource(a);
    forall i, j | 0 <= i < j < |sa|
      ensures sa[i].source != sa[j].source
    {
      PermutedStayDistinct(a, sa, i, j);
    }
    SortedIsUnique(sa, SortBySource(b));
  }

  lemma {:induction false} OneOfEach(a: seq<PriceDiff>, x: PriceDiff)
    requires DistinctSources(a)
    ensures multiset(a)[x] <= 1
  {
    if a != [] {
      var n := |a| - 1;
      OneOfEach(a[..n], x);
      assert a == a[..n] + [a[n]];
      if x == a[n] {
        assert x !in a[..n];
      }
    }
  }

  lemma TwiceCountsTwo(b: seq<PriceDiff>, i: nat, j: nat)
    requires i < j < |b| && b[i] == b[j]
    ensures multiset(b)[b[i]] >= 2
  {
    assert b == b[..j] + [b[j]] + b[j + 1..];
    assert b[i] == b[..j][i];
    assert b[i] in b[..j];
  }

  lemma PermutedStayDistinct(a: seq<PriceDiff>, b: seq<PriceDiff>, i: nat, j: nat)
    requires multiset(a) == multiset(b) && DistinctSources(a) && i < j < |b|
    ensures b[i].source != b[j].source
  {
    OneOfEach(a, b[i]);
    assert b[i] in multiset(a) && b[j] in multiset(a);
    if b[i].source == b[j].source {
      var k :| 0 <= k < |a| && a[k] == b[i];
      var l :| 0 <= l < |a| && a[l] == b[j];
      assert k == l;
      TwiceCountsTwo(b, i, j);
    }
  }

  // ---------------------------------------------------------------- the pairwise loops

  datatype Value = Value(value: real, source: int)

  predicate Close(x: real, y: real) {
    Abs(x - y) <= EPSILON
  }

  predicate AllAgree(v: seq<Value>) {
    forall i :: 1 <= i < |v| ==> Close(v[i].value, v[0].value)
  }

  /** How many of the first n reports agree with report i. */
  function ClusterSize(v: seq<Value>, i: nat, n: nat): nat
    requires i < |v| && n <= |v|
  {
    if n == 0 then 0
    else ClusterSize(v, i, n - 1) + if Close(v[n - 1].value, v[i].value) then 1 else 0
  }

  datatype Best = Best(size: nat, value: real, source: int)

  /** The winner among the clusters centred on the first n reports; the earliest one wins a tie. */
  function BestUpTo(v: seq<Value>, n: nat): Best
    requires n <= |v|
  {
    if n == 0 then Best(0, 0.0, 0)
    else
      var b, size := BestUpTo(v, n - 1), ClusterSize(v, n - 1, |v|);
      if size > b.size then Best(size, v[n - 1].value, v[n - 1].source) else b
  }

  /** Relative difference of two prices; none when both are (nearly) nothing. */
  function Spread(x: real, y: real): real {
    var hi := Max(x, y);
    if hi < EPSILON then 0.0 else Abs(x - y) / hi
  }

  datatype Worst = Worst(delta: real, a: Value, b: Value)

  /** The worst pair among those visited before (i, j). */
  function WorstUpTo(v: seq<Value>, i: nat, j: nat): Worst
    requires i <= |v| && (i < |v| ==> i < j <= |v|)
    decreases i, j
  {
    if i < |v| && j > i + 1 then
      var w, d := WorstUpTo(v, i, j - 1), Spread(v[i].value, v[j - 1].value);
      if d > w.delta then Worst(d, v[i], v[j - 1]) else w
    else if i > 0 then WorstUpTo(v, i - 1, |v|)
    else Worst(0.0, Value(0.0, 0), Value(0.0, 0))
  }

  datatype Dispute = Dispute(a: Value, b: Value, delta: real)

  datatype Choice = Choice(value: real, source: int, confidence: Confidence)

  datatype Decision = Decision(flag: Option<Dispute>, publish: Option<Choice>)

  function Decide(v: seq<Value>): Decision
    requires |v| > 0
  {
    if AllAgree(v) then Decision(None, Some(Choice(v[0].value, v[0].source, High)))
    else
      var best, worst := BestUpTo(v, |v|), WorstUpTo(v, |v|, |v|);
      if worst.delta > DISCREPANCY_THRESHOLD then
        Decision(Some(Dispute(worst.a, worst.b, worst.delta)),
                 if best.size >= 2 then Some(Choice(best.value, best.source, High)) else None)
      else Decision(None, Some(Choice(v[0].value, v[0].source, Medium)))
  }

  method Evaluate(values: seq<Value>) returns (d: Decision)
    requires |values| > 0
    ensures d == Decide(values)
  {
    var ref := values[0].value;
    var allAgree := true;
    var k := 1;
    while k < |values|
      invariant 1 <= k <= |values|
      invariant allAgree ==> forall i :: 1 <= i < k ==> Close(values[i].value, ref)
      invariant !allAgree ==> !AllAgree(values)
    {
      if Abs(values[k].value - ref) > EPSILON {
        allAgree := false;
        break;
      }
      k := k + 1;
    }
    if allAgree {
      return Decision(None, Some(Choice(ref, values[0].source, High)));
    }

    var consensusSize, consensusValue, consensusSource := 0, 0.0, 0;
    for i := 0 to |values|
      invariant BestUpTo(values, i) == Best(consensusSize, consensusValue, consensusSource)
    {
      var size := 0;
      for j := 0 to |values|
        invariant size == ClusterSize(values, i, j)
      {
        if Abs(values[j].value - values[i].value) <= EPSILON {
          size := size + 1;
        }
      }
      if size > consensusSize {
        consensusSize, consensusValue, consensusSource := size, values[i].value, values[i].source;
      }
    }

    var maxDelta := 0.0;
    var a, b := Value(0.0, 0), Value(0.0, 0);
    for i := 0 to |values|
      invariant maxDelta >= 0.0
      invariant WorstUpTo(values, i, if i < |values| then i + 1 else |values|) == Worst(maxDelta, a, b)
    {
      for j := i + 1 to |values|
        invariant maxDelta >= 0.0
        invariant WorstUpTo(values, i, j) == Worst(maxDelta, a, b)
      {
        var hi := Max(values[i].value, values[j].value);
        if hi >= EPSILON {
          var delta := Abs(values[i].value - values[j].value) / hi;
          if delta > maxDelta {
            maxDelta := delta;
            a, b := values[i], values[j];
          }
        }
      }
    }

    if maxDelta > DISCREPANCY_THRESHOLD {
      return Decision(Some(Dispute(a, b, maxDelta)),
                      if consensusSize >= 2 then Some(Choice(consensusValue, consensusSource, High)) else None);
    }
    return Decision(None, Some(Choice(ref, values[0].source, Medium)));
  }

  // ---------------------------------------------------------------- what the loops find

  lemma {:induction false} ClusterCounts(v: seq<Value>, i: nat, n: nat)
    requires i < |v| && n <= |v|
    ensures ClusterSize(v, i, n) == |set j | 0 <= j < n && Close(v[j].value, v[i].value)|
  {
    var s := set j | 0 <= j < n && Close(v[j].value, v[i].value);
    if n > 0 {
      ClusterCounts(v, i, n - 1);
      var s' := set j | 0 <= j < n - 1 && Close(v[j].value, v[i].value);
      assert s == if Close(v[n - 1].value, v[i].value) then s' + {n - 1} else s';
    } else {
      assert s == {};
    }
  }

  /** The consensus is the earliest report whose agreement cluster is largest. */
  lemma {:induction false} BestIsLargest(v: seq<Value>, n: nat) returns (k: nat)
    requires 0 < n <= |v|
    ensures k < n && BestUpTo(v, n) == Best(ClusterSize(v, k, |v|), v[k].value, v[k].source)
    ensures BestUpTo(v, n).size >= 1
    ensures forall i :: 0 <= i < n ==> ClusterSize(v, i, |v|) <= ClusterSize(v, k, |v|)
    ensures forall i :: 0 <= i < k ==> ClusterSize(v, i, |v|) < ClusterSize(v, k, |v|)
  {
    SelfInCluster(v, n - 1);
    if n == 1 {
      return 0;
    }
    k := BestIsLargest(v, n - 1);
    if ClusterSize(v, n - 1, |v|) > BestUpTo(v, n - 1).size {
      k := n - 1;
    }
  }

  lemma SelfInCluster(v: seq<Value>, i: nat)
    requires i < |v|
    ensures ClusterSize(v, i, |v|) >= 1
  {
    ClusterCounts(v, i, |v|);
    var s := set j | 0 <= j < |v| && Close(v[j].value, v[i].value);
    assert i in s;
    assert {i} <= s;
    Folds.SubsetSize({i}, s);
  }

  /** A cluster has two members exactly when some other report agrees with its centre. */
  lemma PairInCluster(v: seq<Value>, i: nat)
    requires i < |v|
    ensures ClusterSize(v, i, |v|) >= 2 <==>
            exists j :: 0 <= j < |v| && j != i && Close(v[j].value, v[i].value)
  {
    ClusterCounts(v, i, |v|);
    var s := set j | 0 <= j < |v| && Close(v[j].value, v[i].value);
    assert i in s;
    if j :| 0 <= j < |v| && j != i && Close(v[j].value, v[i].value) {
      assert {i, j} <= s;
      Folds.SubsetSize({i, j}, s);
    } else {
      assert s == {i};
    }
  }

  predicate Visited(v: seq<Value>, i: nat, j: nat, p: nat, q: nat) {
    p < q < |v| && (p < i || (p == i && q < j))
  }

  /** The pair loops find the true worst pair. */
  lemma {:induction false} WorstIsLargest(v: seq<Value>, i: nat, j: nat)
    requires i <= |v| && (i < |v| ==> i < j <= |v|)
    ensures WorstUpTo(v, i, j).delta >= 0.0
    ensures forall p: nat, q: nat :: Visited(v, i, j, p, q) ==> Spread(v[p].value, v[q].value) <= WorstUpTo(v, i, j).delta
    ensures var w := WorstUpTo(v, i, j);
            w.delta > 0.0 ==>
              exists p: nat, q: nat :: Visited(v, i, j, p, q) && w == Worst(Spread(v[p].value, v[q].value), v[p], v[q])
    decreases i, j
  {
    if i < |v| && j > i + 1 {
      WorstIsLargest(v, i, j - 1);
      assert forall p: nat, q: nat :: Visited(v, i, j, p, q) <==> Visited(v, i, j - 1, p, q) || (p == i && q == j - 1);
      var w := WorstUpTo(v, i, j - 1);
      if w.delta > 0.0 {
        var p: nat, q: nat :| Visited(v, i, j - 1, p, q) && w == Worst(Spread(v[p].value, v[q].value), v[p], v[q]);
        assert Visited(v, i, j, p, q);
      }
      assert Visited(v, i, j, i, j - 1);
    } else if i > 0 {
      WorstIsLargest(v, i - 1, |v|);
      assert forall p: nat, q: nat :: Visited(v, i, j, p, q) <==> Visited(v, i - 1, |v|, p, q);
    }
  }

  /** Within five per cent of the larger, or both below the tolerance. */
  predicate WithinThreshold(x: real, y: real) {
    Max(x, y) < EPSILON || Abs(x - y) <= DISCREPANCY_THRESHOLD * Max(x, y)
  }

  lemma SpreadMeaning(x: real, y: real)
    ensures Spread(x, y) <= DISCREPANCY_THRESHOLD <==> WithinThreshold(x, y)
    ensures Spread(x, y) == Spread(y, x)
  {
    var hi := Max(x, y);
    if hi >= EPSILON {
      RelativeIff(DISCREPANCY_THRESHOLD, x - y, hi);
      assert Abs((x - y) / hi) == Abs(x - y) / hi;
    }
  }

  predicate SomeDispute(v: seq<Value>) {
    exists p, q :: 0 <= p < q < |v| && !WithinThreshold(v[p].value, v[q].value)
  }

  /** All relative differences at once. */
  lemma WorstOfAll(v: seq<Value>) returns (w: Worst)
    ensures w == WorstUpTo(v, |v|, |v|)
    ensures forall p, q :: 0 <= p < q < |v| ==> Spread(v[p].value, v[q].value) <= w.delta
    ensures w.delta > 0.0 ==>
              exists p, q :: 0 <= p < q < |v| && w == Worst(Spread(v[p].value, v[q].value), v[p], v[q])
    ensures w.delta > DISCREPANCY_THRESHOLD <==> SomeDispute(v)
  {
    var n := |v|;
    w := WorstUpTo(v, n, n);
    WorstIsLargest(v, n, n);
    forall p, q | 0 <= p < q < n
      ensures Spread(v[p].value, v[q].value) <= w.delta
      ensures Spread(v[p].value, v[q].value) <= DISCREPANCY_THRESHOLD <==> WithinThreshold(v[p].value, v[q].value)
    {
      assert Visited(v, n, n, p, q);
      SpreadMeaning(v[p].value, v[q].value);
    }
    if w.delta > 0.0 {
      var p: nat, q: nat :| Visited(v, n, n, p, q) && w == Worst(Spread(v[p].value, v[q].value), v[p], v[q]);
      assert 0 <= p < q < |v|;
    }
  }

  /** A dispute is flagged exactly when the reports do not all agree with the first and some pair
      is far apart; the flag names a pair with the largest relative difference. */
  lemma FlagNamesWorstPair(v: seq<Value>)
    requires |v| >= 2
    ensures Decide(v).flag.Some? <==> !AllAgree(v) && SomeDispute(v)
    ensures Decide(v).flag.Some? ==>
              var f := Decide(v).flag.value;
              && (exists p, q :: 0 <= p < q < |v| && f == Dispute(v[p], v[q], Spread(v[p].value, v[q].value)))
              && forall p, q :: 0 <= p < q < |v| ==> Spread(v[p].value, v[q].value) <= f.delta
  {
    var w := WorstOfAll(v);
    if Decide(v).flag.Some? {
      var p, q :| 0 <= p < q < |v| && w == Worst(Spread(v[p].value, v[q].value), v[p], v[q]);
      assert Decide(v).flag.value == Dispute(v[p], v[q], Spread(v[p].value, v[q].value));
    }
  }

  /** Nothing is published exactly when no two reports agree and some pair is far apart. */
  lemma SilentIffAllApart(v: seq<Value>)
    requires |v| >= 2
    ensures Decide(v).publish == None <==>
              SomeDispute(v) && forall p, q :: 0 <= p < q < |v| ==> !Close(v[p].value, v[q].value)
  {
    if AllAgree(v) {
      assert Close(v[1].value, v[0].value);
    } else {
      var w := WorstOfAll(v);
      var k := BestIsLargest(v, |v|);
      if w.delta > DISCREPANCY_THRESHOLD {
        if Decide(v).publish == None {
          forall p, q | 0 <= p < q < |v|
            ensures !Close(v[p].value, v[q].value)
          {
            PairInCluster(v, q);
          }
        } else {
          PairInCluster(v, k);
        }
      }
    }
  }

  /** A High price is a report that another report agrees with, the earliest of those with the largest
      following; a Medium price is the first report, and near every report. */
  lemma PublishedIsBacked(v: seq<Value>) returns (k: nat)
    requires |v| >= 2 && Decide(v).publish.Some?
    ensures IsReport(v, k, Decide(v).publish.value)
    ensures Decide(v).publish.value.confidence != Low
    ensures Decide(v).publish.value.confidence == High ==>
              && (exists j :: 0 <= j < |v| && j != k && Close(v[j].value, v[k].value))
              && (forall i :: 0 <= i < |v| ==> ClusterSize(v, i, |v|) <= ClusterSize(v, k, |v|))
    ensures Decide(v).publish.value.confidence == Medium ==>
              k == 0 && forall i :: 0 <= i < |v| ==> WithinThreshold(v[k].value, v[i].value)
    ensures AllAgree(v) ==> k == 0
    ensures forall i :: 0 <= i < k ==> ClusterSize(v, i, |v|) < ClusterSize(v, k, |v|)
  {
    k := 0;
    if AllAgree(v) {
      assert Close(v[1].value, v[0].value);
      AgreementIsOneCluster(v);
    } else {
      var w := WorstOfAll(v);
      if w.delta > DISCREPANCY_THRESHOLD {
        k := BestIsLargest(v, |v|);
        PairInCluster(v, k);
      } else {
        assert WithinThreshold(v[0].value, v[0].value);
      }
    }
  }

  predicate IsReport(v: seq<Value>, k: nat, c: Choice) {
    k < |v| && v[k] == Value(c.value, c.source)
  }

  lemma AgreementIsOneCluster(v: seq<Value>)
    requires |v| >= 2 && AllAgree(v)
    ensures forall i :: 0 <= i < |v| ==> ClusterSize(v, i, |v|) <= ClusterSize(v, 0, |v|)
  {
    WholeCluster(v, 0, |v|);
    forall i | 0 <= i < |v|
      ensures ClusterSize(v, i, |v|) <= |v|
    {
      ClusterBound(v, i, |v|);
    }
  }

  lemma {:induction false} WholeCluster(v: seq<Value>, i: nat, n: nat)
    requires i < |v| && n <= |v| && forall j :: 0 <= j < n ==> Close(v[j].value, v[i].value)
    ensures ClusterSize(v, i, n) == n
  {
    if n > 0 {
      WholeCluster(v, i, n - 1);
    }
  }

  lemma {:induction false} ClusterBound(v: seq<Value>, i: nat, n: nat)
    requires i < |v| && n <= |v|
    ensures ClusterSize(v, i, n) <= n
  {
    if n > 0 {
      ClusterBound(v, i, n - 1);
    }
  }

  /** The resolved id of a source, or the sentinel -1. */
  function IdOf(ids: map<string, int>, source: string): int {
    if source in ids then ids[source] else -1
  }

  function ValuesOf(diffs: seq<PriceDiff>, ids: map<string, int>): seq<Value> {
    seq(|diffs|, i requires 0 <= i < |diffs| => Value(diffs[i].newValue, IdOf(ids, diffs[i].source)))
  }

  /** With one report per source, the decision does not depend on the order of arrival. */
  lemma ArrivalOrderIrrelevant(a: seq<PriceDiff>, b: seq<PriceDiff>, ids: map<string, int>)
    requires a != [] && multiset(a) == multiset(b) && DistinctSources(a)
    ensures SortBySource(a) == SortBySource(b) && |SortBySource(a)| == |a|
    ensures Decide(ValuesOf(SortBySource(a), ids)) == Decide(ValuesOf(SortBySource(b), ids))
  {
    SameSortedOrder(a, b);
    SortSorts(a);
  }
}
