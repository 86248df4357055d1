/** Aggregating active evidence into one capability row per dimension, and replacing a model's rows
    (internal/intelligence/aggregator.go, internal/intelligence/capability_store.go). */
module Capability {
  import opened Prices
  import Evidence
  import Folds

  /** time.Duration(90) * 24h in nanoseconds. */
  const STALENESS: int := 7776000000000000

  /** The zero time.Time; no evaluation is older. */
  const ZERO_TIME: nat := 0

  datatype Score = Score(normalized: real, evaluatedAt: nat, confidence: string)

  type Weights = map<string, real>

  type Scores = map<string, Score>

  datatype Result = Result(score: real, confidence: string, count: nat, stale: bool)

  // ---------------------------------------------------------------- confidence labels

  function Rank(c: string): nat {
    if c == "high" then 2 else if c == "medium" then 1 else 0
  }

  function Label(rank: nat): string {
    if rank >= 2 then "high" else if rank == 1 then "medium" else "low"
  }

  /** Unknown labels count as low. */
  function LowerConfidence(a: string, b: string): (r: string)
    ensures Rank(r) == if Rank(a) <= Rank(b) then Rank(a) else Rank(b)
    ensures r == Label(Rank(r))
  {
    if Rank(b) < Rank(a) then Label(Rank(b)) else Label(Rank(a))
  }

  /** The confidence that the share of benchmarks with data deserves. */
  function Coverage(count: nat, total: nat): string {
    if count >= total then "high" else if count >= 2 then "medium" else "low"
  }

  // ---------------------------------------------------------------- sums over a set

  ghost function Pick(s: set<string>): string
    requires s != {}
  {
    var x :| x in s;
    x
  }

  ghost function Sum(s: set<string>, f: map<string, real>): real {
    if s == {} then 0.0
    else
      var x := Pick(s);
      (if x in f then f[x] else 0.0) + Sum(s - {x}, f)
  }

  lemma {:induction false} SumTakesOne(s: set<string>, f: map<string, real>, x: string)
    requires x in s && x in f
    ensures Sum(s, f) == f[x] + Sum(s - {x}, f)
  {
    var y := Pick(s);
    if y != x {
      SumTakesOne(s - {y}, f, x);
      assert s - {y} - {x} == s - {x} - {y};
      if y in f {
        SumTakesOne(s - {x}, f, y);
      } else {
        SumSkips(s - {x}, f, y);
      }
    }
  }

  lemma {:induction false} SumSkips(s: set<string>, f: map<string, real>, y: string)
    requires y in s && y !in f
    ensures Sum(s, f) == Sum(s - {y}, f)
  {
    var x := Pick(s);
    if x != y {
      SumSkips(s - {x}, f, y);
      assert s - {x} - {y} == s - {y} - {x};
      if x in f {
        SumTakesOne(s - {y}, f, x);
      } else {
        SumSkips(s - {y}, f, x);
      }
    }
  }

  /** The benchmarks of a dimension that have a score. */
  function Present(w: Weights, scores: Scores): set<string> {
    set b | b in w && b in scores
  }

  function Weighted(w: Weights, scores: Scores): map<string, real> {
    map b | b in w && b in scores :: scores[b].normalized * w[b]
  }

  predicate Positive(w: Weights) {
    forall b :: b in w ==> w[b] > 0.0
  }

  lemma {:induction false} SumIsPositive(s: set<string>, w: Weights)
    requires Positive(w) && s <= w.Keys && s != {}
    ensures Sum(s, w) > 0.0
  {
    var x := Pick(s);
    if s != {x} {
      SumIsPositive(s - {x}, w);
    } else {
      assert s - {x} == {};
    }
  }

  predicate Scaled(lo: real, sum: real, hi: real, total: real) {
    lo * total <= sum <= hi * total
  }

  lemma ScaledAdds(lo: real, a: real, b: real, hi: real, wa: real, wb: real)
    requires Scaled(lo, a, hi, wa) && Scaled(lo, b, hi, wb)
    ensures Scaled(lo, a + b, hi, wa + wb)
  {
    assert lo * (wa + wb) == lo * wa + lo * wb && hi * (wa + wb) == hi * wa + hi * wb;
  }

  /** Term by term bounds carry over to the sums. */
  lemma {:induction false} SumIsBounded(s: set<string>, w: Weights, f: map<string, real>, lo: real, hi: real)
    requires forall b :: b in s ==> b in w && b in f && Scaled(lo, f[b], hi, w[b])
    ensures Scaled(lo, Sum(s, f), hi, Sum(s, w))
  {
    if s != {} {
      var x := Pick(s);
      SumIsBounded(s - {x}, w, f, lo, hi);
      ScaledAdds(lo, f[x], Sum(s - {x}, f), hi, w[x], Sum(s - {x}, w));
    }
  }

  lemma TermIsBounded(w: Weights, scores: Scores, b: string, lo: real, hi: real)
    requires b in w && b in scores && w[b] > 0.0 && lo <= scores[b].normalized <= hi
    ensures b in Weighted(w, scores) && Scaled(lo, Weighted(w, scores)[b], hi, w[b])
  {
    ScaleIff(scores[b].normalized, lo, w[b]);
    ScaleIff(hi, scores[b].normalized, w[b]);
  }

  // ---------------------------------------------------------------- one dimension

  predicate NoZeroTime(w: Weights, scores: Scores) {
    forall b :: b in Present(w, scores) ==> scores[b].evaluatedAt != ZERO_TIME
  }

  predicate StaleAt(s: Score, now: int) {
    s.evaluatedAt != ZERO_TIME && now - s.evaluatedAt > STALENESS
  }

  /** The weighted mean of the present benchmarks. */
  ghost predicate IsMean(score: real, w: Weights, scores: Scores) {
    score * Sum(Present(w, scores), w) == Sum(Present(w, scores), Weighted(w, scores))
  }

  /** The greatest label no higher than the coverage and every present benchmark's own label. */
  ghost predicate IsMeet(confidence: string, w: Weights, scores: Scores) {
    var p := Present(w, scores);
    && Rank(confidence) <= Rank(Coverage(|p|, |w|))
    && (forall b :: b in p ==> Rank(confidence) <= Rank(scores[b].confidence))
    && (Rank(confidence) == Rank(Coverage(|p|, |w|)) || exists b :: b in p && Rank(confidence) == Rank(scores[b].confidence))
    && confidence == Label(Rank(confidence))
  }

  /** Told in the labels themselves: "high" needs every benchmark of the dimension, each with high evidence;
      "low" comes from one benchmark among several, or from evidence below medium. */
  ghost predicate IsLabelled(confidence: string, w: Weights, scores: Scores) {
    var n := |set b | b in w && b in scores|;
    && (confidence == "high" <==> n == |w| && forall b :: b in w && b in scores ==> scores[b].confidence == "high")
    && (confidence == "low" <==>
          (n == 1 && |w| > 1) || exists b :: b in w && b in scores && scores[b].confidence !in {"high", "medium"})
    && confidence in {"high", "medium", "low"}
  }

  lemma MeetIsLabelled(confidence: string, w: Weights, scores: Scores)
    requires Present(w, scores) != {} && IsMeet(confidence, w, scores)
    ensures IsLabelled(confidence, w, scores)
  {
    var p := Present(w, scores);
    assert (set b | b in w && b in scores) == p;
    assert p <= w.Keys;
    Folds.SubsetSize(p, w.Keys);
    CoverageIs(|p|, |w|);
    forall b | b in p
      ensures Rank(scores[b].confidence) == 2 <==> scores[b].confidence == "high"
      ensures Rank(scores[b].confidence) == 0 <==> scores[b].confidence !in {"high", "medium"}
    {
      RankIs(scores[b].confidence);
    }
    RankIs(confidence);
  }

  lemma RankIs(c: string)
    ensures (Rank(c) == 2 <==> c == "high") && (Rank(c) == 0 <==> c !in {"high", "medium"}) && Rank(c) <= 2
    ensures c == Label(Rank(c)) ==> c in {"high", "medium", "low"} && (Rank(c) == 0 <==> c == "low")
  {
    assert "low" != "high" && "low" != "medium" && "high" != "medium" by {
      assert |"low"| == 3 && |"high"| == 4 && |"medium"| == 6;
    }
  }

  lemma CoverageIs(n: nat, total: nat)
    requires 0 < n <= total
    ensures Rank(Coverage(n, total)) == if n == total then 2 else if n == 1 then 0 else 1
  {
    RankIs("high");
    RankIs("medium");
    RankIs("low");
    assert |"low"| == 3 && |"high"| == 4 && |"medium"| == 6;
  }

  ghost predicate SomePresentIsStale(w: Weights, scores: Scores, now: int) {
    exists b :: b in Present(w, scores) && StaleAt(scores[b], now)
  }

  /** What a capability row must say about its evidence. */
  ghost predicate Describes(r: Result, w: Weights, scores: Scores, now: int) {
    && Present(w, scores) != {} && r.count == |Present(w, scores)|
    && IsMean(r.score, w, scores) && IsMeet(r.confidence, w, scores)
    && (r.stale ==> SomePresentIsStale(w, scores, now))
    && (SomePresentIsStale(w, scores, now) && NoZeroTime(w, scores) ==> r.stale)
  }

  /** The loop variables after the benchmarks in done have been visited. */
  datatype Running = Running(weightedSum: real, totalWeight: real, oldest: nat, evidence: string, count: nat)

  /** The running meet of the evidence labels. */
  ghost predicate EvidenceOf(done: set<string>, scores: Scores, lowest: string)
    requires done <= scores.Keys
  {
    && (forall b :: b in done ==> Rank(lowest) <= Rank(scores[b].confidence))
    && (lowest == "high" || exists b :: b in done && Rank(lowest) == Rank(scores[b].confidence))
    && lowest == Label(Rank(lowest))
  }

  /** The running minimum, as long as no evaluation time is the zero time; a visited time or none at all
      in any case. */
  ghost predicate OldestOf(done: set<string>, scores: Scores, oldest: nat)
    requires done <= scores.Keys
  {
    && (oldest == ZERO_TIME || exists b :: b in done && oldest == scores[b].evaluatedAt)
    && ((forall b :: b in done ==> scores[b].evaluatedAt != ZERO_TIME) ==>
          (done != {} ==> oldest != ZERO_TIME) && forall b :: b in done ==> oldest <= scores[b].evaluatedAt)
  }

  /** The running sums and count. */
  ghost predicate SumsOf(done: set<string>, w: Weights, scores: Scores, a: Running) {
    a.totalWeight == Sum(done, w) && a.weightedSum == Sum(done, Weighted(w, scores)) && a.count == |done|
  }

  ghost predicate Accumulated(a: Running, done: set<string>, w: Weights, scores: Scores)
    requires done <= scores.Keys
  {
    SumsOf(done, w, scores, a) && EvidenceOf(done, scores, a.evidence) && OldestOf(done, scores, a.oldest)
  }

  function Older(oldest: nat, t: nat): nat {
    if oldest == ZERO_TIME || t < oldest then t else oldest
  }

  function Visit(a: Running, weight: real, s: Score): Running {
    Running(a.weightedSum + s.normalized * weight, a.totalWeight + weight, Older(a.oldest, s.evaluatedAt),
            LowerConfidence(a.evidence, s.confidence), a.count + 1)
  }

  lemma EvidenceStep(done: set<string>, scores: Scores, lowest: string, b: string)
    requires done <= scores.Keys && EvidenceOf(done, scores, lowest) && b in scores
    ensures EvidenceOf(done + {b}, scores, LowerConfidence(lowest, scores[b].confidence))
  {
    var l := LowerConfidence(lowest, scores[b].confidence);
    if lowest != "high" {
      var c :| c in done && Rank(lowest) == Rank(scores[c].confidence);
      assert c in done + {b};
    }
    assert b in done + {b};
  }

  lemma OldestStep(done: set<string>, scores: Scores, oldest: nat, b: string)
    requires done <= scores.Keys && OldestOf(done, scores, oldest) && b in scores
    ensures OldestOf(done + {b}, scores, Older(oldest, scores[b].evaluatedAt))
  {
    assert b in done + {b};
    assert forall c :: c in done ==> c in done + {b};
  }

  lemma SumsStep(a: Running, done: set<string>, w: Weights, scores: Scores, b: string)
    requires SumsOf(done, w, scores, a) && b in w && b in scores && b !in done
    ensures SumsOf(done + {b}, w, scores, Visit(a, w[b], scores[b]))
  {
    assert done + {b} - {b} == done;
    SumTakesOne(done + {b}, w, b);
    SumTakesOne(done + {b}, Weighted(w, scores), b);
  }

  lemma VisitStep(a: Running, done: set<string>, w: Weights, scores: Scores, b: string)
    requires done <= scores.Keys && Accumulated(a, done, w, scores) && b in w && b in scores && b !in done
    ensures Accumulated(Visit(a, w[b], scores[b]), done + {b}, w, scores)
  {
    SumsStep(a, done, w, scores, b);
    EvidenceStep(done, scores, a.evidence, b);
    OldestStep(done, scores, a.oldest, b);
  }

  function Conclude(a: Running, total: nat, now: int): Result
    requires a.totalWeight > 0.0
  {
    Result(a.weightedSum / a.totalWeight, LowerConfidence(Coverage(a.count, total), a.evidence), a.count,
           IsStale(a.oldest, now))
  }

  lemma MeetOfCoverage(evidence: string, w: Weights, scores: Scores)
    requires EvidenceOf(Present(w, scores), scores, evidence)
    ensures IsMeet(LowerConfidence(Coverage(|Present(w, scores)|, |w|), evidence), w, scores)
  {
  }

  predicate IsStale(oldest: nat, now: int) {
    oldest != ZERO_TIME && now - oldest > STALENESS
  }

  lemma OldestDecides(oldest: nat, w: Weights, scores: Scores, now: int)
    requires Present(w, scores) != {} && OldestOf(Present(w, scores), scores, oldest)
    ensures IsStale(oldest, now) ==> SomePresentIsStale(w, scores, now)
    ensures SomePresentIsStale(w, scores, now) && NoZeroTime(w, scores) ==> IsStale(oldest, now)
  {
  }

  lemma ConcludeDescribes(a: Running, w: Weights, scores: Scores, now: int)
    requires Positive(w) && Present(w, scores) != {} && Accumulated(a, Present(w, scores), w, scores)
    ensures a.totalWeight > 0.0 && Describes(Conclude(a, |w|, now), w, scores, now)
  {
    SumIsPositive(Present(w, scores), w);
    MeetOfCoverage(a.evidence, w, scores);
    assert a.weightedSum / a.totalWeight * a.totalWeight == a.weightedSum;
    OldestDecides(a.oldest, w, scores, now);
  }

  const NOTHING_YET: Running := Running(0.0, 0.0, ZERO_TIME, "high", 0)

  /** The loop variables after ranging over the names in this order. */
  function Ranged(w: Weights, scores: Scores, order: seq<string>): Running {
    if order == [] then NOTHING_YET
    else
      var a, b := Ranged(w, scores, order[..|order| - 1]), order[|order| - 1];
      if b in w && b in scores then Visit(a, w[b], scores[b]) else a
  }

  function Visited(w: Weights, scores: Scores, order: seq<string>): (done: set<string>)
    ensures done <= scores.Keys
  {
    set b | b in order && b in w && b in scores
  }

  lemma {:induction false} RangedAccumulates(w: Weights, scores: Scores, order: seq<string>)
    requires forall i, j :: 0 <= i < j < |order| ==> order[i] != order[j]
    ensures Accumulated(Ranged(w, scores, order), Visited(w, scores, order), w, scores)
  {
    if order != [] {
      var n := |order| - 1;
      RangedAccumulates(w, scores, order[..n]);
      assert order == order[..n] + [order[n]];
      var done := Visited(w, scores, order[..n]);
      if order[n] in w && order[n] in scores {
        VisitStep(Ranged(w, scores, order[..n]), done, w, scores, order[n]);
        assert Visited(w, scores, order) == done + {order[n]};
      } else {
        assert Visited(w, scores, order) == done;
      }
    } else {
      assert Visited(w, scores, order) == {};
    }
  }

  ghost predicate IsRange(order: seq<string>, w: Weights) {
    Folds.Enumerates(order, w.Keys)
  }

  lemma RangeAccumulates(w: Weights, scores: Scores, order: seq<string>)
    requires IsRange(order, w)
    ensures Accumulated(Ranged(w, scores, order), Present(w, scores), w, scores)
  {
    RangedAccumulates(w, scores, order);
    assert Visited(w, scores, order) == Present(w, scores);
  }

  /** What Aggregate answers when it ranges over the weights in this order. */
  ghost function Row(w: Weights, scores: Scores, now: int, order: seq<string>): Result
    requires Positive(w) && Present(w, scores) != {} && IsRange(order, w)
  {
    RangeAccumulates(w, scores, order);
    SumIsPositive(Present(w, scores), w);
    Conclude(Ranged(w, scores, order), |w|, now)
  }

  lemma RowDescribes(w: Weights, scores: Scores, now: int, order: seq<string>)
    requires Positive(w) && Present(w, scores) != {} && IsRange(order, w)
    ensures Describes(Row(w, scores, now, order), w, scores, now)
  {
    RangeAccumulates(w, scores, order);
    ConcludeDescribes(Ranged(w, scores, order), w, scores, now);
  }

  /** Evaluated, and more than ninety days ago. */
  predicate NinetyDaysOld(s: Score, now: int) {
    s.evaluatedAt > 0 && now > s.evaluatedAt + 90 * 24 * 3600 * 1000000000
  }

  /** The loop of Aggregate, which ranges over the weight map in some order. */
  method Accumulate(w: Weights, scores: Scores) returns (a: Running, ghost order: seq<string>)
    ensures IsRange(order, w) && a == Ranged(w, scores, order)
  {
    var weightedSum, totalWeight, oldest, evidence, count := 0.0, 0.0, ZERO_TIME, "high", 0;
    order := [];
    var todo := w.Keys;
    while todo != {}
      invariant todo <= w.Keys && Folds.Enumerates(order, w.Keys - todo)
      invariant Ranged(w, scores, order) == Running(weightedSum, totalWeight, oldest, evidence, count)
      decreases todo
    {
      var b :| b in todo;
      Folds.EnumerateOneMore(order, w.Keys - todo, b);
      assert w.Keys - todo + {b} == w.Keys - (todo - {b});
      RangedOneMore(w, scores, order, b);
      todo, order := todo - {b}, order + [b];
      if b in scores {
        var entry := scores[b];
        weightedSum, totalWeight, count := weightedSum + entry.normalized * w[b], totalWeight + w[b], count + 1;
        evidence := LowerConfidence(evidence, entry.confidence);
        if oldest == ZERO_TIME || entry.evaluatedAt < oldest {
          oldest := entry.evaluatedAt;
        }
      }
    }
    assert w.Keys - todo == w.Keys;
    a := Running(weightedSum, totalWeight, oldest, evidence, count);
  }

  lemma RangedOneMore(w: Weights, scores: Scores, order: seq<string>, b: string)
    ensures Ranged(w, scores, order + [b]) ==
            if b in w && b in scores then Visit(Ranged(w, scores, order), w[b], scores[b]) else Ranged(w, scores, order)
  {
    assert (order + [b])[..|order|] == order;
  }

  lemma RangeIsUsable(w: Weights, scores: Scores, order: seq<string>)
    requires Positive(w) && IsRange(order, w)
    ensures Ranged(w, scores, order).count == 0 <==> Present(w, scores) == {}
    ensures Present(w, scores) != {} ==> Ranged(w, scores, order).totalWeight > 0.0
  {
    RangeAccumulates(w, scores, order);
    if Present(w, scores) != {} {
      SumIsPositive(Present(w, scores), w);
    }
  }

  /** Aggregate after its loop. */
  method Finish(a: Running, total: nat, now: int) returns (r: Option<Result>)
    requires a.count > 0 ==> a.totalWeight > 0.0
    ensures r == if a.count == 0 then None else Some(Conclude(a, total, now))
  {
    if a.count == 0 {
      return None;
    }
    var stale := a.oldest != ZERO_TIME && now - a.oldest > STALENESS;
    var confidence := "low";
    if a.count >= 2 {
      confidence := "medium";
    }
    if a.count >= total {
      confidence := "high";
    }
    r := Some(Result(a.weightedSum / a.totalWeight, LowerConfidence(confidence, a.evidence), a.count, stale));
  }

  method Aggregate(w: Weights, scores: Scores, now: int) returns (r: Option<Result>, ghost order: seq<string>)
    requires Positive(w)
    ensures r == None <==> Present(w, scores) == {}
    ensures IsRange(order, w) && (r.Some? ==> r.value == Row(w, scores, now, order))
    ensures r.Some? ==> Describes(r.value, w, scores, now)
    ensures r.Some? ==> IsLabelled(r.value.confidence, w, scores)
    ensures r.Some? ==> r.value.count == |set b | b in w && b in scores|
    ensures r.Some? && r.value.stale ==> exists b :: b in w && b in scores && NinetyDaysOld(scores[b], now)
    ensures r.Some? && (forall b :: b in w && b in scores ==> scores[b].evaluatedAt > 0) ==>
              forall b :: b in w && b in scores && NinetyDaysOld(scores[b], now) ==> r.value.stale
  {
    var a: Running;
    a, order := Accumulate(w, scores);
    RangeIsUsable(w, scores, order);
    r := Finish(a, |w|, now);
    if r.Some? {
      RowDescribes(w, scores, now, order);
      MeetIsLabelled(r.value.confidence, w, scores);
      assert forall b :: b in Present(w, scores) ==> (StaleAt(scores[b], now) <==> NinetyDaysOld(scores[b], now));
      assert (set b | b in w && b in scores) == Present(w, scores);
    }
  }

  /** The labels of the evidence for a dimension. */
  function EvidenceLabels(w: Weights, scores: Scores): set<string> {
    set b | b in w && b in scores :: scores[b].confidence
  }

  /** More scores whose labels were already there never lower the confidence. */
  lemma MoreScoresNeverLower(r: Result, r': Result, w: Weights, scores: Scores, scores': Scores, now: int)
    requires Describes(r, w, scores, now) && Describes(r', w, scores', now)
    requires r.count <= r'.count && EvidenceLabels(w, scores') <= EvidenceLabels(w, scores)
    ensures r.confidence == "high" ==> r'.confidence == "high"
    ensures r'.confidence == "low" ==> r.confidence == "low"
  {
    MeetIsLabelled(r.confidence, w, scores);
    MeetIsLabelled(r'.confidence, w, scores');
    assert (set b | b in w && b in scores) == Present(w, scores) && Present(w, scores) <= w.Keys;
    assert (set b | b in w && b in scores') == Present(w, scores') && Present(w, scores') <= w.Keys;
    Folds.SubsetSize(Present(w, scores'), w.Keys);
    forall b | b in w && b in scores'
      ensures exists c :: c in w && c in scores && scores[c].confidence == scores'[b].confidence
    {
      assert scores'[b].confidence in EvidenceLabels(w, scores');
    }
  }

  /** Two benchmarks count by their weights. */
  lemma MeanOfTwo(score: real, w: Weights, scores: Scores, a: string, b: string)
    requires IsMean(score, w, scores) && Present(w, scores) == {a, b} && a != b
    ensures score * (w[a] + w[b]) == scores[a].normalized * w[a] + scores[b].normalized * w[b]
  {
    assert a in Present(w, scores) && b in Present(w, scores);
    TwoTerms(w, a, b);
    TwoTerms(Weighted(w, scores), a, b);
  }

  lemma TwoTerms(f: map<string, real>, a: string, b: string)
    requires a in f && b in f && a != b
    ensures Sum({a, b}, f) == f[a] + f[b]
  {
    SumTakesOne({a, b}, f, a);
    assert {a, b} - {a} == {b};
    SumTakesOne({b}, f, b);
    assert {b} - {b} == {};
  }

  /** A capability score lies between the lowest and highest of its active benchmarks. */
  lemma ScoreIsBetween(r: Result, w: Weights, scores: Scores, now: int, lo: real, hi: real)
    requires Positive(w) && Describes(r, w, scores, now)
    requires forall b :: b in Present(w, scores) ==> lo <= scores[b].normalized <= hi
    ensures lo <= r.score <= hi
  {
    MeanIsBetween(r.score, w, scores, lo, hi);
  }

  lemma MeanIsBetween(score: real, w: Weights, scores: Scores, lo: real, hi: real)
    requires Positive(w) && Present(w, scores) != {} && IsMean(score, w, scores)
    requires forall b :: b in Present(w, scores) ==> lo <= scores[b].normalized <= hi
    ensures lo <= score <= hi
  {
    SumIsPositive(Present(w, scores), w);
    SumsAreBounded(w, scores, lo, hi);
    Unscale(lo, score, hi, Sum(Present(w, scores), w), Sum(Present(w, scores), Weighted(w, scores)));
  }

  lemma SumsAreBounded(w: Weights, scores: Scores, lo: real, hi: real)
    requires Positive(w) && forall b :: b in Present(w, scores) ==> lo <= scores[b].normalized <= hi
    ensures var p := Present(w, scores);
            Scaled(lo, Sum(p, Weighted(w, scores)), hi, Sum(p, w))
  {
    var p, f := Present(w, scores), Weighted(w, scores);
    forall b | b in p
      ensures b in w && b in f && Scaled(lo, f[b], hi, w[b])
    {
      TermIsBounded(w, scores, b, lo, hi);
    }
    SumIsBounded(p, w, f, lo, hi);
  }

  lemma Unscale(lo: real, x: real, hi: real, weight: real, product: real)
    requires x * weight == product && Scaled(lo, product, hi, weight) && weight > 0.0
    ensures lo <= x <= hi
  {
    ScaleIff(x, lo, weight);
    ScaleIff(hi, x, weight);
  }

  /** The exact condition under which the order of ranging does not show. */
  ghost predicate OrderFree(w: Weights, scores: Scores, now: int) {
    NoZeroTime(w, scores) || !SomePresentIsStale(w, scores, now)
  }

  /** What a row must say then determines it. */
  lemma RowIsDetermined(r: Result, r': Result, w: Weights, scores: Scores, now: int)
    requires Positive(w) && OrderFree(w, scores, now)
    requires Describes(r, w, scores, now) && Describes(r', w, scores, now)
    ensures r == r'
  {
    SumIsPositive(Present(w, scores), w);
    Unscale(r.score, r'.score, r.score, Sum(Present(w, scores), w), Sum(Present(w, scores), Weighted(w, scores)));
  }

  // ---------------------------------------------------------------- the order shows

  /** The last benchmark visited decides against what the loop held before it. */
  lemma LastVisited(w: Weights, scores: Scores, now: int, order: seq<string>, b: string)
    requires Positive(w) && b in Present(w, scores) && IsRange(order + [b], w)
    ensures Row(w, scores, now, order + [b]).stale <==>
            IsStale(Older(Ranged(w, scores, order).oldest, scores[b].evaluatedAt), now)
  {
    RangedOneMore(w, scores, order, b);
  }

  /** A stale benchmark visited last shows; a zero time visited last hides everything. */
  lemma LastDecides(w: Weights, scores: Scores, now: int, order: seq<string>, b: string)
    requires Positive(w) && b in Present(w, scores) && IsRange(order + [b], w)
    ensures StaleAt(scores[b], now) ==> Row(w, scores, now, order + [b]).stale
    ensures scores[b].evaluatedAt == ZERO_TIME ==> !Row(w, scores, now, order + [b]).stale
  {
    LastVisited(w, scores, now, order, b);
  }

  /** The map can be ranged over with b last. */
  lemma RangeWithLast(w: Weights, b: string) returns (order: seq<string>)
    requires b in w
    ensures IsRange(order + [b], w)
  {
    order := Folds.SomeOrder(w.Keys - {b});
    Folds.EnumerateOneMore(order, w.Keys - {b}, b);
    assert w.Keys - {b} + {b} == w.Keys;
  }

  lemma BothOrders(w: Weights, scores: Scores, now: int) returns (o1: seq<string>, o2: seq<string>)
    requires Positive(w) && Present(w, scores) != {} && !OrderFree(w, scores, now)
    ensures IsRange(o1, w) && IsRange(o2, w) && Row(w, scores, now, o1).stale && !Row(w, scores, now, o2).stale
  {
    var z :| z in Present(w, scores) && scores[z].evaluatedAt == ZERO_TIME;
    var t :| t in Present(w, scores) && StaleAt(scores[t], now);
    o1 := RangeWithLast(w, t);
    LastDecides(w, scores, now, o1, t);
    o2 := RangeWithLast(w, z);
    LastDecides(w, scores, now, o2, z);
    o1, o2 := o1 + [t], o2 + [z];
  }

  lemma DisagreementNeedsZero(w: Weights, scores: Scores, now: int, o1: seq<string>, o2: seq<string>)
    requires Positive(w) && Present(w, scores) != {} && IsRange(o1, w) && IsRange(o2, w)
    requires Row(w, scores, now, o1).stale && !Row(w, scores, now, o2).stale
    ensures !OrderFree(w, scores, now)
  {
    RowDescribes(w, scores, now, o1);
    RowDescribes(w, scores, now, o2);
  }

  /** Aggregate can call the same evidence fresh and stale, depending on the order in which it ranges
      over the weights, if and only if some of it has the zero time and some is stale. */
  lemma FreshnessOrderFreeIff(w: Weights, scores: Scores, now: int)
    requires Positive(w) && Present(w, scores) != {}
    ensures !OrderFree(w, scores, now) <==>
            exists o1, o2 :: IsRange(o1, w) && IsRange(o2, w) && Row(w, scores, now, o1).stale && !Row(w, scores, now, o2).stale
  {
    if !OrderFree(w, scores, now) {
      var o1, o2 := BothOrders(w, scores, now);
    }
    forall o1, o2 | IsRange(o1, w) && IsRange(o2, w) && Row(w, scores, now, o1).stale && !Row(w, scores, now, o2).stale
      ensures !OrderFree(w, scores, now)
    {
      DisagreementNeedsZero(w, scores, now, o1, o2);
    }
  }

  // ---------------------------------------------------------------- replacing a model's rows

  type Dimensions = map<string, Weights>

  type Rows = map<string, Result>

  /** The dimensions that get a row. */
  function WithData(dims: Dimensions, scores: Scores): set<string> {
    set d | d in dims && Present(dims[d], scores) != {}
  }

  /** The rows are exactly those of the dimensions with data. */
  ghost predicate Replaced(rows: Rows, dims: Dimensions, scores: Scores, now: int) {
    && rows.Keys == WithData(dims, scores)
    && (forall d :: d in rows ==> Describes(rows[d], dims[d], scores, now))
  }

  ghost predicate Renewed(rows: Rows, active: set<string>, dims: Dimensions, scores: Scores, now: int) {
    forall d :: d in active ==> d in rows && d in dims && Describes(rows[d], dims[d], scores, now)
  }

  /** The dimensions outside todo that have data are upserted and listed. */
  ghost predicate UnderWay(rows: Rows, active: set<string>, todo: set<string>, dims: Dimensions, scores: Scores, now: int) {
    active == WithData(dims, scores) - todo && Renewed(rows, active, dims, scores, now)
  }

  lemma RenewOne(rows: Rows, active: set<string>, todo: set<string>, dims: Dimensions, scores: Scores, now: int,
                 d: string, r: Option<Result>)
    requires UnderWay(rows, active, todo, dims, scores, now) && d in todo && d in dims
    requires r == None <==> Present(dims[d], scores) == {}
    requires r.Some? ==> Describes(r.value, dims[d], scores, now)
    ensures if r.Some? then UnderWay(rows[d := r.value], active + {d}, todo - {d}, dims, scores, now)
            else UnderWay(rows, active, todo - {d}, dims, scores, now)
  {
  }

  /** DELETE ... WHERE NOT (dimension = ANY(active)). */
  function Restricted(rows: Rows, active: set<string>): Rows {
    map d | d in rows && d in active :: rows[d]
  }

  lemma DeleteOthers(rows: Rows, active: set<string>, dims: Dimensions, scores: Scores, now: int)
    requires UnderWay(rows, active, {}, dims, scores, now)
    ensures Replaced(Restricted(rows, active), dims, scores, now)
  {
    assert Restricted(rows, active).Keys == active;
  }

  lemma ReplacedHaveData(rows: Rows, dims: Dimensions, scores: Scores, now: int)
    requires Replaced(rows, dims, scores, now)
    ensures forall d :: d in rows <==> d in dims && exists b :: b in dims[d] && b in scores
  {
    forall d | d in dims
      ensures d in rows <==> exists b :: b in dims[d] && b in scores
    {
      if b :| b in dims[d] && b in scores {
        assert b in Present(dims[d], scores);
      } else {
        assert Present(dims[d], scores) == {};
      }
    }
  }

  type Active = map<string, Evidence.Row>

  /** Active scored evidence of benchmarks the catalogue knows. */
  function Usable(active: Active, names: map<string, string>): set<string> {
    set b | b in active && b in names && active[b].normalized.Some?
  }

  function ScoreOf(e: Evidence.Row): Score
    requires e.normalized.Some?
  {
    Score(e.normalized.value, e.evaluatedAt, e.confidence)
  }

  /** scores holds, by benchmark name, the evidence of the benchmarks in done and nothing else. */
  ghost predicate Named(scores: Scores, active: Active, names: map<string, string>, done: set<string>)
    requires done <= Usable(active, names)
  {
    && (forall b :: b in done ==> names[b] in scores && scores[names[b]] == ScoreOf(active[b]))
    && (forall n :: n in scores ==> exists b :: b in done && names[b] == n)
  }

  lemma NameOne(scores: Scores, active: Active, names: map<string, string>, done: set<string>, b: string)
    requires UniqueNames(names) && done <= Usable(active, names) && b in Usable(active, names)
    requires Named(scores, active, names, done)
    ensures Named(scores[names[b] := ScoreOf(active[b])], active, names, done + {b})
  {
    assert b in done + {b};
    assert forall c :: c in done ==> c in done + {b};
  }

  lemma NamedIsDetermined(s: Scores, s': Scores, active: Active, names: map<string, string>)
    requires Named(s, active, names, Usable(active, names)) && Named(s', active, names, Usable(active, names))
    ensures s == s'
  {
  }

  ghost predicate UniqueNames(names: map<string, string>) {
    forall a, b :: a in names && b in names && names[a] == names[b] ==> a == b
  }

  class CapabilityStore {
    var rows: Rows

    constructor (rows: Rows)
      ensures this.rows == rows
    {
      this.rows := rows;
    }

    method ScoreByName(active: Active, names: map<string, string>) returns (scores: Scores)
      requires UniqueNames(names)
      ensures Named(scores, active, names, Usable(active, names))
      ensures forall n :: n in scores <==> exists b :: b in active && b in names && names[b] == n && active[b].normalized.Some?
      ensures forall b :: b in active && b in names && active[b].normalized.Some? ==>
                && scores[names[b]].normalized == active[b].normalized.value
                && scores[names[b]].evaluatedAt == active[b].evaluatedAt && scores[names[b]].confidence == active[b].confidence
    {
      scores := map[];
      var todo := active.Keys;
      while todo != {}
        invariant todo <= active.Keys
        invariant Named(scores, active, names, Usable(active, names) - todo)
        decreases todo
      {
        var b :| b in todo;
        ghost var done := Usable(active, names) - todo;
        todo := todo - {b};
        if active[b].normalized.Some? && b in names {
          NameOne(scores, active, names, done, b);
          scores := scores[names[b] := ScoreOf(active[b])];
          assert Usable(active, names) - todo == done + {b};
        } else {
          assert Usable(active, names) - todo == done;
        }
      }
      assert Usable(active, names) - todo == Usable(active, names);
      assert forall b :: b in Usable(active, names) <==> b in active && b in names && active[b].normalized.Some?;
    }

    /** The transaction of computeCapabilityScoresWithBenchmarks: upsert every dimension with data, then
        delete every other row. A failure anywhere rolls the whole replacement back. */
    method Recompute(dims: Dimensions, scores: Scores, now: int, fail: bool)
      requires forall d :: d in dims ==> Positive(dims[d])
      modifies this
      ensures if fail then rows == old(rows) else Replaced(rows, dims, scores, now)
      ensures !fail ==> forall d :: d in rows <==> d in dims && exists b :: b in dims[d] && b in scores
    {
      var inside, active, todo := rows, {}, dims.Keys;
      while todo != {}
        invariant todo <= dims.Keys && UnderWay(inside, active, todo, dims, scores, now) && rows == old(rows)
        decreases todo
      {
        var d :| d in todo;
        var r, _ := Aggregate(dims[d], scores, now);
        RenewOne(inside, active, todo, dims, scores, now, d, r);
        todo := todo - {d};
        if r.Some? {
          inside, active := inside[d := r.value], active + {d};
        }
      }
      DeleteOthers(inside, active, dims, scores, now);
      if !fail {
        rows := Restricted(inside, active);
        ReplacedHaveData(rows, dims, scores, now);
      }
    }
  }

  lemma ReplacedIsDetermined(ra: Rows, rb: Rows, dims: Dimensions, scores: Scores, now: int)
    requires forall d :: d in dims ==> Positive(dims[d]) && OrderFree(dims[d], scores, now)
    requires Replaced(ra, dims, scores, now) && Replaced(rb, dims, scores, now)
    ensures ra == rb
  {
    forall d | d in ra
      ensures d in rb && ra[d] == rb[d]
    {
      RowIsDetermined(ra[d], rb[d], dims[d], scores, now);
    }
  }

  /** The active evidence after a series of upserts. */
  ghost function ActiveAfter(t: Evidence.Table, es: seq<Evidence.Row>): Active {
    Evidence.Active(Evidence.UpsertAll(t, es))
  }

  /** Recomputed rows depend only on the set of observations behind them: not on the order or
      repetition of the upserts, the previous rows, or any map iteration order. */
  lemma RowsDependOnObservationsOnly(t: Evidence.Table, a: seq<Evidence.Row>, b: seq<Evidence.Row>, names: map<string, string>,
                                     sa: Scores, sb: Scores, dims: Dimensions, now: int, ra: Rows, rb: Rows)
    requires Evidence.WellKeyed(t) && Evidence.Consistent(Evidence.Observed(t, a))
    requires forall e :: e in a <==> e in b
    requires Named(sa, ActiveAfter(t, a), names, Usable(ActiveAfter(t, a), names))
    requires Named(sb, ActiveAfter(t, b), names, Usable(ActiveAfter(t, b), names))
    requires forall d :: d in dims ==> Positive(dims[d]) && OrderFree(dims[d], sa, now)
    requires Replaced(ra, dims, sa, now) && Replaced(rb, dims, sb, now)
    ensures ra == rb
  {
    Evidence.OrderAndRepetitionIrrelevant(t, a, b);
    NamedIsDetermined(sa, sb, ActiveAfter(t, a), names);
    ReplacedIsDetermined(ra, rb, dims, sa, now);
  }
}
