/** Whole runs of the price tables: history and current prices agree, and the review queue
    is a one-way machine (internal/reconciler/store.go, internal/review/store.go). */
module HistoryTruth {
  import opened Prices
  import opened PriceStore

  /** One committed statement or transaction. A failed one leaves no step. */
  datatype Step =
    | PublishStep(key: RowKey, input: real, output: real, confidence: Confidence, underlying: string, now: int)
    | FlagStep(model: int, a: int, b: int, field: PriceField, valueA: real, valueB: real, delta: real, now: int)
    | ApproveStep(id: int, now: int)
    | RejectStep(id: int, now: int)
    | VerifyStep(source: string, slugs: seq<string>, now: int)
    | EnsureStep(models: map<string, int>, now: int)

  /** Publishes are guarded by the reconciler; approvals and rejections by the status filter. */
  predicate Enabled(db: Db, s: Step) {
    match s
    case PublishStep(_, i, o, _, _, _) => i > 0.0 && o > 0.0 && Fits(i) && Fits(o)
    case FlagStep(_, _, _, _, a, b, _, _) => Fits(a) && Fits(b)
    case ApproveStep(id, _) => IsPending(db, id)
    case RejectStep(id, _) => IsPending(db, id)
    case VerifyStep(_, _, _) => true
    case EnsureStep(_, _) => true
  }

  function Apply(db: Db, s: Step): Db
    requires Enabled(db, s)
  {
    match s
    case PublishStep(k, i, o, c, u, now) => Publish(db, k, i, o, c, u, now)
    case FlagStep(m, a, b, f, va, vb, d, _) => Flag(db, m, a, b, f, va, vb, d)
    case ApproveStep(id, now) => Approve(db, id, now)
    case RejectStep(id, now) => Reject(db, id, now)
    case VerifyStep(src, slugs, now) => Verify(db, src, slugs, now)
    case EnsureStep(models, _) => db.(models := models)
  }

  /** dbs is the run of the tables under steps. */
  predicate IsRun(dbs: seq<Db>, steps: seq<Step>) {
    && |dbs| == |steps| + 1
    && forall i :: 0 <= i < |steps| ==> Enabled(dbs[i], steps[i]) && dbs[i + 1] == Apply(dbs[i], steps[i])
  }

  /** The tables after the steps; a step that is not enabled changes nothing. */
  function Replay(db: Db, steps: seq<Step>): Db {
    if steps == [] then db
    else
      var before, s := Replay(db, steps[..|steps| - 1]), steps[|steps| - 1];
      if Enabled(before, s) then Apply(before, s) else before
  }

  /** The most recently appended history row of a key. */
  function LastEntry(h: seq<HistoryRow>, k: RowKey): Option<HistoryRow> {
    if h == [] then None
    else if h[|h| - 1].key == k then Some(h[|h| - 1])
    else LastEntry(h[..|h| - 1], k)
  }

  predicate Mirrors(r: PriceRow, h: HistoryRow) {
    r.input == h.input && r.output == h.output && r.confirmedAt == h.confirmedAt
  }

  predicate TruthAt(db: Db, k: RowKey) {
    var last := LastEntry(db.history, k);
    && (k in db.prices <==> last.Some?)
    && (k in db.prices ==> Mirrors(db.prices[k], last.value))
  }

  /** A current row exists exactly when the key has history, and equals its last entry. */
  ghost predicate Truth(db: Db) {
    forall k :: TruthAt(db, k)
  }

  predicate TimeOrdered(h: seq<HistoryRow>) {
    forall i, j :: 0 <= i < j < |h| ==> h[i].confirmedAt < h[j].confirmedAt
  }

  /** The step stamps a history row with its time. */
  predicate Stamps(s: Step) {
    s.PublishStep? || s.ApproveStep?
  }

  /** Every stamp is later than all history before it. */
  predicate StrictClock(h: seq<HistoryRow>, steps: seq<Step>) {
    && (forall i, j :: 0 <= i < |h| && 0 <= j < |steps| && Stamps(steps[j]) ==> h[i].confirmedAt < steps[j].now)
    && (forall i, j :: 0 <= i < j < |steps| && Stamps(steps[i]) && Stamps(steps[j]) ==> steps[i].now < steps[j].now)
  }

  /** One of the first n steps stamped the row. */
  predicate IsStamped(row: HistoryRow, steps: seq<Step>, n: nat) {
    n <= |steps| && exists j :: 0 <= j < n && Stamps(steps[j]) && row.confirmedAt == steps[j].now
  }

  /** History that a run has appended carries the stamps of its steps. */
  predicate Stamped(h: seq<HistoryRow>, steps: seq<Step>, n: nat) {
    n <= |steps| && forall i :: 0 <= i < |h| ==> IsStamped(h[i], steps, n)
  }

  lemma StampedOnce(row: HistoryRow, steps: seq<Step>, n: nat)
    requires n < |steps| && IsStamped(row, steps, n)
    ensures IsStamped(row, steps, n + 1)
  {
    var j :| 0 <= j < n && Stamps(steps[j]) && row.confirmedAt == steps[j].now;
    assert j < n + 1;
  }

  lemma StampedIsEarlier(h0: seq<HistoryRow>, h: seq<HistoryRow>, steps: seq<Step>, n: nat)
    requires n < |steps| && h0 <= h && StrictClock(h0, steps) && Stamped(h[|h0|..], steps, n)
    ensures Stamps(steps[n]) ==> forall i :: 0 <= i < |h| ==> h[i].confirmedAt < steps[n].now
    ensures StrictClock(h, [steps[n]])
  {
    forall i | 0 <= i < |h| && Stamps(steps[n])
      ensures h[i].confirmedAt < steps[n].now
    {
      if i < |h0| {
        assert h0[i] == h[i];
      } else {
        assert h[|h0|..][i - |h0|] == h[i];
      }
    }
  }

  lemma StampOneMore(h: seq<HistoryRow>, row: HistoryRow, steps: seq<Step>, n: nat)
    requires n < |steps| && Stamped(h, steps, n) && Stamps(steps[n]) && row.confirmedAt == steps[n].now
    ensures Stamped(h + [row], steps, n + 1)
  {
    StampedByMore(h, steps, n);
    assert IsStamped(row, steps, n + 1);
  }

  lemma StampedByMore(h: seq<HistoryRow>, steps: seq<Step>, n: nat)
    requires n < |steps| && Stamped(h, steps, n)
    ensures Stamped(h, steps, n + 1)
  {
    forall i | 0 <= i < |h|
      ensures IsStamped(h[i], steps, n + 1)
    {
      StampedOnce(h[i], steps, n);
    }
  }

  lemma LastOfAppended(h: seq<HistoryRow>, row: HistoryRow, k: RowKey)
    ensures LastEntry(h + [row], k) == if row.key == k then Some(row) else LastEntry(h, k)
  {
    assert (h + [row])[..|h|] == h;
  }

  /** Writing a price row together with its history row keeps the two in agreement exactly
      when the history insert is not suppressed, or the suppressed row says the same. */
  lemma WriteKeepsTruthIff(db: Db, db': Db, row: HistoryRow)
    requires Truth(db)
    requires db'.history == Append(db.history, row)
    requires row.key in db'.prices && Mirrors(db'.prices[row.key], row)
    requires forall k :: k != row.key ==> (k in db'.prices <==> k in db.prices)
    requires forall k :: k != row.key && k in db.prices ==> db'.prices[k] == db.prices[k]
    ensures Truth(db') <==>
            !Recorded(db.history, row.key, row.confirmedAt) ||
            (row.key in db.prices && Mirrors(db.prices[row.key], row))
  {
    if Recorded(db.history, row.key, row.confirmedAt) {
      forall k
        ensures k != row.key ==> TruthAt(db', k)
      {
        assert TruthAt(db, k);
      }
      assert TruthAt(db, row.key);
      assert Truth(db') <==> TruthAt(db', row.key);
    } else {
      forall k
        ensures TruthAt(db', k)
      {
        assert TruthAt(db, k);
        LastOfAppended(db.history, row, k);
      }
    }
  }

  /** Two publishes with the same timestamp and different prices break the agreement. */
  lemma SameTimestampBreaksTruth()
    ensures var db := Db(map[], map[], map[], [], []);
            var db1 := Publish(db, RowKey(1, 1), 1.0, 1.0, High, "", 7);
            var db2 := Publish(db1, RowKey(1, 1), 2.0, 1.0, High, "", 7);
            Truth(db1) && !Truth(db2) && |db2.history| == 1
  {
    var db := Db(map[], map[], map[], [], []);
    var k := RowKey(1, 1);
    var db1 := Publish(db, k, 1.0, 1.0, High, "", 7);
    var db2 := Publish(db1, k, 2.0, 1.0, High, "", 7);
    assert ToSteps(1.0) == 10000000000 && ToSteps(2.0) == 20000000000;
    assert Truth(db);
    WriteKeepsTruthIff(db, db1, HistoryRow(k, ToSteps(1.0), ToSteps(1.0), 7, Some(""), ByReconciler));
    assert db1.history[0].key == k;
    WriteKeepsTruthIff(db1, db2, HistoryRow(k, ToSteps(2.0), ToSteps(1.0), 7, Some(""), ByReconciler));
  }

  lemma StepKeepsTruth(db: Db, s: Step)
    requires Truth(db) && TimeOrdered(db.history) && StrictClock(db.history, [s])
    requires Enabled(db, s)
    ensures var db' := Apply(db, s);
            && Truth(db') && TimeOrdered(db'.history)
            && (if Stamps(s) then exists row :: db'.history == db.history + [row] && row.confirmedAt == s.now
                else db'.history == db.history)
  {
    var db' := Apply(db, s);
    assert [s][0] == s;
    match s
    case PublishStep(k, i, o, c, u, now) =>
      var row := HistoryRow(k, ToSteps(i), ToSteps(o), now, Some(u), ByReconciler);
      assert db'.history == Append(db.history, row) == db.history + [row];
      WriteKeepsTruthIff(db, db', row);
    case ApproveStep(id, now) =>
      var row := db'.history[|db'.history| - 1];
      assert db'.history == Append(db.history, row) == db.history + [row];
      WriteKeepsTruthIff(db, db', row);
    case FlagStep(_, _, _, _, _, _, _, _) =>
      assert forall k :: TruthAt(db, k) ==> TruthAt(db', k);
    case RejectStep(_, _) =>
      assert forall k :: TruthAt(db, k) ==> TruthAt(db', k);
    case EnsureStep(_, _) =>
      assert forall k :: TruthAt(db, k) ==> TruthAt(db', k);
    case VerifyStep(_, _, _) =>
      forall k
        ensures TruthAt(db', k)
      {
        assert TruthAt(db, k);
      }
  }

  lemma RunStepKeepsTruth(h0: seq<HistoryRow>, db: Db, steps: seq<Step>, n: nat)
    requires n < |steps| && Enabled(db, steps[n]) && Truth(db) && TimeOrdered(db.history)
    requires h0 <= db.history && StrictClock(h0, steps) && Stamped(db.history[|h0|..], steps, n)
    ensures var db' := Apply(db, steps[n]);
            && Truth(db') && TimeOrdered(db'.history) && db.history <= db'.history
            && Stamped(db'.history[|h0|..], steps, n + 1)
  {
    var before, after := db.history, Apply(db, steps[n]).history;
    StampedIsEarlier(h0, before, steps, n);
    StepKeepsTruth(db, steps[n]);
    if Stamps(steps[n]) {
      var row :| after == before + [row] && row.confirmedAt == steps[n].now;
      assert after[|h0|..] == before[|h0|..] + [row];
      StampOneMore(before[|h0|..], row, steps, n);
    } else {
      StampedByMore(before[|h0|..], steps, n);
    }
  }

  /** Under a strictly increasing clock, in every state of every run the current prices are the
      last history entries, and history only grows at its end. */
  lemma {:induction false} HistoryIsTruth(dbs: seq<Db>, steps: seq<Step>, n: nat)
    requires IsRun(dbs, steps) && n <= |steps|
    requires Truth(dbs[0]) && TimeOrdered(dbs[0].history) && StrictClock(dbs[0].history, steps)
    ensures Truth(dbs[n]) && TimeOrdered(dbs[n].history)
    ensures forall m :: 0 <= m <= n ==> dbs[m].history <= dbs[n].history
    ensures Stamped(dbs[n].history[|dbs[0].history|..], steps, n)
  {
    if n > 0 {
      HistoryIsTruth(dbs, steps, n - 1);
      RunStepKeepsTruth(dbs[0].history, dbs[n - 1], steps, n - 1);
    }
  }

  /** The current row is the newest entry of its key, not only the last inserted one. */
  lemma {:induction false} LastIsNewest(h: seq<HistoryRow>, k: RowKey, i: nat)
    requires TimeOrdered(h) && i < |h| && h[i].key == k
    ensures LastEntry(h, k).Some? && LastEntry(h, k).value.key == k
    ensures h[i].confirmedAt <= LastEntry(h, k).value.confirmedAt
  {
    if h[|h| - 1].key != k {
      LastIsNewest(h[..|h| - 1], k, i);
    }
  }

  // ---------------------------------------------------------------- positivity

  /** Every history row the reconciler wrote holds two positive prices. */
  predicate ReconcilerPositive(h: seq<HistoryRow>) {
    forall i :: 0 <= i < |h| && h[i].writer == ByReconciler ==> h[i].input > 0 && h[i].output > 0
  }

  predicate AboveHalfStep(s: Step) {
    s.PublishStep? ==> s.input >= HALF_STEP && s.output >= HALF_STEP
  }

  /** The incomplete-price guard tests the value before rounding: rows written by the reconciler
      are positive exactly when no published price was below half a storage step. */
  lemma {:induction false} ReconcilerRowsPositiveIff(dbs: seq<Db>, steps: seq<Step>)
    requires IsRun(dbs, steps)
    requires Truth(dbs[0]) && TimeOrdered(dbs[0].history) && StrictClock(dbs[0].history, steps)
    requires ReconcilerPositive(dbs[0].history)
    ensures ReconcilerPositive(dbs[|steps|].history) <==> forall i :: 0 <= i < |steps| ==> AboveHalfStep(steps[i])
  {
    if steps != [] {
      var n := |steps| - 1;
      var before, s := steps[..n], steps[n];
      assert IsRun(dbs[..n + 1], before);
      ReconcilerRowsPositiveIff(dbs[..n + 1], before);
      HistoryIsTruth(dbs, steps, n);
      var h, h' := dbs[n].history, dbs[n + 1].history;
      assert ReconcilerPositive(h) <==> forall i :: 0 <= i < n ==> AboveHalfStep(steps[i]) by {
        assert forall i :: 0 <= i < n ==> before[i] == steps[i];
      }
      assert ReconcilerPositive(h') <==> ReconcilerPositive(h) && AboveHalfStep(s) by {
        StampedIsEarlier(dbs[0].history, h, steps, n);
        LastStepPositiveIff(dbs[n], s);
      }
    }
  }

  lemma LastStepPositiveIff(db: Db, s: Step)
    requires Enabled(db, s)
    requires Stamps(s) ==> forall i :: 0 <= i < |db.history| ==> db.history[i].confirmedAt < s.now
    ensures ReconcilerPositive(Apply(db, s).history) <==> ReconcilerPositive(db.history) && AboveHalfStep(s)
  {
    var h, h' := db.history, Apply(db, s).history;
    if s.PublishStep? {
      PositiveOnceStored(s.input);
      PositiveOnceStored(s.output);
      var row := HistoryRow(s.key, ToSteps(s.input), ToSteps(s.output), s.now, Some(s.underlying), ByReconciler);
      assert !Recorded(h, s.key, s.now);
      assert h' == h + [row];
      assert h'[|h|] == row;
      assert forall i :: 0 <= i < |h| ==> h'[i] == h[i];
    } else {
      assert forall i :: 0 <= i < |h'| ==> (i < |h| && h'[i] == h[i]) || h'[i].writer == ByOperator;
      assert forall i :: 0 <= i < |h| ==> h'[i] == h[i];
    }
  }

  /** A price the diff engine reports can pass the guard and still be written as zero, in any state. */
  lemma TinyPriceStoredAsZero(db: Db, k: RowKey, now: int)
    requires !Recorded(db.history, k, now)
    ensures var tiny := 0.00000000004;
            var s := PublishStep(k, tiny, 1.0, Low, "", now);
            && tiny > EPSILON && Enabled(db, s)
            && var db' := Apply(db, s);
               && k in db'.prices && db'.prices[k].input == 0
               && |db'.history| == |db.history| + 1 && db'.history[|db.history|].writer == ByReconciler
               && db'.history[|db.history|].key == k && db'.history[|db.history|].input == 0
  {
    PositiveOnceStored(0.00000000004);
    assert ToSteps(1.0) == 10000000000;
  }

  // ---------------------------------------------------------------- review queue

  predicate OnePerField(review: seq<ReviewRow>) {
    forall i, j :: 0 <= i < j < |review| && review[i].status == Pending && review[j].status == Pending ==>
      review[i].model != review[j].model || review[i].field != review[j].field
  }

  /** The step ends entry id. */
  predicate EndsEntry(db: Db, s: Step, id: nat) {
    && Enabled(db, s) && id < |db.review|
    && Apply(db, s).review[id].status != db.review[id].status
  }

  lemma StepOnQueue(db: Db, s: Step)
    requires Enabled(db, s) && OnePerField(db.review)
    ensures var db' := Apply(db, s);
            && OnePerField(db'.review) && |db.review| <= |db'.review|
            && (forall id :: 0 <= id < |db.review| ==>
                  && (db'.review[id] != db.review[id] ==>
                        db.review[id].status == Pending && (s == ApproveStep(id, s.now) || s == RejectStep(id, s.now)))
                  && ((s == ApproveStep(id, s.now) || s == RejectStep(id, s.now)) ==> db'.review[id].status != Pending))
  {
  }

  /** How many steps of the run ended entry id. */
  function Endings(dbs: seq<Db>, steps: seq<Step>, id: nat, n: nat): nat
    requires IsRun(dbs, steps) && n <= |steps|
  {
    if n == 0 then 0
    else Endings(dbs, steps, id, n - 1) + if EndsEntry(dbs[n - 1], steps[n - 1], id) then 1 else 0
  }

  /** At most one open entry per model and field in every state; an entry is ended at most once,
      only by an approval or a rejection of it, and is never reopened or lost. */
  lemma {:induction false} ReviewMachine(dbs: seq<Db>, steps: seq<Step>, n: nat, id: nat)
    requires IsRun(dbs, steps) && n <= |steps| && OnePerField(dbs[0].review)
    ensures OnePerField(dbs[n].review)
    ensures forall m :: 0 <= m <= n ==> |dbs[m].review| <= |dbs[n].review|
    ensures Endings(dbs, steps, id, n) <= 1
    ensures Endings(dbs, steps, id, n) == 1 ==> id < |dbs[n].review| && dbs[n].review[id].status != Pending
    ensures forall m :: 0 <= m <= n && id < |dbs[m].review| && dbs[m].review[id].status != Pending ==>
              dbs[n].review[id] == dbs[m].review[id]
  {
    if n > 0 {
      ReviewMachine(dbs, steps, n - 1, id);
      StepOnQueue(dbs[n - 1], steps[n - 1]);
    }
  }

  function Committed(steps: seq<Step>): nat {
    if steps == [] then 0
    else Committed(steps[..|steps| - 1]) + if steps[|steps| - 1].PublishStep? then 1 else 0
  }

  function ResolvedRows(review: seq<ReviewRow>): nat {
    if review == [] then 0
    else ResolvedRows(review[..|review| - 1]) + if review[|review| - 1].status == Resolved then 1 else 0
  }

  lemma {:induction false} ResolveOne(review: seq<ReviewRow>, id: nat, row: ReviewRow)
    requires id < |review| && review[id].status == Pending
    ensures ResolvedRows(review[id := row]) == ResolvedRows(review) + if row.status == Resolved then 1 else 0
  {
    var n := |review| - 1;
    if id < n {
      ResolveOne(review[..n], id, row);
      assert review[id := row][..n] == review[..n][id := row];
    } else {
      assert review[id := row][..n] == review[..n];
    }
  }

  lemma CountStep(db: Db, s: Step)
    requires Enabled(db, s)
    requires Stamps(s) ==> forall i :: 0 <= i < |db.history| ==> db.history[i].confirmedAt < s.now
    ensures |Apply(db, s).history| - |db.history| ==
            (if s.PublishStep? then 1 else 0) + ResolvedRows(Apply(db, s).review) - ResolvedRows(db.review)
  {
    match s
    case FlagStep(m, a, b, f, va, vb, d, _) => CountFlag(db, m, a, b, f, va, vb, d);
    case ApproveStep(id, now) =>
      ResolveOne(db.review, id, Approve(db, id, now).review[id]);
      assert !Recorded(db.history, RowKey(db.review[id].model, db.review[id].sourceA), now);
    case RejectStep(id, now) => ResolveOne(db.review, id, Reject(db, id, now).review[id]);
    case PublishStep(k, _, _, _, _, now) => assert !Recorded(db.history, k, now);
    case VerifyStep(_, _, _) =>
    case EnsureStep(_, _) =>
  }

  lemma CountFlag(db: Db, m: int, a: int, b: int, f: PriceField, va: real, vb: real, d: real)
    ensures var db' := Flag(db, m, a, b, f, va, vb, d);
            db'.history == db.history && ResolvedRows(db'.review) == ResolvedRows(db.review)
  {
    var db' := Flag(db, m, a, b, f, va, vb, d);
    if !OpenDispute(db.review, m, f) {
      assert db'.review[..|db.review|] == db.review;
    }
  }

  /** Conservation: history grows by one row for each committed publish and each resolved entry. */
  lemma {:induction false} HistoryCount(dbs: seq<Db>, steps: seq<Step>)
    requires IsRun(dbs, steps)
    requires Truth(dbs[0]) && TimeOrdered(dbs[0].history) && StrictClock(dbs[0].history, steps)
    ensures |dbs[|steps|].history| - |dbs[0].history| ==
            Committed(steps) + ResolvedRows(dbs[|steps|].review) - ResolvedRows(dbs[0].review)
  {
    if steps != [] {
      var n := |steps| - 1;
      assert IsRun(dbs[..n + 1], steps[..n]);
      HistoryCount(dbs[..n + 1], steps[..n]);
      HistoryIsTruth(dbs, steps, n);
      StampedIsEarlier(dbs[0].history, dbs[n].history, steps, n);
      CountStep(dbs[n], steps[n]);
    }
  }
}
