/** A dispute from its flag to its approval, over whole runs of the tables (internal/review/store.go). */
module TableEffects {
  import opened Prices
  import opened PriceStore
  import opened HistoryTruth

  /** A new flag of (a, va) against (b, vb), once approved, leaves the rounded va in a's row and b's row
      as it was. */
  lemma FlagThenApprove(db: Db, f: Step, now: int)
    requires f.FlagStep? && Enabled(db, f) && !HasOpenEntry(db.review, f.model, f.field)
    ensures var db1, approve := Apply(db, f), ApproveStep(|db.review|, now);
            && Enabled(db1, approve)
            && var db2, a, b := Apply(db1, approve), RowKey(f.model, f.a), RowKey(f.model, f.b);
               && a in db2.prices && db2.prices[a].confidence == High
               && Cell(db2.prices, a, f.field) == ToSteps(f.valueA)
               && Cell(db2.prices, a, OtherField(f.field)) == Cell(db.prices, a, OtherField(f.field))
               && (b != a ==> (b in db2.prices <==> b in db.prices) && (b in db.prices ==> db2.prices[b] == db.prices[b]))
  {
    FlagFlags(db, f.model, f.a, f.b, f.field, f.valueA, f.valueB, f.delta);
    ApproveApproves(Apply(db, f), |db.review|, now);
  }

  /** The step opened this entry of the queue. */
  predicate Opened(before: Db, s: Step, id: nat, e: ReviewRow) {
    && s.FlagStep? && |before.review| == id
    && Disputes(e.(status := Pending, resolvedAt := None), s.model, s.field, s.a, s.valueA, s.b, s.valueB, s.delta)
  }

  /** The step approved the entry, and left its first value in its first source's row. */
  ghost predicate Approved(before: Db, after: Db, s: Step, id: nat, e: ReviewRow) {
    s.ApproveStep? && s.id == id && e.resolvedAt == Some(s.now) && HoldsFirstValue(before.prices, after.prices, e, s.now)
  }

  /** The step rejected the entry, and left every price as it was. */
  predicate Rejected(before: Db, after: Db, s: Step, id: nat, e: ReviewRow) {
    s.RejectStep? && s.id == id && e.resolvedAt == Some(s.now) && after.prices == before.prices && after.history == before.history
  }

  ghost predicate Ended(before: Db, after: Db, s: Step, id: nat, e: ReviewRow) {
    match e.status
    case Pending => false
    case Resolved => Approved(before, after, s, id, e)
    case Overridden => Rejected(before, after, s, id, e)
  }

  lemma OneStepOfEntry(db: Db, s: Step, id: nat)
    requires Enabled(db, s) && id < |Apply(db, s).review|
    ensures var db' := Apply(db, s);
            var e' := db'.review[id];
            if id >= |db.review| then Opened(db, s, id, e') && e'.status == Pending
            else e' == db.review[id] || Ended(db, db', s, id, e')
    ensures id < |db.review| ==>
              var e, e' := db.review[id], Apply(db, s).review[id];
              e'.(status := e.status, resolvedAt := e.resolvedAt) == e
  {
    match s
    case FlagStep(m, a, b, f, va, vb, d, _) => FlagFlags(db, m, a, b, f, va, vb, d);
    case ApproveStep(i, now) => ApproveApproves(db, i, now);
    case _ =>
  }

  /** In every run, every entry that the run brought was opened by one flag, with its sides as flagged; a
      resolved one was approved by a step that wrote its first side's value to its first side's row, and
      an overridden one rejected by a step that changed no price. */
  lemma {:induction false} ResolvedAsFlagged(dbs: seq<Db>, steps: seq<Step>, n: nat, id: nat)
    requires IsRun(dbs, steps) && n <= |steps| && |dbs[0].review| <= id < |dbs[n].review|
    ensures var e := dbs[n].review[id];
            && (exists i :: 0 <= i < n && Opened(dbs[i], steps[i], id, e))
            && (e.status != Pending ==> exists j :: 0 <= j < n && Ended(dbs[j], dbs[j + 1], steps[j], id, e))
  {
    if n > 0 {
      var e := dbs[n].review[id];
      OneStepOfEntry(dbs[n - 1], steps[n - 1], id);
      if id < |dbs[n - 1].review| {
        ResolvedAsFlagged(dbs, steps, n - 1, id);
        var i :| 0 <= i < n - 1 && Opened(dbs[i], steps[i], id, dbs[n - 1].review[id]);
        assert Opened(dbs[i], steps[i], id, e);
      } else {
        assert Opened(dbs[n - 1], steps[n - 1], id, e);
      }
    }
  }
}
