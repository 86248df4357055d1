/** Exactly what visiting one group comes to: when the gate holds, remembers or publishes, when a consensus
    flags and publishes, and which price of the other field goes along (internal/reconciler/reconciler.go). */
module GroupOutcomes {
  import Folds
  import opened Prices
  import opened DiffEngine
  import opened PriceStore
  import opened HistoryTruth
  import opened MultiSource
  import opened PendingMirror
  import opened Reconciler
  import opened GroupEffects

  // ---------------------------------------------------------------- the reports of a cycle

  /** The source was found and has an id of its own. */
  predicate Resolves(db: Db, c: Cycle, source: string) {
    source !in c.env.badSources && source in db.sources && db.sources[source] >= 0
  }

  lemma {:induction false} ValidCounts(diffs: seq<PriceDiff>, ids: map<string, int>, d: PriceDiff)
    ensures multiset(Valid(diffs, ids))[d] == if IdOf(ids, d.source) < 0 then 0 else multiset(diffs)[d]
  {
    if diffs != [] {
      var n := |diffs| - 1;
      ValidCounts(diffs[..n], ids, d);
      assert diffs == diffs[..n] + [diffs[n]];
    }
  }

  /** A cycle works on exactly the reports whose source resolves, each as often as it was reported, under
      the ids of their sources. */
  lemma CycleKeepsResolved(db: Db, c: Cycle, d: PriceDiff)
    requires d in c.diffs
    ensures multiset(ValidOf(db, c))[d] == if Resolves(db, c, d.source) then multiset(c.diffs)[d] else 0
    ensures Resolves(db, c, d.source) ==> HasId(SourceIds(db, c.diffs, c.env.badSources), d.source, db.sources[d.source])
  {
    assert d.source in SourceNames(c.diffs);
    ValidCounts(c.diffs, SourceIds(db, c.diffs, c.env.badSources), d);
  }

  // ---------------------------------------------------------------- nothing old is used

  /** Every entry was seen since the cycle's sweep, or within 72 hours before it. */
  predicate AllLately(p: Pending, sweepAt: int) {
    forall key :: key in p ==> SeenLately(p[key], sweepAt)
  }

  lemma VisitStaysLately(w: World, valid: seq<PriceDiff>, ids: map<string, int>, env: Env, k: GroupKey)
    requires AllLately(w.st.pending, env.sweepAt) && env.sweepAt <= env.at(k)
    ensures AllLately(StepWorld1(w, valid, ids, env, k).st.pending, env.sweepAt)
  {
    var s, g, f, now := w.st, Sorted(valid, k), env.faults(k), env.at(k);
    if !Skipped(s, valid, k, f) {
      if IsSingle(g) {
        var key := RowKey(s.db.models[k.slug], IdOf(ids, g[0].source));
        GateStaysLately(s.pending, SingleKey(k, g[0]), g[0].newValue, g[0].source, f.lookup || key in s.db.prices, now, env.sweepAt);
      } else {
        MultiKeepsPending(s, k, s.db.models[k.slug], g, ids, Sibling(valid, k), now, f);
      }
    }
  }

  lemma GateStaysLately(p: Pending, key: string, value: real, source: string, found: bool, now: int, sweepAt: int)
    requires AllLately(p, sweepAt) && sweepAt <= now
    ensures AllLately(Gate(p, key, value, source, found, now).pending, sweepAt)
  {
  }

  lemma {:induction false} VisitsStayLately(w: World, valid: seq<PriceDiff>, ids: map<string, int>, env: Env, order: seq<GroupKey>)
    requires AllLately(w.st.pending, env.sweepAt) && forall i :: 0 <= i < |order| ==> env.sweepAt <= env.at(order[i])
    ensures AllLately(StepsWorld(w, valid, ids, env, order).st.pending, env.sweepAt)
  {
    if order != [] {
      var n := |order| - 1;
      VisitsStayLately(w, valid, ids, env, order[..n]);
      VisitStaysLately(StepsWorld(w, valid, ids, env, order[..n]), valid, ids, env, order[n]);
    }
  }

  /** Whatever a process or the hash remembered, after each visit of a cycle no entry is pending that was last
      seen more than 72 hours before the cycle's sweep: no such observation backs a publish or outlives
      the cycle. */
  lemma CycleForgetsStale(w: World, c: Cycle, n: nat)
    requires c.diffs != [] && n <= |c.order| && forall i :: 0 <= i < |c.order| ==> c.env.sweepAt <= c.env.at(c.order[i])
    ensures forall key :: key in RunCycle(w, c.(order := c.order[..n])).st.pending ==>
              c.env.sweepAt - RunCycle(w, c.(order := c.order[..n])).st.pending[key].lastSeen <= 72 * 3600 * 1000000000
  {
    var w1 := Swept(Loaded(w, c.env.loadAt), c.env.sweepAt);
    var ids := SourceIds(w.st.db, c.diffs, c.env.badSources);
    VisitsStayLately(w1, Valid(c.diffs, ids), ids, c.env, c.order[..n]);
  }

  // ---------------------------------------------------------------- the other column

  /** The last report of this slug and field in the cycle has this value. */
  predicate IsLastReport(valid: seq<PriceDiff>, k: GroupKey, x: real) {
    exists i :: 0 <= i < |valid| && IsLastAt(valid, k, i) && valid[i].newValue == x
  }

  predicate IsLastAt(valid: seq<PriceDiff>, k: GroupKey, i: nat)
    requires i < |valid|
  {
    InGroup(valid[i], k) && forall j :: i < j < |valid| ==> !InGroup(valid[j], k)
  }

  lemma {:induction false} LastReportIs(valid: seq<PriceDiff>, k: GroupKey, x: real)
    ensures IsLastReport(valid, k, x) ==> CycleValue(valid, k) == x
    ensures CycleValue(valid, k) != 0.0 ==> IsLastReport(valid, k, CycleValue(valid, k))
  {
    if valid != [] {
      var n := |valid| - 1;
      LastReportIs(valid[..n], k, x);
      LastReportIs(valid[..n], k, CycleValue(valid, k));
      assert valid == valid[..n] + [valid[n]];
      LastOfGroup(valid[..n], valid[n], k);
      if InGroup(valid[n], k) {
        assert IsLastAt(valid, k, n);
      } else {
        LastStays(valid, n, k, x);
        LastStays(valid, n, k, CycleValue(valid, k));
      }
    }
  }

  lemma LastStays(valid: seq<PriceDiff>, n: nat, k: GroupKey, x: real)
    requires n == |valid| - 1 && !InGroup(valid[n], k)
    ensures IsLastReport(valid, k, x) <==> IsLastReport(valid[..n], k, x)
  {
    if i :| 0 <= i < n && IsLastAt(valid[..n], k, i) && valid[..n][i].newValue == x {
      assert IsLastAt(valid, k, i);
    }
    if i :| 0 <= i < |valid| && IsLastAt(valid, k, i) && valid[i].newValue == x {
      assert IsLastAt(valid[..n], k, i) && valid[..n][i] == valid[i];
    }
  }

  /** The price of the other field that goes with a publish: the stored one when it was read and is
      positive, else the last one reported in this cycle. */
  predicate IsCompanion(s: State, valid: seq<PriceDiff>, k: GroupKey, key: RowKey, f: Faults, x: real) {
    var other := if k.field == Input then Output else Input;
    if !f.price && Cell(s.db.prices, key, other) > 0 then x * 10000000000.0 == Cell(s.db.prices, key, other) as real
    else IsLastReport(valid, GroupKey(k.slug, other), x)
  }

  /** A value the price columns can hold. */
  predicate InColumn(x: real) {
    -9999999999.99999999995 < x < 9999999999.99999999995
  }

  /** The publish of this value to this row goes through. */
  ghost predicate CanPublish(s: State, valid: seq<PriceDiff>, k: GroupKey, key: RowKey, value: real, f: Faults) {
    && !f.publish && value > 0.0 && InColumn(value)
    && exists x :: IsCompanion(s, valid, k, key, f, x) && x > 0.0 && InColumn(x)
  }

  lemma CompletedIs(s: State, valid: seq<PriceDiff>, k: GroupKey, key: RowKey, value: real, f: Faults, x: real)
    requires x > 0.0
    ensures IsCompanion(s, valid, k, key, f, x) <==>
            Completed(s.db, key, k.field, OtherField(k.field), value, Sibling(valid, k), f.price) == x
  {
    var other := OtherField(k.field);
    LastReportIs(valid, GroupKey(k.slug, other), x);
    var n := Cell(s.db.prices, key, other);
    StoredSign(n);
    assert FromSteps(n) * 10000000000.0 == n as real;
  }

  /** A publish is logged, with that companion, exactly when it can go through. */
  lemma PublishIff(s: State, valid: seq<PriceDiff>, k: GroupKey, key: RowKey, value: real, conf: Confidence,
                   under: string, now: int, f: Faults)
    ensures var s' := PublishTo(s, key, k.field, value, conf, under, Sibling(valid, k), now, f);
            && s.log <= s'.log
            && (Logged(s, s') != [] <==> CanPublish(s, valid, k, key, value, f))
            && (Logged(s, s') != [] ==> s'.log[|s.log|].PublishStep? && CompanionOf(s, valid, k, f, s'.log[|s.log|]))
  {
    var other := OtherField(k.field);
    var y := Completed(s.db, key, k.field, other, value, Sibling(valid, k), f.price);
    RoundsToNearest(value);
    RoundsToNearest(y);
    if y > 0.0 {
      CompletedIs(s, valid, k, key, value, f, y);
    }
    if x :| IsCompanion(s, valid, k, key, f, x) && x > 0.0 && InColumn(x) {
      CompletedIs(s, valid, k, key, value, f, x);
    }
  }

  /** A logged publish carries the companion price that it should. */
  predicate CompanionOf(s: State, valid: seq<PriceDiff>, k: GroupKey, f: Faults, st: Step)
    requires st.PublishStep?
  {
    IsCompanion(s, valid, k, st.key, f, if k.field == Input then st.output else st.input)
  }

  // ---------------------------------------------------------------- when a visit speaks

  /** d is what every first-source report of the group looks like. */
  ghost predicate IsTheFirst(valid: seq<PriceDiff>, k: GroupKey, d: PriceDiff) {
    IsFirstSource(valid, k, d) && forall e :: IsFirstSource(valid, k, e) ==> e == d
  }

  /** A publish of this value to this row is logged, at this confidence and with the companion it should
      have, exactly when it can go through; nothing else is logged. */
  ghost predicate Attempts(s: State, s': State, valid: seq<PriceDiff>, k: GroupKey, key: RowKey, value: real,
                           conf: Confidence, f: Faults)
  {
    && s.log <= s'.log && |Logged(s, s')| <= 1
    && (|Logged(s, s')| == 1 <==> CanPublish(s, valid, k, key, value, f))
    && forall st :: st in Logged(s, s') ==>
         && st.PublishStep? && st.key == key && Price(st, k.field) == value && st.confidence == conf
         && CompanionOf(s, valid, k, f, st)
  }

  /** What the gate makes of a report: a first sight without a row is published at Low and not
      remembered; a report close to the waiting one ends the wait and is published at Medium; any other
      one waits, in the place of what waited. */
  ghost predicate Gates(s: State, s': State, valid: seq<PriceDiff>, k: GroupKey, d: PriceDiff, key: RowKey,
                        pk: string, now: int, f: Faults)
  {
    var known := f.lookup || key in s.db.prices;
    var close := pk in s.pending && -0.000000000001 < s.pending[pk].value - d.newValue < 0.000000000001;
    if !known && pk !in s.pending then s'.pending == s.pending && Attempts(s, s', valid, k, key, d.newValue, Low, f)
    else if close && s.pending[pk].count >= 1 then
      s'.pending == s.pending - {pk} && Attempts(s, s', valid, k, key, d.newValue, Medium, f)
    else
      && s'.db == s.db && s'.log == s.log
      && s'.pending.Keys == s.pending.Keys + {pk} && (forall x :: x in s.pending && x != pk ==> s'.pending[x] == s.pending[x])
      && s'.pending[pk].lastSeen == now
      && (!close ==> s'.pending[pk] == Entry(d.newValue, d.source, 1, now))
  }

  lemma AttemptIs(s: State, valid: seq<PriceDiff>, k: GroupKey, key: RowKey, value: real, conf: Confidence,
                  under: string, now: int, f: Faults)
    ensures Attempts(s, PublishTo(s, key, k.field, value, conf, under, Sibling(valid, k), now, f),
                     valid, k, key, value, conf, f)
  {
    PublishLogs(s, key, k.field, value, conf, under, Sibling(valid, k), now, f);
    PublishIff(s, valid, k, key, value, conf, under, now, f);
  }

  lemma SameTables(s: State, h: State, s': State, valid: seq<PriceDiff>, k: GroupKey, key: RowKey, value: real,
                   conf: Confidence, f: Faults)
    requires Attempts(h, s', valid, k, key, value, conf, f) && h.db.prices == s.db.prices && h.log == s.log
    ensures Attempts(s, s', valid, k, key, value, conf, f)
  {
    assert forall x :: IsCompanion(h, valid, k, key, f, x) <==> IsCompanion(s, valid, k, key, f, x);
  }

  lemma SingleGates(s: State, valid: seq<PriceDiff>, k: GroupKey, key: RowKey, d: PriceDiff, now: int, f: Faults)
    ensures Gates(s, Single(s, k, key, d, Sibling(valid, k), now, f), valid, k, d, key, SingleKey(k, d), now, f)
  {
    var g := SingleGate(s, k, key, d, now, f);
    if g.verdict != Hold {
      var held, conf := s.(pending := g.pending), if g.verdict == FirstSeen then Low else Medium;
      AttemptIs(held, valid, k, key, d.newValue, conf, d.underlying, now, f);
      SameTables(s, held, Single(s, k, key, d, Sibling(valid, k), now, f), valid, k, key, d.newValue, conf, f);
    }
  }

  /** When every report of a group comes from one provider, the first source's report goes through the
      gate, under that provider's name; an unknown model or a failed lookup of it changes nothing. */
  lemma GateDecides(s: State, valid: seq<PriceDiff>, ids: map<string, int>, env: Env, k: GroupKey, name: string,
                    d: PriceDiff, id: int)
    requires forall e :: e in valid && InGroup(e, k) ==> Behind(e) == name
    requires IsTheFirst(valid, k, d) && HasId(ids, d.source, id)
    ensures var s' := Step1(s, valid, ids, env, k);
            if k.slug !in s.db.models || env.faults(k).model then s' == s
            else Gates(s, s', valid, k, d, RowKey(s.db.models[k.slug], id), PendingKey(k.slug, k.field, name),
                       env.at(k), env.faults(k))
  {
    OneNameIsSingle(valid, k, name);
    SortedHolds(valid, k, d);
    FirstOfSorted(valid, k);
    if !Skipped(s, valid, k, env.faults(k)) {
      SingleGates(s, valid, k, RowKey(s.db.models[k.slug], id), d, env.at(k), env.faults(k));
    }
  }

  // ---------------------------------------------------------------- when a consensus speaks

  /** The report agrees with d within 1e-12. */
  predicate Agrees(d: PriceDiff, e: PriceDiff) {
    -0.000000000001 <= e.newValue - d.newValue <= 0.000000000001
  }

  /** Two reports of the group are not near, and not all agree with the first source's. */
  predicate InDispute(valid: seq<PriceDiff>, k: GroupKey, d: PriceDiff) {
    && (exists e :: e in valid && InGroup(e, k) && !Agrees(d, e))
    && (exists p, q :: p in valid && q in valid && InGroup(p, k) && InGroup(q, k) && !Near(p.newValue, q.newValue))
  }

  /** Two different reports of the group agree. */
  predicate SomeAgree(valid: seq<PriceDiff>, k: GroupKey) {
    exists i, j :: 0 <= i < |valid| && 0 <= j < |valid| && i != j && InGroup(valid[i], k) && InGroup(valid[j], k)
                   && Agrees(valid[i], valid[j])
  }

  lemma DisputeIff(valid: seq<PriceDiff>, ids: map<string, int>, k: GroupKey, d: PriceDiff)
    requires |Sorted(valid, k)| >= 2 && IsTheFirst(valid, k, d)
    ensures Decide(ValuesOf(Sorted(valid, k), ids)).flag.Some? <==> InDispute(valid, k, d)
  {
    var g := Sorted(valid, k);
    var v := ValuesOf(g, ids);
    FirstOfSorted(valid, k);
    assert g[0] == d;
    FlagNamesWorstPair(v);
    FirstAgreesIff(valid, ids, k, d);
    SomeFarIff(valid, ids, k);
  }

  lemma FirstAgreesIff(valid: seq<PriceDiff>, ids: map<string, int>, k: GroupKey, d: PriceDiff)
    requires Sorted(valid, k) != [] && Sorted(valid, k)[0] == d
    ensures AllAgree(ValuesOf(Sorted(valid, k), ids)) <==> forall e :: e in valid && InGroup(e, k) ==> Agrees(d, e)
  {
    var g := Sorted(valid, k);
    var v := ValuesOf(g, ids);
    forall i | 0 <= i < |g|
      ensures g[i] in valid && InGroup(g[i], k) && (Agrees(d, g[i]) <==> Close(v[i].value, v[0].value))
    {
      SortedHolds(valid, k, g[i]);
    }
    forall e | e in valid && InGroup(e, k)
      ensures e in g
    {
      SortedHolds(valid, k, e);
    }
  }

  lemma SomeFarIff(valid: seq<PriceDiff>, ids: map<string, int>, k: GroupKey)
    ensures SomeDispute(ValuesOf(Sorted(valid, k), ids)) <==>
            exists p, q :: p in valid && q in valid && InGroup(p, k) && InGroup(q, k) && !Near(p.newValue, q.newValue)
  {
    var g := Sorted(valid, k);
    var v := ValuesOf(g, ids);
    if i, j :| 0 <= i < j < |v| && !WithinThreshold(v[i].value, v[j].value) {
      SortedHolds(valid, k, g[i]);
      SortedHolds(valid, k, g[j]);
      NearIsWithin(g[i].newValue, g[j].newValue);
    }
    if p, q :| p in valid && q in valid && InGroup(p, k) && InGroup(q, k) && !Near(p.newValue, q.newValue) {
      SortedHolds(valid, k, p);
      SortedHolds(valid, k, q);
      var i :| 0 <= i < |g| && g[i] == p;
      var j :| 0 <= j < |g| && g[j] == q;
      NearIsWithin(p.newValue, q.newValue);
      NearIsWithin(q.newValue, p.newValue);
      assert !WithinThreshold(v[i].value, v[j].value) && !WithinThreshold(v[j].value, v[i].value);
    }
  }

  /** What a consensus comes to when all values fit their columns. A flag is logged exactly in a dispute,
      unless the queue fails. Without a dispute the first source's report is due, at High when all agree
      with it; in one nothing is due unless two reports agree, and then, if any report of the group could
      be published, something is. What is logged carries the companion that it should. */
  ghost predicate Speaks(s: State, s': State, valid: seq<PriceDiff>, ids: map<string, int>, k: GroupKey, model: int,
                         d: PriceDiff, id: int, f: Faults)
    requires s.log <= s'.log
  {
    && ((exists st :: st in Logged(s, s') && st.FlagStep?) <==> !f.flag && InDispute(valid, k, d))
    && (forall st :: st in Logged(s, s') && st.PublishStep? ==> CompanionOf(s, valid, k, f, st))
    && (!InDispute(valid, k, d) ==>
          && ((exists st :: st in Logged(s, s') && st.PublishStep?) <==>
                CanPublish(s, valid, k, RowKey(model, id), d.newValue, f))
          && forall st :: st in Logged(s, s') && st.PublishStep? ==>
               && st.key == RowKey(model, id) && Price(st, k.field) == d.newValue
               && (st.confidence == High <==> forall e :: e in valid && InGroup(e, k) ==> Agrees(d, e)))
    && (InDispute(valid, k, d) && !SomeAgree(valid, k) ==> forall st :: st in Logged(s, s') ==> !st.PublishStep?)
    && (InDispute(valid, k, d) && SomeAgree(valid, k) && AllCanPublish(s, valid, ids, k, model, f) ==>
          exists st :: st in Logged(s, s') && st.PublishStep? && st.confidence == High)
  }

  ghost predicate AllCanPublish(s: State, valid: seq<PriceDiff>, ids: map<string, int>, k: GroupKey, model: int, f: Faults) {
    forall e, id :: e in valid && InGroup(e, k) && HasId(ids, e.source, id) ==>
      CanPublish(s, valid, k, RowKey(model, id), e.newValue, f)
  }

  /** What was logged: a flag or not, and the publish of the choice if there is one and it can go through. */
  ghost predicate Outcome(s: State, s': State, valid: seq<PriceDiff>, k: GroupKey, model: int, flagged: bool,
                          c: Option<Choice>, f: Faults)
    requires s.log <= s'.log
  {
    && ((exists st :: st in Logged(s, s') && st.FlagStep?) <==> flagged)
    && ((exists st :: st in Logged(s, s') && st.PublishStep?) <==>
          c.Some? && CanPublish(s, valid, k, RowKey(model, c.value.source), c.value.value, f))
    && (forall st :: st in Logged(s, s') && st.PublishStep? ==>
          && c.Some? && st.key == RowKey(model, c.value.source) && Price(st, k.field) == c.value.value
          && st.confidence == c.value.confidence && CompanionOf(s, valid, k, f, st))
  }

  lemma OutcomeIs(s: State, m: State, s': State, valid: seq<PriceDiff>, k: GroupKey, model: int, flagged: bool,
                  c: Option<Choice>, f: Faults)
    requires s.log <= m.log && m.db.prices == s.db.prices && (forall st :: st in Logged(s, m) ==> st.FlagStep?)
    requires Logged(s, m) != [] <==> flagged
    requires c == None ==> s' == m
    requires c.Some? ==> Attempts(m, s', valid, k, RowKey(model, c.value.source), c.value.value, c.value.confidence, f)
    ensures s.log <= s'.log && Outcome(s, s', valid, k, model, flagged, c, f)
  {
    if flagged {
      assert Logged(s, m)[0] in Logged(s, m);
    }
    if c.Some? {
      OutcomeOfAttempt(s, m, s', valid, k, model, flagged, c.value, f);
    }
  }

  lemma OutcomeOfAttempt(s: State, m: State, s': State, valid: seq<PriceDiff>, k: GroupKey, model: int, flagged: bool,
                         c: Choice, f: Faults)
    requires s.log <= m.log && m.db.prices == s.db.prices && (forall st :: st in Logged(s, m) ==> st.FlagStep?)
    requires (exists st :: st in Logged(s, m) && st.FlagStep?) <==> flagged
    requires Attempts(m, s', valid, k, RowKey(model, c.source), c.value, c.confidence, f)
    ensures s.log <= s'.log && Outcome(s, s', valid, k, model, flagged, Some(c), f)
  {
    var key := RowKey(model, c.source);
    Folds.Added(s.log, m.log, s'.log);
    assert forall x :: IsCompanion(m, valid, k, key, f, x) <==> IsCompanion(s, valid, k, key, f, x);
    assert CanPublish(m, valid, k, key, c.value, f) <==> CanPublish(s, valid, k, key, c.value, f);
    if CanPublish(s, valid, k, key, c.value, f) {
      assert Logged(m, s')[0] in Logged(s, s');
    }
  }

  lemma FlagOutcome(s: State, model: int, field: PriceField, d: Dispute, now: int, f: Faults)
    requires Fits(d.a.value) && Fits(d.b.value)
    ensures var m := Flagged(s, model, field, d, now, f);
            && s.log <= m.log && m.db.prices == s.db.prices && (forall st :: st in Logged(s, m) ==> st.FlagStep?)
            && (Logged(s, m) != [] <==> !f.flag)
  {
  }

  lemma DisputeFits(valid: seq<PriceDiff>, ids: map<string, int>, k: GroupKey)
    requires |Sorted(valid, k)| >= 2 && Decide(ValuesOf(Sorted(valid, k), ids)).flag.Some?
    requires forall e :: e in valid && InGroup(e, k) ==> InColumn(e.newValue)
    ensures var d := Decide(ValuesOf(Sorted(valid, k), ids)).flag.value; Fits(d.a.value) && Fits(d.b.value)
  {
    var g := Sorted(valid, k);
    var v := ValuesOf(g, ids);
    FlagNamesWorstPair(v);
    var p, q :| 0 <= p < q < |v| && Decide(v).flag.value == Dispute(v[p], v[q], Spread(v[p].value, v[q].value));
    SortedHolds(valid, k, g[p]);
    SortedHolds(valid, k, g[q]);
    RoundsToNearest(v[p].value);
    RoundsToNearest(v[q].value);
  }

  lemma MultiOutcome(s: State, valid: seq<PriceDiff>, ids: map<string, int>, k: GroupKey, model: int, now: int, f: Faults)
    requires |Sorted(valid, k)| >= 2 && forall e :: e in valid && InGroup(e, k) ==> InColumn(e.newValue)
    ensures var s', d := Multi(s, k, model, Sorted(valid, k), ids, Sibling(valid, k), now, f), Decide(ValuesOf(Sorted(valid, k), ids));
            s.log <= s'.log && Outcome(s, s', valid, k, model, !f.flag && d.flag.Some?, d.publish, f)
  {
    var g := Sorted(valid, k);
    var d, m := Decide(ValuesOf(g, ids)), s;
    if d.flag.Some? {
      m := Flagged(s, model, k.field, d.flag.value, now, f);
      DisputeFits(valid, ids, k);
      FlagOutcome(s, model, k.field, d.flag.value, now, f);
    }
    if d.publish.Some? {
      var c := d.publish.value;
      AttemptIs(m, valid, k, RowKey(model, c.source), c.value, c.confidence, g[0].underlying, now, f);
    }
    OutcomeIs(s, m, Multi(s, k, model, g, ids, Sibling(valid, k), now, f), valid, k, model, !f.flag && d.flag.Some?, d.publish, f);
  }

  /** Two places of the cycle's reports are two places of the sorted group. */
  lemma TwoSortedPlaces(valid: seq<PriceDiff>, k: GroupKey, i: nat, j: nat) returns (p: nat, q: nat)
    requires i < |valid| && j < |valid| && i != j && InGroup(valid[i], k) && InGroup(valid[j], k)
    ensures p < |Sorted(valid, k)| && q < |Sorted(valid, k)| && p != q
    ensures Sorted(valid, k)[p] == valid[i] && Sorted(valid, k)[q] == valid[j]
  {
    var g := Sorted(valid, k);
    SortedHolds(valid, k, valid[i]);
    SortedHolds(valid, k, valid[j]);
    if valid[i] == valid[j] {
      TwiceCountsTwo(valid, if i < j then i else j, if i < j then j else i);
      SortedCounts(valid, k, valid[i]);
      p, q := TwiceIsTwoPlaces(g, valid[i]);
    } else {
      p :| 0 <= p < |g| && g[p] == valid[i];
      q :| 0 <= q < |g| && g[q] == valid[j];
    }
  }

  lemma SomeAgreeIff(valid: seq<PriceDiff>, ids: map<string, int>, k: GroupKey)
    ensures var v := ValuesOf(Sorted(valid, k), ids);
            SomeAgree(valid, k) <==> exists p, q :: 0 <= p < q < |v| && Close(v[p].value, v[q].value)
  {
    var g := Sorted(valid, k);
    var v := ValuesOf(g, ids);
    if i, j :| 0 <= i < |valid| && 0 <= j < |valid| && i != j && InGroup(valid[i], k) && InGroup(valid[j], k)
               && Agrees(valid[i], valid[j])
    {
      var p, q := TwoSortedPlaces(valid, k, i, j);
      assert Close(v[p].value, v[q].value) && Close(v[q].value, v[p].value);
    }
    if p, q :| 0 <= p < q < |v| && Close(v[p].value, v[q].value) {
      var i, j := TwoPlaces(valid, k, p, q);
      assert Agrees(valid[i], valid[j]);
    }
  }

  /** What the decision makes due. */
  lemma DueIs(valid: seq<PriceDiff>, ids: map<string, int>, k: GroupKey, d: PriceDiff, id: int)
    requires |Sorted(valid, k)| >= 2 && IsTheFirst(valid, k, d) && HasId(ids, d.source, id)
    ensures var c := Decide(ValuesOf(Sorted(valid, k), ids)).publish;
            && (!InDispute(valid, k, d) ==>
                  && c.Some? && c.value.value == d.newValue && c.value.source == id
                  && (c.value.confidence == High <==> forall e :: e in valid && InGroup(e, k) ==> Agrees(d, e)))
            && (InDispute(valid, k, d) ==> (c.Some? <==> SomeAgree(valid, k)) && (c.Some? ==> c.value.confidence == High))
  {
    var v := ValuesOf(Sorted(valid, k), ids);
    FirstOfSorted(valid, k);
    DisputeIff(valid, ids, k, d);
    FirstAgreesIff(valid, ids, k, d);
    SilentIffAllApart(v);
    SomeAgreeIff(valid, ids, k);
    FlagNamesWorstPair(v);
  }

  lemma OutcomeSpeaks(s: State, s': State, valid: seq<PriceDiff>, ids: map<string, int>, k: GroupKey, model: int,
                      d: PriceDiff, id: int, f: Faults)
    requires |Sorted(valid, k)| >= 2 && IsTheFirst(valid, k, d) && HasId(ids, d.source, id)
    requires var x := Decide(ValuesOf(Sorted(valid, k), ids));
             s.log <= s'.log && Outcome(s, s', valid, k, model, !f.flag && x.flag.Some?, x.publish, f)
    ensures Speaks(s, s', valid, ids, k, model, d, id, f)
  {
    var x := Decide(ValuesOf(Sorted(valid, k), ids));
    DisputeIff(valid, ids, k, d);
    DueIs(valid, ids, k, d, id);
    if InDispute(valid, k, d) && SomeAgree(valid, k) && AllCanPublish(s, valid, ids, k, model, f) {
      ChoiceIsReport(valid, ids, k);
      var e :| e in valid && InGroup(e, k) && HasId(ids, e.source, x.publish.value.source) && e.newValue == x.publish.value.value;
      var st :| st in Logged(s, s') && st.PublishStep?;
      assert st.confidence == High;
    }
  }

  /** When two reports of a group come from different providers and their values fit the columns, the
      visit flags and publishes exactly when it should, and an unknown model or a failed lookup of it
      changes nothing. */
  lemma ConsensusSpeaks(s: State, valid: seq<PriceDiff>, ids: map<string, int>, env: Env, k: GroupKey,
                        p: PriceDiff, q: PriceDiff, d: PriceDiff, id: int)
    requires p in valid && q in valid && InGroup(p, k) && InGroup(q, k) && Behind(p) != Behind(q)
    requires forall e :: e in valid && InGroup(e, k) ==> InColumn(e.newValue)
    requires IsTheFirst(valid, k, d) && HasId(ids, d.source, id)
    ensures var s' := Step1(s, valid, ids, env, k);
            if k.slug !in s.db.models || env.faults(k).model then s' == s
            else s.log <= s'.log && Speaks(s, s', valid, ids, k, s.db.models[k.slug], d, id, env.faults(k))
  {
    TwoNamesAreNot(valid, k, p, q);
    var f := env.faults(k);
    if !Skipped(s, valid, k, f) {
      var model := s.db.models[k.slug];
      MultiOutcome(s, valid, ids, k, model, env.at(k), f);
      OutcomeSpeaks(s, Multi(s, k, model, Sorted(valid, k), ids, Sibling(valid, k), env.at(k), f), valid, ids, k, model, d, id, f);
    }
  }
}
