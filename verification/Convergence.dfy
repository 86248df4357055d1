/** Two identical scrapes settle the table of their source, whatever was pending or stored before
    (internal/worker/handlers.go, internal/diff/diff.go, internal/reconciler/reconciler.go). */
module Convergence {
  import opened Prices
  import opened DiffEngine
  import opened PriceStore
  import opened MultiSource
  import opened PendingMirror
  import opened Reconciler
  import opened CrashTransparency

  /** What one source reports, scan after scan, and the ids of the models it names. */
  datatype Feed = Feed(source: string, id: int, reports: seq<ScrapedModel>, models: map<string, int>)

  function Provider(r: ScrapedModel): string {
    if r.underlying != "" then r.underlying else r.source
  }

  ghost predicate GoodFeed(w: Feed) {
    && w.id >= 0
    && (forall a, b :: a in w.models && b in w.models && w.models[a] == w.models[b] ==> a == b)
    && (forall i :: 0 <= i < |w.reports| ==> GoodReport(w, w.reports[i]))
    && (forall i, j :: 0 <= i < j < |w.reports| ==> w.reports[i].slug != w.reports[j].slug)
    && (forall i, j :: 0 <= i < |w.reports| && 0 <= j < |w.reports| ==>
          !ProvidersCollide(Provider(w.reports[i]), Provider(w.reports[j])))
  }

  predicate GoodReport(w: Feed, r: ScrapedModel) {
    && r.source == w.source && r.slug in w.models
    && r.input > EPSILON && r.output > EPSILON && Fits(r.input) && Fits(r.output)
  }

  /** The rows of one source by slug, as the worker reads them. */
  function TableIndex(db: Db, id: int): map<string, Costs> {
    map slug | slug in db.models && RowKey(db.models[slug], id) in db.prices ::
      Costs(FromSteps(db.prices[RowKey(db.models[slug], id)].input),
            FromSteps(db.prices[RowKey(db.models[slug], id)].output))
  }

  function DiffsOf(w: Feed, s: State): seq<PriceDiff> {
    DiffAll(TableIndex(s.db, w.id), w.reports)
  }

  function SlugsOf(w: Feed): seq<string> {
    seq(|w.reports|, i requires 0 <= i < |w.reports| => w.reports[i].slug)
  }

  /** One pipeline run over the feed: diff, reconcile, stamp. */
  function Scan(w: Feed, s: State, order: seq<GroupKey>, env: Env): State {
    var s' := IdealCycle(s, Cycle(DiffsOf(w, s), order, env));
    s'.(db := Verify(s'.db, w.source, SlugsOf(w), env.verifyAt))
  }

  ghost predicate Faultless(env: Env) {
    env.badSources == {} && forall k :: env.faults(k) == Faults(false, false, false, false, false)
  }

  // ---------------------------------------------------------------- states over the feed

  predicate AtLeastOnce(p: Pending) {
    forall k :: k in p ==> p[k].count >= 1
  }

  predicate Over(w: Feed, s: State) {
    && s.db.models == w.models && w.source in s.db.sources && s.db.sources[w.source] == w.id
    && InRange(s.db) && AtLeastOnce(s.pending)
  }

  function Row(w: Feed, r: ScrapedModel): RowKey
    requires r.slug in w.models
  {
    RowKey(w.models[r.slug], w.id)
  }

  function Pkey(r: ScrapedModel, f: PriceField): string {
    PendingKey(r.slug, f, Provider(r))
  }

  predicate CloseTo(w: Feed, s: State, r: ScrapedModel, f: PriceField)
    requires r.slug in w.models
  {
    Row(w, r) in s.db.prices && Abs(Reported(r, f) - FromSteps(Column(s.db.prices[Row(w, r)], f))) < EPSILON
  }

  /** The stored value is within tolerance of the report, or is the report as the column stores it. */
  predicate Settled(w: Feed, s: State, r: ScrapedModel, f: PriceField)
    requires r.slug in w.models
  {
    CloseTo(w, s, r, f) ||
    (Row(w, r) in s.db.prices && Column(s.db.prices[Row(w, r)], f) == ToSteps(Reported(r, f)))
  }

  /** An observation of exactly this report is pending. */
  predicate Primed(s: State, r: ScrapedModel, f: PriceField) {
    Pkey(r, f) in s.pending && s.pending[Pkey(r, f)].value == Reported(r, f)
  }

  predicate PrimedSince(s: State, r: ScrapedModel, f: PriceField, t: int) {
    Primed(s, r, f) && s.pending[Pkey(r, f)].lastSeen >= t
  }

  predicate Moved(index: map<string, Costs>, r: ScrapedModel, f: PriceField) {
    DiffOne(index, r, f).Some?
  }

  // ---------------------------------------------------------------- grouping a scan

  lemma {:induction false} GroupOfConcat(a: seq<PriceDiff>, b: seq<PriceDiff>, k: GroupKey)
    ensures GroupOf(a + b, k) == GroupOf(a, k) + GroupOf(b, k)
  {
    if b == [] {
      assert a + b == a;
    } else {
      var n := |b| - 1;
      assert (a + b)[..|a + b| - 1] == a + b[..n];
      GroupOfConcat(a, b[..n], k);
    }
  }

  lemma GroupOfModel(index: map<string, Costs>, r: ScrapedModel, k: GroupKey)
    ensures GroupOf(DiffModel(index, r), k) == if r.slug == k.slug then Listed(DiffOne(index, r, k.field)) else []
  {
    var a, b := Listed(DiffOne(index, r, Input)), Listed(DiffOne(index, r, Output));
    GroupOfConcat(a, b, k);
    assert |a| == 1 ==> a[..0] == [];
    assert |b| == 1 ==> b[..0] == [];
  }

  lemma GroupOfLast(index: map<string, Costs>, rs: seq<ScrapedModel>, k: GroupKey)
    requires rs != []
    ensures var n := |rs| - 1;
            GroupOf(DiffAll(index, rs), k) ==
            GroupOf(DiffAll(index, rs[..n]), k) + (if rs[n].slug == k.slug then Listed(DiffOne(index, rs[n], k.field)) else [])
  {
    var n := |rs| - 1;
    GroupOfModel(index, rs[n], k);
    GroupOfConcat(DiffAll(index, rs[..n]), DiffModel(index, rs[n]), k);
  }

  lemma {:induction false} NoGroup(index: map<string, Costs>, rs: seq<ScrapedModel>, k: GroupKey)
    requires forall i :: 0 <= i < |rs| ==> rs[i].slug != k.slug
    ensures GroupOf(DiffAll(index, rs), k) == []
  {
    if rs != [] {
      var n := |rs| - 1;
      NoGroup(index, rs[..n], k);
      GroupOfLast(index, rs, k);
    }
  }

  /** With distinct slugs every group of a scan holds the one diff of its model and field. */
  lemma {:induction false} OneDiffPerGroup(index: map<string, Costs>, rs: seq<ScrapedModel>, i: nat, f: PriceField)
    requires i < |rs| && forall a, b :: 0 <= a < b < |rs| ==> rs[a].slug != rs[b].slug
    ensures GroupOf(DiffAll(index, rs), GroupKey(rs[i].slug, f)) == Listed(DiffOne(index, rs[i], f))
  {
    var n, k := |rs| - 1, GroupKey(rs[i].slug, f);
    GroupOfLast(index, rs, k);
    if i == n {
      NoGroup(index, rs[..n], k);
    } else {
      OneDiffPerGroup(index, rs[..n], i, f);
    }
  }

  /** Every visited key belongs to a report that moved. */
  lemma KeyHasReport(w: Feed, index: map<string, Costs>, k: GroupKey) returns (i: nat)
    requires GoodFeed(w) && k in Keys(DiffAll(index, w.reports))
    ensures i < |w.reports| && w.reports[i].slug == k.slug && Moved(index, w.reports[i], k.field)
  {
    var d :| d in DiffAll(index, w.reports) && KeyOf(d) == k;
    DiffMembers(index, w.reports, d);
    i :| 0 <= i < |w.reports| && DiffOne(index, w.reports[i], d.field) == Some(d);
  }

  lemma {:induction false} AllSourcesResolve(diffs: seq<PriceDiff>, ids: map<string, int>)
    requires forall d :: d in diffs ==> IdOf(ids, d.source) >= 0
    ensures Valid(diffs, ids) == diffs
  {
    if diffs != [] {
      AllSourcesResolve(diffs[..|diffs| - 1], ids);
    }
  }

  lemma ScanIsValid(w: Feed, s: State, diffs: seq<PriceDiff>)
    requires GoodFeed(w) && Over(w, s) && diffs == DiffsOf(w, s)
    ensures var ids := SourceIds(s.db, diffs, {});
            Valid(diffs, ids) == diffs && (diffs != [] ==> IdOf(ids, w.source) == w.id)
  {
    var ids := SourceIds(s.db, diffs, {});
    forall d | d in diffs
      ensures d.source == w.source && IdOf(ids, d.source) == w.id
    {
      FeedSource(w, TableIndex(s.db, w.id), d);
      assert d.source in SourceNames(diffs);
    }
    AllSourcesResolve(diffs, ids);
    if diffs != [] {
      assert diffs[0] in diffs;
    }
  }

  lemma FeedSource(w: Feed, index: map<string, Costs>, d: PriceDiff)
    requires GoodFeed(w) && d in DiffAll(index, w.reports)
    ensures d.source == w.source
  {
    DiffMembers(index, w.reports, d);
    var i :| 0 <= i < |w.reports| && DiffOne(index, w.reports[i], d.field) == Some(d);
    assert GoodReport(w, w.reports[i]);
  }

  // ---------------------------------------------------------------- one visited group

  /** The group of a moved field is handled by the single-source gate. */
  lemma VisitIsSingle(w: Feed, s: State, index: map<string, Costs>, ids: map<string, int>, env: Env, i: nat, f: PriceField)
    requires GoodFeed(w) && Over(w, s) && Faultless(env) && i < |w.reports|
    requires IdOf(ids, w.source) == w.id && Moved(index, w.reports[i], f)
    ensures var r := w.reports[i];
            var k := GroupKey(r.slug, f);
            var sibling := if Moved(index, r, OtherField(f)) then Reported(r, OtherField(f)) else 0.0;
            Step1(s, DiffAll(index, w.reports), ids, env, k) ==
            Single(s, k, Row(w, r), DiffOne(index, r, f).value, sibling, env.at(k), env.faults(k))
  {
    var r, valid := w.reports[i], DiffAll(index, w.reports);
    var k := GroupKey(r.slug, f);
    var d := DiffOne(index, r, f).value;
    OneDiffPerGroup(index, w.reports, i, f);
    OneDiffPerGroup(index, w.reports, i, OtherField(f));
    SortedSingle(valid, k, d);
    FeedSource(w, index, d);
  }

  lemma SortedSingle(valid: seq<PriceDiff>, k: GroupKey, d: PriceDiff)
    requires GroupOf(valid, k) == [d]
    ensures Sorted(valid, k) == [d] && IsSingle([d]) && d in valid
  {
    SortOne(d);
    GroupMember(valid, k, d);
  }

  lemma {:induction false} GroupMember(valid: seq<PriceDiff>, k: GroupKey, d: PriceDiff)
    requires d in GroupOf(valid, k)
    ensures d in valid
  {
    if valid != [] && d != valid[|valid| - 1] {
      GroupMember(valid[..|valid| - 1], k, d);
    }
  }

  /** The row that publishing field f of report r leaves. */
  predicate PublishedRow(w: Feed, s: State, r: ScrapedModel, f: PriceField, row: PriceRow)
    requires r.slug in w.models
  {
    && Column(row, f) == ToSteps(Reported(r, f))
    && Column(row, OtherField(f)) ==
         if Row(w, r) in s.db.prices && Column(s.db.prices[Row(w, r)], OtherField(f)) > 0
         then Column(s.db.prices[Row(w, r)], OtherField(f))
         else ToSteps(Reported(r, OtherField(f)))
  }

  /** The history row of a publish that leaves this price row. */
  function RowWritten(key: RowKey, row: PriceRow, now: int, under: string): HistoryRow {
    HistoryRow(key, row.input, row.output, now, Some(under), ByReconciler)
  }

  lemma PublishSucceeds(w: Feed, s: State, r: ScrapedModel, f: PriceField, conf: Confidence, under: string,
                        sibling: real, now: int, faults: Faults)
    requires Over(w, s) && GoodReport(w, r) && faults == Faults(false, false, false, false, false)
    requires CloseTo(w, s, r, OtherField(f)) || sibling == Reported(r, OtherField(f))
    ensures var s' := PublishTo(s, Row(w, r), f, Reported(r, f), conf, under, sibling, now, faults);
            && s'.pending == s.pending && Over(w, s')
            && s'.db.prices.Keys == s.db.prices.Keys + {Row(w, r)}
            && (forall k :: k in s.db.prices && k != Row(w, r) ==> s'.db.prices[k] == s.db.prices[k])
            && PublishedRow(w, s, r, f, s'.db.prices[Row(w, r)])
            && s'.db.history == Append(s.db.history, RowWritten(Row(w, r), s'.db.prices[Row(w, r)], now, under))
  {
    var key, g := Row(w, r), OtherField(f);
    if key in s.db.prices {
      var n := Column(s.db.prices[key], g);
      StoredSign(n);
      RereadSteps(n);
    }
    var kept := Completed(s.db, key, f, g, Reported(r, f), sibling, false);
    assert Completed(s.db, key, f, f, Reported(r, f), sibling, false) == Reported(r, f);
    assert kept > 0.0 && Fits(kept);
  }

  lemma GateStep(p: Pending, key: string, value: real, source: string, found: bool, now: int)
    requires AtLeastOnce(p)
    ensures var g := Gate(p, key, value, source, found, now);
            && AtLeastOnce(g.pending)
            && (forall q :: q != key ==> (q in g.pending <==> q in p) && (q in p ==> g.pending[q] == p[q]))
            && (g.verdict == Hold ==> key in g.pending && g.pending[key] == Entry(value, source, 1, now))
            && (key in p && p[key].value == value ==> g.verdict == Confirmed)
  {
  }

  /** s' differs from s at most in the row of r and the pending entry of (r, f). */
  ghost predicate Touches(w: Feed, s: State, s': State, r: ScrapedModel, f: PriceField)
    requires r.slug in w.models
  {
    && (s'.db.prices == s.db.prices ||
        (&& s'.db.prices.Keys == s.db.prices.Keys + {Row(w, r)}
         && (forall q :: q in s.db.prices && q != Row(w, r) ==> s'.db.prices[q] == s.db.prices[q])
         && PublishedRow(w, s, r, f, s'.db.prices[Row(w, r)])))
    && (forall q :: q != Pkey(r, f) ==>
          (q in s'.pending <==> q in s.pending) && (q in s.pending ==> s'.pending[q] == s.pending[q]))
  }

  /** The gate on a field of the feed, followed by its publish if any. */
  lemma GatedVisit(w: Feed, s: State, r: ScrapedModel, f: PriceField, k: GroupKey, d: PriceDiff,
                   sibling: real, now: int, faults: Faults)
    requires Over(w, s) && GoodReport(w, r) && faults == Faults(false, false, false, false, false)
    requires k == GroupKey(r.slug, f) && d.newValue == Reported(r, f) && SingleKey(k, d) == Pkey(r, f)
    requires CloseTo(w, s, r, OtherField(f)) || sibling == Reported(r, OtherField(f))
    ensures var s' := Single(s, k, Row(w, r), d, sibling, now, faults);
            && Over(w, s') && Touches(w, s, s', r, f)
            && (Settled(w, s', r, f) || PrimedSince(s', r, f, now))
            && (Settled(w, s, r, f) || Primed(s, r, f) ==> Settled(w, s', r, f))
  {
    var key := Row(w, r);
    GateStep(s.pending, Pkey(r, f), d.newValue, d.source, key in s.db.prices, now);
    var g := SingleGate(s, k, key, d, now, faults);
    if g.verdict != Hold {
      var conf := if g.verdict == FirstSeen then Low else Medium;
      PublishSucceeds(w, s.(pending := g.pending), r, f, conf, d.underlying, sibling, now, faults);
    }
  }

  /** Visiting the group of (i, f) settles or primes it, and settles it if it was primed. */
  lemma VisitEffect(w: Feed, s: State, index: map<string, Costs>, ids: map<string, int>, env: Env, i: nat, f: PriceField)
    requires GoodFeed(w) && Over(w, s) && Faultless(env) && i < |w.reports|
    requires IdOf(ids, w.source) == w.id && Moved(index, w.reports[i], f)
    requires !Moved(index, w.reports[i], OtherField(f)) ==> CloseTo(w, s, w.reports[i], OtherField(f))
    ensures var r, k := w.reports[i], GroupKey(w.reports[i].slug, f);
            var s' := Step1(s, DiffAll(index, w.reports), ids, env, k);
            && Over(w, s') && Touches(w, s, s', r, f)
            && (Settled(w, s', r, f) || PrimedSince(s', r, f, env.at(k)))
            && (Settled(w, s, r, f) || Primed(s, r, f) ==> Settled(w, s', r, f))
  {
    var r := w.reports[i];
    var k, d := GroupKey(r.slug, f), DiffOne(index, r, f).value;
    var sibling := if Moved(index, r, OtherField(f)) then Reported(r, OtherField(f)) else 0.0;
    VisitIsSingle(w, s, index, ids, env, i, f);
    GatedVisit(w, s, r, f, k, d, sibling, env.at(k), env.faults(k));
  }

  /** The visit leaves every other field of the feed as it was. */
  lemma OthersKept(w: Feed, s: State, s': State, i: nat, f: PriceField, j: nat, g: PriceField, t: int)
    requires GoodFeed(w) && i < |w.reports| && j < |w.reports| && (j == i ==> g != f)
    requires Touches(w, s, s', w.reports[i], f)
    ensures var r := w.reports[j];
            && (CloseTo(w, s, r, g) ==> CloseTo(w, s', r, g))
            && (Settled(w, s, r, g) ==> Settled(w, s', r, g))
            && (Primed(s, r, g) ==> Primed(s', r, g))
            && (PrimedSince(s, r, g, t) ==> PrimedSince(s', r, g, t))
  {
    var q, r := w.reports[i], w.reports[j];
    assert q.slug == r.slug <==> i == j;
    KeyInjective(q.slug, f, Provider(q), r.slug, g, Provider(r));
    if i == j && Row(w, r) in s.db.prices {
      StoredSign(Column(s.db.prices[Row(w, r)], g));
    }
  }

  // ---------------------------------------------------------------- a whole pass

  lemma MovedIffNotClose(w: Feed, s: State, r: ScrapedModel, f: PriceField)
    requires GoodReport(w, r) && s.db.models == w.models
    ensures Moved(TableIndex(s.db, w.id), r, f) <==> !CloseTo(w, s, r, f)
  {
  }

  /** Fields the diff did not report stay close through the pass. */
  predicate RestClose(w: Feed, s: State, index: map<string, Costs>)
    requires forall i :: 0 <= i < |w.reports| ==> w.reports[i].slug in w.models
  {
    forall j, g :: 0 <= j < |w.reports| && !Moved(index, w.reports[j], g) ==> CloseTo(w, s, w.reports[j], g)
  }

  /** Every field visited so far is settled or freshly primed. */
  predicate VisitedDone(w: Feed, s: State, env: Env, done: seq<GroupKey>)
    requires forall i :: 0 <= i < |w.reports| ==> w.reports[i].slug in w.models
  {
    forall j, g :: 0 <= j < |w.reports| && GroupKey(w.reports[j].slug, g) in done ==>
      Settled(w, s, w.reports[j], g) || PrimedSince(s, w.reports[j], g, env.at(GroupKey(w.reports[j].slug, g)))
  }

  /** Every field is settled, or primed and still to be visited. */
  predicate NearlySettled(w: Feed, s: State, done: seq<GroupKey>)
    requires forall i :: 0 <= i < |w.reports| ==> w.reports[i].slug in w.models
  {
    forall j, g :: 0 <= j < |w.reports| ==>
      Settled(w, s, w.reports[j], g) || (GroupKey(w.reports[j].slug, g) !in done && Primed(s, w.reports[j], g))
  }

  /** s' agrees with s on every field of the feed but (i, f). */
  ghost predicate KeepsOthers(w: Feed, s: State, s': State, env: Env, i: nat, f: PriceField)
    requires GoodFeed(w)
  {
    forall j, g :: 0 <= j < |w.reports| && !(j == i && g == f) ==>
      var r := w.reports[j];
      && (CloseTo(w, s, r, g) ==> CloseTo(w, s', r, g))
      && (Settled(w, s, r, g) ==> Settled(w, s', r, g))
      && (Primed(s, r, g) ==> Primed(s', r, g))
      && (PrimedSince(s, r, g, env.at(GroupKey(r.slug, g))) ==> PrimedSince(s', r, g, env.at(GroupKey(r.slug, g))))
  }

  lemma VisitKeepsOthers(w: Feed, s: State, s': State, env: Env, i: nat, f: PriceField)
    requires GoodFeed(w) && i < |w.reports| && Touches(w, s, s', w.reports[i], f)
    ensures KeepsOthers(w, s, s', env, i, f)
  {
    forall j, g | 0 <= j < |w.reports| && !(j == i && g == f)
      ensures var r := w.reports[j];
              && (CloseTo(w, s, r, g) ==> CloseTo(w, s', r, g))
              && (Settled(w, s, r, g) ==> Settled(w, s', r, g))
              && (Primed(s, r, g) ==> Primed(s', r, g))
              && (PrimedSince(s, r, g, env.at(GroupKey(r.slug, g))) ==> PrimedSince(s', r, g, env.at(GroupKey(r.slug, g))))
    {
      OthersKept(w, s, s', i, f, j, g, env.at(GroupKey(w.reports[j].slug, g)));
    }
  }

  lemma PassRest(w: Feed, s: State, s': State, index: map<string, Costs>, env: Env, i: nat, f: PriceField)
    requires GoodFeed(w) && i < |w.reports| && Moved(index, w.reports[i], f)
    requires KeepsOthers(w, s, s', env, i, f) && RestClose(w, s, index)
    ensures RestClose(w, s', index)
  {
  }

  lemma PassVisited(w: Feed, s: State, s': State, env: Env, done: seq<GroupKey>, i: nat, f: PriceField)
    requires GoodFeed(w) && i < |w.reports| && KeepsOthers(w, s, s', env, i, f)
    requires Settled(w, s', w.reports[i], f) || PrimedSince(s', w.reports[i], f, env.at(GroupKey(w.reports[i].slug, f)))
    requires VisitedDone(w, s, env, done)
    ensures VisitedDone(w, s', env, done + [GroupKey(w.reports[i].slug, f)])
  {
    var k := GroupKey(w.reports[i].slug, f);
    forall j, g | 0 <= j < |w.reports| && GroupKey(w.reports[j].slug, g) in done + [k]
      ensures Settled(w, s', w.reports[j], g) || PrimedSince(s', w.reports[j], g, env.at(GroupKey(w.reports[j].slug, g)))
    {
      assert GroupKey(w.reports[j].slug, g) == k ==> j == i && g == f;
    }
  }

  lemma PassSettles(w: Feed, s: State, s': State, env: Env, done: seq<GroupKey>, i: nat, f: PriceField)
    requires GoodFeed(w) && i < |w.reports| && KeepsOthers(w, s, s', env, i, f)
    requires Settled(w, s', w.reports[i], f)
    requires NearlySettled(w, s, done)
    ensures NearlySettled(w, s', done + [GroupKey(w.reports[i].slug, f)])
  {
    var k := GroupKey(w.reports[i].slug, f);
    forall j, g | 0 <= j < |w.reports|
      ensures Settled(w, s', w.reports[j], g) ||
              (GroupKey(w.reports[j].slug, g) !in done + [k] && Primed(s', w.reports[j], g))
    {
      assert GroupKey(w.reports[j].slug, g) == k ==> j == i && g == f;
    }
  }

  /** What holds while a pass is under way; `primed` says whether it began nearly settled. */
  ghost predicate UnderWay(w: Feed, s: State, index: map<string, Costs>, env: Env, done: seq<GroupKey>, primed: bool)
    requires GoodFeed(w)
  {
    Over(w, s) && RestClose(w, s, index) && VisitedDone(w, s, env, done) && (primed ==> NearlySettled(w, s, done))
  }

  lemma PassStep(w: Feed, s: State, index: map<string, Costs>, ids: map<string, int>, env: Env,
                 done: seq<GroupKey>, k: GroupKey, primed: bool)
    requires GoodFeed(w) && Faultless(env) && IdOf(ids, w.source) == w.id
    requires k in Keys(DiffAll(index, w.reports)) && k !in done
    requires UnderWay(w, s, index, env, done, primed)
    ensures UnderWay(w, Step1(s, DiffAll(index, w.reports), ids, env, k), index, env, done + [k], primed)
  {
    var i := KeyHasReport(w, index, k);
    var s' := Step1(s, DiffAll(index, w.reports), ids, env, k);
    VisitEffect(w, s, index, ids, env, i, k.field);
    VisitKeepsOthers(w, s, s', env, i, k.field);
    PassRest(w, s, s', index, env, i, k.field);
    PassVisited(w, s, s', env, done, i, k.field);
    if primed {
      assert Settled(w, s, w.reports[i], k.field) || Primed(s, w.reports[i], k.field);
      PassSettles(w, s, s', env, done, i, k.field);
    }
  }

  lemma {:induction false} Pass(w: Feed, s: State, index: map<string, Costs>, ids: map<string, int>, env: Env,
                                order: seq<GroupKey>, n: nat, primed: bool)
    requires GoodFeed(w) && Faultless(env) && IdOf(ids, w.source) == w.id && n <= |order|
    requires IsOrder(order, Keys(DiffAll(index, w.reports)))
    requires UnderWay(w, s, index, env, [], primed)
    ensures UnderWay(w, Steps(s, DiffAll(index, w.reports), ids, env, order[..n]), index, env, order[..n], primed)
  {
    if n > 0 {
      Pass(w, s, index, ids, env, order, n - 1, primed);
      assert order[..n][..n - 1] == order[..n - 1] && order[..n] == order[..n - 1] + [order[n - 1]];
      PassStep(w, Steps(s, DiffAll(index, w.reports), ids, env, order[..n - 1]), index, ids, env,
               order[..n - 1], order[n - 1], primed);
    }
  }

  lemma VerifyKeepsColumns(w: Feed, s: State, now: int)
    requires GoodFeed(w) && Over(w, s)
    ensures var s' := s.(db := Verify(s.db, w.source, SlugsOf(w), now));
            && Over(w, s')
            && forall j, g :: 0 <= j < |w.reports| ==>
                 && (Settled(w, s', w.reports[j], g) <==> Settled(w, s, w.reports[j], g))
                 && (CloseTo(w, s', w.reports[j], g) <==> CloseTo(w, s, w.reports[j], g))
                 && s'.pending == s.pending
  {
  }

  predicate AllSettled(w: Feed, s: State)
    requires forall i :: 0 <= i < |w.reports| ==> w.reports[i].slug in w.models
  {
    forall j, g :: 0 <= j < |w.reports| ==> Settled(w, s, w.reports[j], g)
  }

  /** The moved fields are those not within tolerance, and each has its group. */
  lemma MovedGroups(w: Feed, s: State, j: nat, g: PriceField)
    requires GoodFeed(w) && Over(w, s) && j < |w.reports|
    ensures Moved(TableIndex(s.db, w.id), w.reports[j], g) <==> !CloseTo(w, s, w.reports[j], g)
    ensures Moved(TableIndex(s.db, w.id), w.reports[j], g) ==> GroupKey(w.reports[j].slug, g) in Keys(DiffsOf(w, s))
  {
    MovedIffNotClose(w, s, w.reports[j], g);
    OneDiffPerGroup(TableIndex(s.db, w.id), w.reports, j, g);
    GroupNotEmpty(DiffsOf(w, s), GroupKey(w.reports[j].slug, g));
  }

  /** Every field is settled, or its report is pending since the scan's visit of its group. */
  predicate SettledOrWaiting(w: Feed, s: State, env: Env)
    requires forall i :: 0 <= i < |w.reports| ==> w.reports[i].slug in w.models
  {
    forall j, g :: 0 <= j < |w.reports| ==>
      Settled(w, s, w.reports[j], g) || PrimedSince(s, w.reports[j], g, env.at(GroupKey(w.reports[j].slug, g)))
  }

  lemma AfterPass(w: Feed, s: State, s': State, order: seq<GroupKey>, env: Env)
    requires GoodFeed(w) && Over(w, s) && IsOrder(order, Keys(DiffsOf(w, s)))
    requires RestClose(w, s', TableIndex(s.db, w.id)) && VisitedDone(w, s', env, order)
    ensures SettledOrWaiting(w, s', env)
    ensures NearlySettled(w, s', order) ==> AllSettled(w, s')
  {
    forall j, g | 0 <= j < |w.reports|
      ensures CloseTo(w, s', w.reports[j], g) || GroupKey(w.reports[j].slug, g) in order
    {
      MovedGroups(w, s, j, g);
    }
  }

  lemma SweptStart(w: Feed, s: State, env: Env)
    requires GoodFeed(w) && Over(w, s)
    ensures var s0 := s.(pending := Live(s.pending, env.sweepAt));
            Over(w, s0) && RestClose(w, s0, TableIndex(s.db, w.id))
  {
    forall j, g | 0 <= j < |w.reports|
      ensures Moved(TableIndex(s.db, w.id), w.reports[j], g) <==> !CloseTo(w, s, w.reports[j], g)
    {
      MovedGroups(w, s, j, g);
    }
  }

  lemma OneCycle(w: Feed, s: State, order: seq<GroupKey>, env: Env)
    requires GoodFeed(w) && Over(w, s) && Faultless(env) && IsOrder(order, Keys(DiffsOf(w, s)))
    ensures var s' := IdealCycle(s, Cycle(DiffsOf(w, s), order, env));
            && Over(w, s') && SettledOrWaiting(w, s', env)
            && (NearlySettled(w, s.(pending := Live(s.pending, env.sweepAt)), []) ==> AllSettled(w, s'))
  {
    var diffs := DiffsOf(w, s);
    ScanIsValid(w, s, diffs);
    if diffs != [] {
      WholePass(w, s, order, env, SourceIds(s.db, diffs, {}));
    } else {
      SilentIffClose(w, s);
    }
  }

  lemma WholePass(w: Feed, s: State, order: seq<GroupKey>, env: Env, ids: map<string, int>)
    requires GoodFeed(w) && Over(w, s) && Faultless(env) && IsOrder(order, Keys(DiffsOf(w, s))) && IdOf(ids, w.source) == w.id
    ensures var s0 := s.(pending := Live(s.pending, env.sweepAt));
            var s' := Steps(s0, DiffsOf(w, s), ids, env, order);
            && Over(w, s') && SettledOrWaiting(w, s', env)
            && (NearlySettled(w, s0, []) ==> AllSettled(w, s'))
  {
    var s0 := s.(pending := Live(s.pending, env.sweepAt));
    SweptStart(w, s, env);
    Pass(w, s0, TableIndex(s.db, w.id), ids, env, order, |order|, NearlySettled(w, s0, []));
    assert order[..|order|] == order;
    AfterPass(w, s, Steps(s0, DiffsOf(w, s), ids, env, order), order, env);
  }

  /** After one scan every field is settled, or its report waits in the pending map. */
  lemma OneScan(w: Feed, s: State, order: seq<GroupKey>, env: Env)
    requires GoodFeed(w) && Over(w, s) && Faultless(env) && IsOrder(order, Keys(DiffsOf(w, s)))
    ensures var s' := Scan(w, s, order, env);
            && Over(w, s') && SettledOrWaiting(w, s', env)
            && (NearlySettled(w, s.(pending := Live(s.pending, env.sweepAt)), []) ==> AllSettled(w, s'))
  {
    OneCycle(w, s, order, env);
    VerifyKeepsColumns(w, IdealCycle(s, Cycle(DiffsOf(w, s), order, env)), env.verifyAt);
  }

  lemma SilentIffClose(w: Feed, s: State)
    requires GoodFeed(w) && Over(w, s)
    ensures DiffsOf(w, s) == [] <==> forall j, g :: 0 <= j < |w.reports| ==> CloseTo(w, s, w.reports[j], g)
  {
    var index := TableIndex(s.db, w.id);
    SilentIff(index, w.reports);
    forall j | 0 <= j < |w.reports|
      ensures Unchanged(index, w.reports[j]) <==> CloseTo(w, s, w.reports[j], Input) && CloseTo(w, s, w.reports[j], Output)
    {
      var r := w.reports[j];
      MovedIffNotClose(w, s, r, Input);
      MovedIffNotClose(w, s, r, Output);
    }
  }

  predicate AllRepresentable(w: Feed) {
    forall j :: 0 <= j < |w.reports| ==> Representable(w.reports[j].input) && Representable(w.reports[j].output)
  }

  /** A report the columns cannot hold within the tolerance keeps every state restless; without
      one, a settled table is silent. */
  lemma SettledSilentIff(w: Feed, s: State)
    requires GoodFeed(w) && Over(w, s)
    ensures DiffsOf(w, s) == [] ==> AllRepresentable(w)
    ensures AllSettled(w, s) && AllRepresentable(w) ==> DiffsOf(w, s) == []
  {
    SilentIffClose(w, s);
    forall j, g | 0 <= j < |w.reports|
      ensures CloseTo(w, s, w.reports[j], g) <==> Settled(w, s, w.reports[j], g) && Representable(Reported(w.reports[j], g))
    {
      CloseIff(w, s, w.reports[j], g);
    }
    forall j | 0 <= j < |w.reports|
      ensures Representable(w.reports[j].input) <==> Representable(Reported(w.reports[j], Input))
      ensures Representable(w.reports[j].output) <==> Representable(Reported(w.reports[j], Output))
    {
    }
  }

  lemma CloseIff(w: Feed, s: State, r: ScrapedModel, g: PriceField)
    requires r.slug in w.models
    ensures CloseTo(w, s, r, g) <==> Settled(w, s, r, g) && Representable(Reported(r, g))
  {
    if CloseTo(w, s, r, g) {
      OnlyRoundingIsClose(Column(s.db.prices[Row(w, r)], g), Reported(r, g));
    }
  }

  lemma WaitingSurvivesSweep(w: Feed, s: State, env1: Env, env2: Env)
    requires GoodFeed(w) && SettledOrWaiting(w, s, env1)
    requires forall k :: env2.sweepAt - PENDING_TTL <= env1.at(k)
    ensures NearlySettled(w, s.(pending := Live(s.pending, env2.sweepAt)), [])
  {
  }

  /** From any pending map and any stored table, two scans of the same feed less than 72 hours
      apart, with groups visited in any orders, settle every reported price; the next diff is then
      empty exactly when the NUMERIC(20,10) columns can hold every reported price. */
  lemma TwoScansConverge(w: Feed, s: State, order1: seq<GroupKey>, env1: Env, order2: seq<GroupKey>, env2: Env)
    requires GoodFeed(w) && Over(w, s) && Faultless(env1) && Faultless(env2)
    requires IsOrder(order1, Keys(DiffsOf(w, s)))
    requires IsOrder(order2, Keys(DiffsOf(w, Scan(w, s, order1, env1))))
    requires forall k :: env2.sweepAt - PENDING_TTL <= env1.at(k)
    ensures var s2 := Scan(w, Scan(w, s, order1, env1), order2, env2);
            && Over(w, s2) && AllSettled(w, s2)
            && (DiffsOf(w, s2) == [] <==> AllRepresentable(w))
  {
    OneScan(w, s, order1, env1);
    var s1 := Scan(w, s, order1, env1);
    WaitingSurvivesSweep(w, s1, env1, env2);
    OneScan(w, s1, order2, env2);
    SettledSilentIff(w, Scan(w, s1, order2, env2));
  }

  function Scans(w: Feed, s: State, orders: seq<seq<GroupKey>>, envs: seq<Env>): State
    requires |orders| == |envs|
  {
    if orders == [] then s
    else
      var n := |orders| - 1;
      Scan(w, Scans(w, s, orders[..n], envs[..n]), orders[n], envs[n])
  }

  /** Once the diff of a feed is empty, no number of further scans writes a price, touches the
      pending map or grows history; only verification stamps move. */
  lemma {:induction false} QuietForever(w: Feed, s: State, orders: seq<seq<GroupKey>>, envs: seq<Env>)
    requires |orders| == |envs| && GoodFeed(w) && Over(w, s) && DiffsOf(w, s) == []
    ensures var s' := Scans(w, s, orders, envs);
            && Over(w, s') && DiffsOf(w, s') == []
            && s'.log == s.log && s'.pending == s.pending
            && s'.db.history == s.db.history && s'.db.review == s.db.review
            && s'.db.prices.Keys == s.db.prices.Keys
            && forall k :: k in s.db.prices ==> s'.db.prices[k].(verifiedAt := None) == s.db.prices[k].(verifiedAt := None)
  {
    if orders != [] {
      var n := |orders| - 1;
      QuietForever(w, s, orders[..n], envs[..n]);
      var m := Scans(w, s, orders[..n], envs[..n]);
      VerifyKeepsColumns(w, m, envs[n].verifyAt);
      SilentIffClose(w, m);
      SilentIffClose(w, Scan(w, m, orders[n], envs[n]));
    }
  }
}
