/** Ranging over the Go map of groups in any order gives the same prices and the same pending map
    (internal/reconciler/reconciler.go). */
module VisitOrder {
  import opened Folds
  import opened Prices
  import opened DiffEngine
  import opened PriceStore
  import opened MultiSource
  import opened PendingMirror
  import opened Reconciler
  import opened CrashTransparency

  datatype Quote = Quote(input: int, output: int, confidence: Confidence)

  /** The part of the state that must not depend on the order: values, confidences, pending. */
  datatype Essence = Essence(quotes: map<RowKey, Quote>, pending: Pending)

  function QuotesOf(prices: map<RowKey, PriceRow>): map<RowKey, Quote> {
    map k | k in prices :: Quote(prices[k].input, prices[k].output, prices[k].confidence)
  }

  function EssenceOf(s: State): Essence {
    Essence(QuotesOf(s.db.prices), s.pending)
  }

  function SetColumn(q: Quote, f: PriceField, n: int): Quote {
    match f
    case Input => Quote(n, q.output, Medium)
    case Output => Quote(q.input, n, Medium)
  }

  /** The cycle's groups, each holding one diff. */
  datatype Batch = Batch(valid: seq<PriceDiff>, ids: map<string, int>, env: Env, models: map<string, int>)

  function DiffAt(b: Batch, k: GroupKey): PriceDiff
    requires |GroupOf(b.valid, k)| == 1
  {
    GroupOf(b.valid, k)[0]
  }

  ghost predicate GoodBatch(b: Batch) {
    && (forall k :: k in Keys(b.valid) ==> |GroupOf(b.valid, k)| == 1)
    && (forall k :: k in Keys(b.valid) ==> KeyOf(DiffAt(b, k)) == k)
    && (forall j, k :: j in Keys(b.valid) && k in Keys(b.valid) ==>
          !ProvidersCollide(EffectiveProvider(DiffAt(b, j)), EffectiveProvider(DiffAt(b, k))))
    && (forall x, y :: x in b.models && y in b.models && b.models[x] == b.models[y] ==> x == y)
    && (forall k :: !b.env.faults(k).price)
  }

  function RowAt(b: Batch, k: GroupKey): RowKey
    requires |GroupOf(b.valid, k)| == 1 && k.slug in b.models
  {
    RowKey(b.models[k.slug], IdOf(b.ids, DiffAt(b, k).source))
  }

  predicate Reaches(b: Batch, k: GroupKey) {
    |GroupOf(b.valid, k)| == 1 && k.slug in b.models && !b.env.faults(k).model
  }

  /** A column is positive, or it is a tiny positive report of this cycle stored as zero. */
  predicate ColumnGood(b: Batch, s: State, k: GroupKey, f: PriceField)
    requires Reaches(b, k) && RowAt(b, k) in s.db.prices
  {
    var n, other := Column(s.db.prices[RowAt(b, k)], f), GroupKey(k.slug, f);
    n > 0 ||
    (&& Reaches(b, other) && RowAt(b, other) == RowAt(b, k)
     && DiffAt(b, other).newValue > 0.0 && n == ToSteps(DiffAt(b, other).newValue))
  }

  predicate Solid(b: Batch, s: State) {
    && s.db.models == b.models && InRange(s.db)
    && (forall k :: k in Keys(b.valid) && Reaches(b, k) ==> RowAt(b, k) in s.db.prices)
    && (forall k, f :: k in Keys(b.valid) && Reaches(b, k) ==> ColumnGood(b, s, k, f))
  }

  // ---------------------------------------------------------------- the visit on essences

  function Visit(b: Batch, e: Essence, k: GroupKey): Essence {
    if !Reaches(b, k) then e
    else
      var d, row := DiffAt(b, k), RowAt(b, k);
      var g := Gate(e.pending, SingleKey(k, d), d.newValue, d.source, true, b.env.at(k));
      Essence(
        if g.verdict == Confirmed && d.newValue > 0.0 && Fits(d.newValue) && !b.env.faults(k).publish && row in e.quotes
        then e.quotes[row := SetColumn(e.quotes[row], k.field, ToSteps(d.newValue))]
        else e.quotes,
        g.pending)
  }

  function VisitSeq(b: Batch, e: Essence, order: seq<GroupKey>): Essence {
    Fold((e: Essence, k: GroupKey) => Visit(b, e, k), e, order)
  }

  lemma GatesCommute(p: Pending, k1: string, v1: real, s1: string, t1: int, k2: string, v2: real, s2: string, t2: int)
    requires k1 != k2
    ensures var g1, g2 := Gate(p, k1, v1, s1, true, t1), Gate(p, k2, v2, s2, true, t2);
            var h1, h2 := Gate(g2.pending, k1, v1, s1, true, t1), Gate(g1.pending, k2, v2, s2, true, t2);
            h1.verdict == g1.verdict && h2.verdict == g2.verdict && h1.pending == h2.pending
  {
  }

  lemma DistinctGroupsDistinctKeys(b: Batch, j: GroupKey, k: GroupKey)
    requires GoodBatch(b) && j in Keys(b.valid) && k in Keys(b.valid) && j != k
    ensures SingleKey(j, DiffAt(b, j)) != SingleKey(k, DiffAt(b, k))
    ensures Reaches(b, j) && Reaches(b, k) && RowAt(b, j) == RowAt(b, k) ==> j.field != k.field
  {
    KeyInjective(j.slug, j.field, EffectiveProvider(DiffAt(b, j)), k.slug, k.field, EffectiveProvider(DiffAt(b, k)));
  }

  lemma VisitsCommute(b: Batch, e: Essence, j: GroupKey, k: GroupKey)
    requires GoodBatch(b) && j in Keys(b.valid) && k in Keys(b.valid) && j != k
    ensures Visit(b, Visit(b, e, j), k) == Visit(b, Visit(b, e, k), j)
  {
    if Reaches(b, j) && Reaches(b, k) {
      DistinctGroupsDistinctKeys(b, j, k);
      var dj, dk := DiffAt(b, j), DiffAt(b, k);
      GatesCommute(e.pending, SingleKey(j, dj), dj.newValue, dj.source, b.env.at(j),
                   SingleKey(k, dk), dk.newValue, dk.source, b.env.at(k));
    }
  }

  lemma VisitOrderFree(b: Batch, e: Essence, o1: seq<GroupKey>, o2: seq<GroupKey>)
    requires GoodBatch(b) && IsOrder(o1, Keys(b.valid)) && IsOrder(o2, Keys(b.valid))
    ensures VisitSeq(b, e, o1) == VisitSeq(b, e, o2)
  {
    var f := (e: Essence, k: GroupKey) => Visit(b, e, k);
    forall e, j, k | j in Keys(b.valid) && k in Keys(b.valid) && j != k
      ensures f(f(e, j), k) == f(f(e, k), j)
    {
      VisitsCommute(b, e, j, k);
    }
    FoldOrderFree(f, e, o1, o2, Keys(b.valid));
  }

  // ---------------------------------------------------------------- the real visit

  /** A visit of the full state, seen on essences; rows stay complete. */
  lemma StepIsVisit(b: Batch, s: State, k: GroupKey)
    requires GoodBatch(b) && Solid(b, s) && k in Keys(b.valid)
    ensures var s' := Step1(s, b.valid, b.ids, b.env, k);
            Solid(b, s') && EssenceOf(s') == Visit(b, EssenceOf(s), k)
  {
    OneSorted(b, k);
    if Reaches(b, k) {
      StepIsGate(b, s, k);
      var d := DiffAt(b, k);
      var g := Gate(s.pending, SingleKey(k, d), d.newValue, d.source, true, b.env.at(k));
      var held := s.(pending := g.pending);
      SolidIgnoresPending(b, s, held);
      if g.verdict == Confirmed {
        PublishIsSetColumn(b, held, k);
      }
    }
  }

  /** A complete row exists, so the gate never takes a report for a first one. */
  lemma StepIsGate(b: Batch, s: State, k: GroupKey)
    requires GoodBatch(b) && Solid(b, s) && k in Keys(b.valid) && Reaches(b, k)
    ensures var d := DiffAt(b, k);
            var g := Gate(s.pending, SingleKey(k, d), d.newValue, d.source, true, b.env.at(k));
            Step1(s, b.valid, b.ids, b.env, k) ==
            if g.verdict == Confirmed then
              PublishTo(s.(pending := g.pending), RowAt(b, k), k.field, d.newValue, Medium, d.underlying,
                        Sibling(b.valid, k), b.env.at(k), b.env.faults(k))
            else s.(pending := g.pending)
  {
    OneSorted(b, k);
    assert RowAt(b, k) in s.db.prices;
  }

  lemma OneSorted(b: Batch, k: GroupKey)
    requires GoodBatch(b) && k in Keys(b.valid)
    ensures Sorted(b.valid, k) == [DiffAt(b, k)] && IsSingle([DiffAt(b, k)])
  {
    SortOne(DiffAt(b, k));
    assert GroupOf(b.valid, k) == [DiffAt(b, k)];
  }

  lemma SolidIgnoresPending(b: Batch, s: State, s': State)
    requires Solid(b, s) && s'.db == s.db
    ensures Solid(b, s')
  {
    forall k, f | k in Keys(b.valid) && Reaches(b, k)
      ensures ColumnGood(b, s', k, f)
    {
      assert ColumnGood(b, s, k, f);
    }
  }

  /** The untouched column is written back as it was. */
  lemma PublishIsSetColumn(b: Batch, s: State, k: GroupKey)
    requires GoodBatch(b) && Solid(b, s) && k in Keys(b.valid) && Reaches(b, k)
    ensures var d, row, f := DiffAt(b, k), RowAt(b, k), b.env.faults(k);
            var s' := PublishTo(s, row, k.field, d.newValue, Medium, d.underlying, Sibling(b.valid, k), b.env.at(k), f);
            && Solid(b, s') && s'.pending == s.pending
            && QuotesOf(s'.db.prices) ==
                 if d.newValue > 0.0 && Fits(d.newValue) && !f.publish
                 then QuotesOf(s.db.prices)[row := SetColumn(QuotesOf(s.db.prices)[row], k.field, ToSteps(d.newValue))]
                 else QuotesOf(s.db.prices)
  {
    var d, row, f := DiffAt(b, k), RowAt(b, k), b.env.faults(k);
    var g := OtherField(k.field);
    var sibling := Sibling(b.valid, k);
    var s' := PublishTo(s, row, k.field, d.newValue, Medium, d.underlying, sibling, b.env.at(k), f);
    KeptColumn(b, s, k);
    var n := Column(s.db.prices[row], g);
    if s' != s {
      var p' := s'.db.prices[row];
      assert Column(p', k.field) == ToSteps(d.newValue) && Column(p', g) == n;
      StaysSolid(b, s, s', k);
    }
  }

  lemma StaysSolid(b: Batch, s: State, s': State, k: GroupKey)
    requires GoodBatch(b) && Solid(b, s) && k in Keys(b.valid) && Reaches(b, k) && s'.db.models == s.db.models
    requires DiffAt(b, k).newValue > 0.0 && Fits(DiffAt(b, k).newValue)
    requires s'.db.prices.Keys == s.db.prices.Keys
    requires forall q :: q in s.db.prices && q != RowAt(b, k) ==> s'.db.prices[q] == s.db.prices[q]
    requires Column(s'.db.prices[RowAt(b, k)], k.field) == ToSteps(DiffAt(b, k).newValue)
    requires Column(s'.db.prices[RowAt(b, k)], OtherField(k.field)) == Column(s.db.prices[RowAt(b, k)], OtherField(k.field))
    ensures Solid(b, s')
  {
    var row := RowAt(b, k);
    forall j, h | j in Keys(b.valid) && Reaches(b, j)
      ensures ColumnGood(b, s', j, h)
    {
      assert ColumnGood(b, s, j, h);
      if RowAt(b, j) == row {
        assert j.slug == k.slug;
        if h == k.field {
          PositiveOnceStored(DiffAt(b, k).newValue);
          assert GroupKey(j.slug, h) == k;
        }
      }
    }
    forall q, f | q in s'.db.prices
      ensures -STEP_LIMIT < Column(s'.db.prices[q], f) < STEP_LIMIT
    {
      if q == row && f != k.field {
        assert f == OtherField(k.field);
      }
    }
  }

  lemma KeptColumn(b: Batch, s: State, k: GroupKey)
    requires GoodBatch(b) && Solid(b, s) && k in Keys(b.valid) && Reaches(b, k)
    ensures var g, row := OtherField(k.field), RowAt(b, k);
            var v := Completed(s.db, row, k.field, g, DiffAt(b, k).newValue, Sibling(b.valid, k), false);
            v > 0.0 && Fits(v) && ToSteps(v) == Column(s.db.prices[row], g)
  {
    var g, row := OtherField(k.field), RowAt(b, k);
    var n := Column(s.db.prices[row], g);
    assert ColumnGood(b, s, k, g);
    StoredSign(n);
    RereadSteps(n);
    if n <= 0 {
      var other := GroupKey(k.slug, g);
      PositiveOnceStored(DiffAt(b, other).newValue);
      assert Sibling(b.valid, k) == DiffAt(b, other).newValue;
    }
  }

  lemma {:induction false} StepsAreVisits(b: Batch, s: State, order: seq<GroupKey>, n: nat)
    requires GoodBatch(b) && Solid(b, s) && n <= |order|
    requires forall m :: 0 <= m < |order| ==> order[m] in Keys(b.valid)
    ensures var s' := Steps(s, b.valid, b.ids, b.env, order[..n]);
            Solid(b, s') && EssenceOf(s') == VisitSeq(b, EssenceOf(s), order[..n])
  {
    if n > 0 {
      StepsAreVisits(b, s, order, n - 1);
      assert order[..n][..n - 1] == order[..n - 1];
      StepIsVisit(b, Steps(s, b.valid, b.ids, b.env, order[..n - 1]), order[n - 1]);
    }
  }

  /** Every (model, source) a cycle touches already has both prices above zero. */
  predicate RowsComplete(b: Batch, s: State) {
    && s.db.models == b.models && InRange(s.db)
    && forall k :: k in Keys(b.valid) && Reaches(b, k) ==>
         && RowAt(b, k) in s.db.prices
         && s.db.prices[RowAt(b, k)].input > 0 && s.db.prices[RowAt(b, k)].output > 0
  }

  /** When every group has one diff and every touched row is complete, a cycle leaves the same
      prices, confidences and pending map for every order in which its groups are visited. */
  lemma CycleOrderIrrelevant(s: State, c1: Cycle, c2: Cycle, b: Batch)
    requires c1.diffs == c2.diffs && c1.env == c2.env
    requires b.valid == ValidOf(s.db, c1) && b.ids == SourceIds(s.db, c1.diffs, c1.env.badSources)
    requires b.env == c1.env && GoodBatch(b) && RowsComplete(b, s)
    requires IsOrder(c1.order, Keys(b.valid)) && IsOrder(c2.order, Keys(b.valid))
    ensures EssenceOf(IdealCycle(s, c1)) == EssenceOf(IdealCycle(s, c2))
  {
    var s0 := s.(pending := Live(s.pending, c1.env.sweepAt));
    assert Solid(b, s0);
    StepsAreVisits(b, s0, c1.order, |c1.order|);
    StepsAreVisits(b, s0, c2.order, |c2.order|);
    assert c1.order[..|c1.order|] == c1.order && c2.order[..|c2.order|] == c2.order;
    VisitOrderFree(b, EssenceOf(s0), c1.order, c2.order);
  }

  // ---------------------------------------------------------------- a brand-new model

  /** Both fields of a model without a row are reported, and every store call succeeds. */
  predicate FirstReport(b: Batch, s: State, slug: string) {
    && s.db.models == b.models && (forall f :: Reaches(b, GroupKey(slug, f)))
    && (forall key :: key in s.pending ==> s.pending[key].count >= 1)
    && forall f ::
         var k := GroupKey(slug, f);
         && k in Keys(b.valid) && b.env.faults(k) == Faults(false, false, false, false, false)
         && RowAt(b, k) == RowAt(b, GroupKey(slug, Input)) && RowAt(b, k) !in s.db.prices
         && DiffAt(b, k).newValue > 0.0 && Fits(DiffAt(b, k).newValue)
  }

  function FieldAt(b: Batch, slug: string, f: PriceField): real
    requires |GroupOf(b.valid, GroupKey(slug, f))| == 1
  {
    DiffAt(b, GroupKey(slug, f)).newValue
  }

  /** What the gate sees of a report. */
  datatype Sight = Sight(key: string, value: real, source: string, at: int)

  function SightAt(b: Batch, k: GroupKey): Sight
    requires |GroupOf(b.valid, k)| == 1
  {
    var d := DiffAt(b, k);
    Sight(SingleKey(k, d), d.newValue, d.source, b.env.at(k))
  }

  /** What a cycle over the model's two groups changes: its row, if written, and the pending map. */
  datatype Fresh = Fresh(row: Option<Confidence>, pending: Pending)

  function FieldVisit(n: Fresh, x: Sight): Fresh {
    var g := Gate(n.pending, x.key, x.value, x.source, n.row.Some?, x.at);
    match g.verdict
    case Hold => Fresh(n.row, g.pending)
    case FirstSeen => Fresh(Some(Low), g.pending)
    case Confirmed => Fresh(Some(Medium), g.pending)
  }

  /** The model's row, and the two column values that any first publish gives it. */
  datatype Target = Target(row: RowKey, input: int, output: int)

  function TargetOf(b: Batch, slug: string): Target
    requires Reaches(b, GroupKey(slug, Input)) && Reaches(b, GroupKey(slug, Output))
  {
    Target(RowAt(b, GroupKey(slug, Input)), ToSteps(FieldAt(b, slug, Input)), ToSteps(FieldAt(b, slug, Output)))
  }

  function Put(quotes: map<RowKey, Quote>, t: Target, row: Option<Confidence>): map<RowKey, Quote> {
    if row.None? then quotes else quotes[t.row := Quote(t.input, t.output, row.value)]
  }

  /** s is s0 with the target row written, or not yet, and this pending map. */
  predicate Stands(s0: State, s: State, t: Target, n: Fresh) {
    && s.db.models == s0.db.models && s.pending == n.pending && (t.row in s.db.prices <==> n.row.Some?)
    && QuotesOf(s.db.prices) == Put(QuotesOf(s0.db.prices), t, n.row)
  }

  /** Publishing either field of a row that is missing, or already holds both values, leaves both. */
  lemma PublishBoth(s: State, row: RowKey, f: PriceField, value: real, sibling: real, conf: Confidence, under: string, now: int)
    requires value > 0.0 && sibling > 0.0 && Fits(value) && Fits(sibling)
    requires row in s.db.prices ==> Column(s.db.prices[row], OtherField(f)) == ToSteps(sibling)
    ensures var s' := PublishTo(s, row, f, value, conf, under, sibling, now, Faults(false, false, false, false, false));
            && s'.pending == s.pending && s'.db.models == s.db.models && row in s'.db.prices
            && QuotesOf(s'.db.prices) ==
                 QuotesOf(s.db.prices)[row := if f == Input then Quote(ToSteps(value), ToSteps(sibling), conf)
                                              else Quote(ToSteps(sibling), ToSteps(value), conf)]
  {
    if row in s.db.prices {
      StoredSign(ToSteps(sibling));
      RereadSteps(ToSteps(sibling));
    }
    var kept := Completed(s.db, row, f, OtherField(f), value, sibling, false);
    assert kept > 0.0 && Fits(kept) && ToSteps(kept) == ToSteps(sibling);
  }

  lemma RowHolds(s0: State, s: State, t: Target, n: Fresh)
    requires Stands(s0, s, t, n) && t.row in s.db.prices
    ensures s.db.prices[t.row].input == t.input && s.db.prices[t.row].output == t.output
  {
    assert QuotesOf(s.db.prices)[t.row] == Quote(t.input, t.output, n.row.value);
  }

  lemma PublishStands(s0: State, s: State, t: Target, n: Fresh, f: PriceField, value: real, sibling: real,
                      conf: Confidence, under: string, now: int)
    requires value > 0.0 && sibling > 0.0 && Fits(value) && Fits(sibling) && Stands(s0, s, t, n)
    requires t == if f == Input then Target(t.row, ToSteps(value), ToSteps(sibling))
                  else Target(t.row, ToSteps(sibling), ToSteps(value))
    ensures Stands(s0, PublishTo(s, t.row, f, value, conf, under, sibling, now, Faults(false, false, false, false, false)),
                   t, Fresh(Some(conf), n.pending))
  {
    if t.row in s.db.prices {
      RowHolds(s0, s, t, n);
    }
    PublishBoth(s, t.row, f, value, sibling, conf, under, now);
  }

  /** The visit of one of the model's groups is its gate, and both values if that publishes. */
  lemma FirstReportVisit(b: Batch, s0: State, s: State, k: GroupKey, n: Fresh)
    requires GoodBatch(b) && FirstReport(b, s0, k.slug) && Reaches(b, k)
    requires s.db.models == s0.db.models && s.pending == n.pending && (RowAt(b, k) in s.db.prices <==> n.row.Some?)
    ensures var d, x := DiffAt(b, k), SightAt(b, k);
            var g := Gate(n.pending, x.key, x.value, x.source, n.row.Some?, x.at);
            var held, other := s.(pending := g.pending), FieldAt(b, k.slug, OtherField(k.field));
            var none := Faults(false, false, false, false, false);
            Step1(s, b.valid, b.ids, b.env, k) ==
            if g.verdict == Hold then held
            else PublishTo(held, RowAt(b, k), k.field, d.newValue, if g.verdict == FirstSeen then Low else Medium,
                           d.underlying, other, x.at, none)
  {
    var other := GroupKey(k.slug, OtherField(k.field));
    assert GroupKey(k.slug, k.field) == k && Reaches(b, other);
    OneSorted(b, k);
    assert Sibling(b.valid, k) == DiffAt(b, other).newValue;
  }

  lemma FieldStep(b: Batch, s0: State, s: State, k: GroupKey, n: Fresh)
    requires GoodBatch(b) && FirstReport(b, s0, k.slug) && Reaches(b, k) && Stands(s0, s, TargetOf(b, k.slug), n)
    ensures Stands(s0, Step1(s, b.valid, b.ids, b.env, k), TargetOf(b, k.slug), FieldVisit(n, SightAt(b, k)))
  {
    var t, other := TargetOf(b, k.slug), GroupKey(k.slug, OtherField(k.field));
    assert GroupKey(k.slug, k.field) == k && RowAt(b, k) == t.row;
    FirstReportVisit(b, s0, s, k, n);
    var d, x := DiffAt(b, k), SightAt(b, k);
    var g := Gate(n.pending, x.key, x.value, x.source, n.row.Some?, x.at);
    if g.verdict != Hold {
      assert DiffAt(b, other).newValue > 0.0 && Fits(DiffAt(b, other).newValue);
      PublishStands(s0, s.(pending := g.pending), t, n.(pending := g.pending), k.field, d.newValue,
                    DiffAt(b, other).newValue, if g.verdict == FirstSeen then Low else Medium, d.underlying, x.at);
    }
  }

  lemma TwoFieldSteps(b: Batch, s: State, k: GroupKey, j: GroupKey)
    requires GoodBatch(b) && FirstReport(b, s, k.slug) && Reaches(b, k) && Reaches(b, j) && j.slug == k.slug
    ensures Stands(s, Steps(s, b.valid, b.ids, b.env, [k, j]), TargetOf(b, k.slug),
                   FieldVisit(FieldVisit(Fresh(None, s.pending), SightAt(b, k)), SightAt(b, j)))
  {
    StepsTwo(b, s, k, j);
    assert RowAt(b, GroupKey(k.slug, Input)) !in s.db.prices;
    FieldStep(b, s, s, k, Fresh(None, s.pending));
    FieldStep(b, s, Step1(s, b.valid, b.ids, b.env, k), j, FieldVisit(Fresh(None, s.pending), SightAt(b, k)));
  }

  lemma StepsTwo(b: Batch, s: State, k: GroupKey, j: GroupKey)
    ensures Steps(s, b.valid, b.ids, b.env, [k, j]) == Step1(Step1(s, b.valid, b.ids, b.env, k), b.valid, b.ids, b.env, j)
  {
    assert [k, j][..1] == [k] && [k][..0] == [];
    assert Steps(s, b.valid, b.ids, b.env, []) == s;
    assert Steps(s, b.valid, b.ids, b.env, [k]) == Step1(s, b.valid, b.ids, b.env, k);
  }

  /** A pending entry that the report contradicts. */
  predicate Clashes(p: Pending, x: Sight) {
    x.key in p && Abs(p[x.key].value - x.value) >= EPSILON
  }

  /** Some field is seen for the first time while the other has no contradicting entry. */
  predicate OrderShows(p: Pending, i: Sight, o: Sight) {
    (i.key !in p && !Clashes(p, o)) || (o.key !in p && !Clashes(p, i))
  }

  /** A key that is new stays out of the map when its field comes first, and enters it when its field
      comes second behind a publish. */
  lemma NewFieldOrder(p: Pending, i: Sight, o: Sight)
    requires i.key != o.key && i.key !in p && !Clashes(p, o)
    requires forall key :: key in p ==> p[key].count >= 1
    ensures var a := FieldVisit(FieldVisit(Fresh(None, p), i), o);
            var c := FieldVisit(FieldVisit(Fresh(None, p), o), i);
            a.row == c.row && i.key !in a.pending && i.key in c.pending
  {
  }

  lemma FieldOrderIff(p: Pending, i: Sight, o: Sight)
    requires i.key != o.key && forall key :: key in p ==> p[key].count >= 1
    ensures var a := FieldVisit(FieldVisit(Fresh(None, p), i), o);
            var c := FieldVisit(FieldVisit(Fresh(None, p), o), i);
            a.row == c.row && (a.pending == c.pending <==> !OrderShows(p, i, o))
  {
    if i.key !in p && !Clashes(p, o) {
      NewFieldOrder(p, i, o);
    } else if o.key !in p && !Clashes(p, i) {
      NewFieldOrder(p, o, i);
    }
  }

  /** For a model without a row the written row is the same for both orders of its two groups. What
      stays pending is the same if and only if no field is new while the other is uncontradicted. */
  lemma NewModelOrderIff(b: Batch, s: State, slug: string)
    requires GoodBatch(b) && FirstReport(b, s, slug)
    ensures var i, o := GroupKey(slug, Input), GroupKey(slug, Output);
            var x, y := Steps(s, b.valid, b.ids, b.env, [i, o]), Steps(s, b.valid, b.ids, b.env, [o, i]);
            && Reaches(b, i) && Reaches(b, o)
            && QuotesOf(x.db.prices) == QuotesOf(y.db.prices)
            && (x.pending == y.pending <==> !OrderShows(s.pending, SightAt(b, i), SightAt(b, o)))
  {
    var i, o := GroupKey(slug, Input), GroupKey(slug, Output);
    assert Reaches(b, i) && Reaches(b, o);
    TwoFieldSteps(b, s, i, o);
    TwoFieldSteps(b, s, o, i);
    assert i in Keys(b.valid) && o in Keys(b.valid);
    DistinctGroupsDistinctKeys(b, i, o);
    FieldOrderIff(s.pending, SightAt(b, i), SightAt(b, o));
  }

  /** In particular, when neither field was seen before, the field visited second is left waiting. */
  lemma NewModelLeavesSecondField(b: Batch, s: State, k: GroupKey)
    requires GoodBatch(b) && FirstReport(b, s, k.slug)
    requires forall f :: SightAt(b, GroupKey(k.slug, f)).key !in s.pending
    ensures var j := GroupKey(k.slug, OtherField(k.field));
            && Reaches(b, k) && Reaches(b, j)
            && var d := DiffAt(b, j);
               EssenceOf(Steps(s, b.valid, b.ids, b.env, [k, j])) ==
               Essence(QuotesOf(s.db.prices)[RowAt(b, k) :=
                         Quote(ToSteps(FieldAt(b, k.slug, Input)), ToSteps(FieldAt(b, k.slug, Output)), Low)],
                       s.pending[SingleKey(j, d) := Entry(d.newValue, d.source, 1, b.env.at(j))])
  {
    var j := GroupKey(k.slug, OtherField(k.field));
    assert GroupKey(k.slug, k.field) == k && Reaches(b, k) && Reaches(b, j);
    TwoFieldSteps(b, s, k, j);
    assert SightAt(b, k).key !in s.pending && SightAt(b, j).key !in s.pending;
    assert RowAt(b, k) == TargetOf(b, k.slug).row;
    assert FieldVisit(Fresh(None, s.pending), SightAt(b, k)) == Fresh(Some(Low), s.pending);
  }

  /** So for a model neither of whose fields was seen before, the two orders leave different pending maps. */
  lemma NewModelOrderShows(b: Batch, s: State, slug: string)
    requires GoodBatch(b) && FirstReport(b, s, slug)
    requires forall f :: SightAt(b, GroupKey(slug, f)).key !in s.pending
    ensures var i, o := GroupKey(slug, Input), GroupKey(slug, Output);
            var a, c := Steps(s, b.valid, b.ids, b.env, [i, o]), Steps(s, b.valid, b.ids, b.env, [o, i]);
            QuotesOf(a.db.prices) == QuotesOf(c.db.prices) && a.pending != c.pending
  {
    NewModelOrderIff(b, s, slug);
    assert SightAt(b, GroupKey(slug, Input)).key !in s.pending && SightAt(b, GroupKey(slug, Output)).key !in s.pending;
  }
}
